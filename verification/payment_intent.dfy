/**
 * The payment-intent endpoint (app/api/payment-intent/route.ts, `POST`).
 *
 * A request names a payment `type` (a reservation deposit on a property or
 * a listing-promotion subscription), the paying user, optionally a property
 * and, for subscriptions, a price tier. The handler validates the request,
 * derives the amount, description and metadata of the charge, has the
 * payment provider create an intent, appends one `pending` row to the
 * transactions table and answers with the intent's id and amount.
 *
 * The payment provider, the properties table and the transactions table are
 * external services: the property rows are a map, the intent the provider
 * returns and whether the insert succeeds are parameters.
 */
module PaymentIntentRoute {
  import opened Wrappers

  /** The JSON body's four fields; `None` when a field is absent. */
  datatype Request = Request(kind: Option<string>, userId: Option<string>, propertyId: Option<string>, tier: Option<string>)

  /** JavaScript truthiness of an optional string field: present and non-empty. */
  predicate Given(f: Option<string>)
  {
    f.Some? && f.value != ""
  }

  /** A row of the properties table (only the selected `title, price`). */
  datatype Property = Property(title: string, price: int)

  /** An entry of the subscription price table. */
  datatype Price = Price(name: string, amount: int)

  /** The two constants of the payment library: `DEPOSIT_AMOUNT` and
      `SUBSCRIPTION_PRICES`. */
  datatype Pricing = Pricing(depositAmount: int, subscriptionPrices: map<string, Price>)

  /** The promotion tiers the application offers. */
  const Tiers: set<string> := {"basic", "pro", "premium"}

  /** The shape the payment library's constants have: a positive deposit and
      a positive price for exactly the three tiers. */
  predicate ValidPricing(p: Pricing)
  {
    && p.depositAmount > 0
    && p.subscriptionPrices.Keys == Tiers
    && forall t :: t in p.subscriptionPrices ==> p.subscriptionPrices[t].amount > 0
  }

  /** What is charged: amount in minor units, description and metadata. */
  datatype Charge = Charge(amount: int, description: string, metadata: map<string, string>)

  /** The handler's decision before any external call. */
  datatype Decision = Reject(status: int, message: string) | Accept(charge: Charge)

  /** The payment intent the provider creates. */
  datatype Intent = Intent(id: string, clientSecret: string)

  /** The HTTP answer: an error body with its status, or the intent. */
  datatype Response = Error(status: int, message: string) | Ok(clientSecret: string, intentId: string, amount: int)

  /** A row of the transactions table. */
  datatype Transaction = Transaction(
    userId: string, propertyId: Option<string>, kind: string, intentId: string,
    amount: int, status: string, description: string, metadata: map<string, string>)

  /** `SUBSCRIPTION_PRICES[tier]`; an absent tier finds nothing. */
  function PriceOf(pricing: Pricing, tier: Option<string>): (r: Option<Price>)
    ensures r.Some? <==> tier.Some? && tier.value in pricing.subscriptionPrices
    ensures r.Some? ==> r.value == pricing.subscriptionPrices[tier.value]
  {
    if tier.Some? && tier.value in pricing.subscriptionPrices then Some(pricing.subscriptionPrices[tier.value]) else None
  }

  /** The validation and derivation of lines 15 to 58 of the handler, as one
      decision over the request, the price constants and the properties
      table. */
  function Decide(req: Request, pricing: Pricing, properties: map<string, Property>): (d: Decision)
    // missing type or user: 400 before anything else
    ensures !Given(req.kind) || !Given(req.userId) ==> d == Reject(400, "Missing required fields")
    // every accepted charge carries the user and the type in its metadata
    ensures d.Accept? ==>
      && Given(req.kind) && Given(req.userId)
      && "user_id" in d.charge.metadata && d.charge.metadata["user_id"] == req.userId.value
      && "type" in d.charge.metadata && d.charge.metadata["type"] == req.kind.value
    // deposits
    ensures Given(req.kind) && Given(req.userId) && req.kind.value == "deposit" ==>
      if !Given(req.propertyId) then d == Reject(400, "Property ID required for deposits")
      else if req.propertyId.value !in properties then d == Reject(404, "Property not found")
      else (
        && d.Accept?
        && d.charge.amount == pricing.depositAmount
        && d.charge.description == "Reservation deposit for: " + properties[req.propertyId.value].title
        && d.charge.metadata.Keys == {"user_id", "type", "property_id"}
        && d.charge.metadata["property_id"] == req.propertyId.value)
    // subscriptions
    ensures Given(req.kind) && Given(req.userId) && req.kind.value == "subscription" ==>
      match PriceOf(pricing, req.tier)
      case None => d == Reject(400, "Invalid subscription tier")
      case Some(p) =>
        && d.Accept?
        && d.charge.amount == p.amount
        && d.charge.description == p.name + " - Promoted Listing"
        && "tier" in d.charge.metadata && d.charge.metadata["tier"] == req.tier.value
        && ("property_id" in d.charge.metadata <==> Given(req.propertyId))
        && (Given(req.propertyId) ==> d.charge.metadata["property_id"] == req.propertyId.value)
        && d.charge.metadata.Keys <= {"user_id", "type", "tier", "property_id"}
    // anything else
    ensures Given(req.kind) && Given(req.userId) && req.kind.value !in {"deposit", "subscription"} ==>
      d == Reject(400, "Invalid payment type")
  {
    if !Given(req.kind) || !Given(req.userId) then
      Reject(400, "Missing required fields")
    else
      var metadata := map["user_id" := req.userId.value, "type" := req.kind.value];
      if req.kind.value == "deposit" then
        if !Given(req.propertyId) then
          Reject(400, "Property ID required for deposits")
        else if req.propertyId.value !in properties then
          Reject(404, "Property not found")
        else
          Accept(Charge(pricing.depositAmount,
                        "Reservation deposit for: " + properties[req.propertyId.value].title,
                        metadata["property_id" := req.propertyId.value]))
      else if req.kind.value == "subscription" then
        match PriceOf(pricing, req.tier)
        case None => Reject(400, "Invalid subscription tier")
        case Some(p) =>
          var withTier := metadata["tier" := req.tier.value];
          Accept(Charge(p.amount, p.name + " - Promoted Listing",
                        if Given(req.propertyId) then withTier["property_id" := req.propertyId.value] else withTier))
      else
        Reject(400, "Invalid payment type")
  }

  /** The row written for an accepted charge: pending, with the intent's
      id, amount, description and metadata, and the property only when one
      was given (`propertyId || null`). */
  function PendingRecord(req: Request, charge: Charge, intent: Intent): (t: Transaction)
    requires Given(req.kind) && Given(req.userId)
    ensures t.status == "pending"
    ensures t.userId == req.userId.value && t.kind == req.kind.value
    ensures t.intentId == intent.id && t.amount == charge.amount
    ensures t.description == charge.description && t.metadata == charge.metadata
    ensures t.propertyId.None? <==> !Given(req.propertyId)
    ensures t.propertyId.Some? ==> t.propertyId == req.propertyId
  {
    Transaction(req.userId.value, if Given(req.propertyId) then req.propertyId else None,
                req.kind.value, intent.id, charge.amount, "pending", charge.description, charge.metadata)
  }

  /** The transactions table. */
  class Ledger {
    var transactions: seq<Transaction>

    constructor ()
      ensures transactions == []
    {
      transactions := [];
    }

    /** `insert`: appends the row when the database accepts it; `failed`
        reports the database's error. */
    method Insert(row: Transaction, succeeds: bool) returns (failed: bool)
      modifies this
      ensures failed == !succeeds
      ensures transactions == if succeeds then old(transactions) + [row] else old(transactions)
    {
      if succeeds {
        transactions := transactions + [row];
      }
      failed := !succeeds;
    }
  }

  /** The handler. `intent` is what the provider returns for the charge and
      `insertSucceeds` whether the database accepts the row; a rejected
      request reaches neither. A failed insert is only logged: the answer is
      the same. */
  method Post(ledger: Ledger, req: Request, pricing: Pricing, properties: map<string, Property>,
              intent: Intent, insertSucceeds: bool) returns (resp: Response)
    modifies ledger
    ensures Decide(req, pricing, properties).Reject? ==>
      && resp == Error(Decide(req, pricing, properties).status, Decide(req, pricing, properties).message)
      && ledger.transactions == old(ledger.transactions)
    ensures Decide(req, pricing, properties).Accept? ==>
      var charge := Decide(req, pricing, properties).charge;
      && resp == Ok(intent.clientSecret, intent.id, charge.amount)
      && ledger.transactions == old(ledger.transactions) + (if insertSucceeds then [PendingRecord(req, charge, intent)] else [])
  {
    if !Given(req.kind) || !Given(req.userId) {
      return Error(400, "Missing required fields");
    }
    var kind, userId := req.kind.value, req.userId.value;

    var amount: int;
    var description: string;
    var metadata: map<string, string> := map["user_id" := userId, "type" := kind];

    if kind == "deposit" {
      if !Given(req.propertyId) {
        return Error(400, "Property ID required for deposits");
      }
      var propertyId := req.propertyId.value;
      if propertyId !in properties {
        return Error(404, "Property not found");
      }
      var property := properties[propertyId];
      amount := pricing.depositAmount;
      description := "Reservation deposit for: " + property.title;
      metadata := metadata["property_id" := propertyId];
    } else if kind == "subscription" {
      var priceData := PriceOf(pricing, req.tier);
      if priceData.None? {
        return Error(400, "Invalid subscription tier");
      }
      amount := priceData.value.amount;
      description := priceData.value.name + " - Promoted Listing";
      metadata := metadata["tier" := req.tier.value];
      if Given(req.propertyId) {
        metadata := metadata["property_id" := req.propertyId.value];
      }
    } else {
      return Error(400, "Invalid payment type");
    }

    var row := Transaction(userId, if Given(req.propertyId) then req.propertyId else None,
                           kind, intent.id, amount, "pending", description, metadata);
    var txFailed := ledger.Insert(row, insertSucceeds);
    resp := Ok(intent.clientSecret, intent.id, amount);
  }

  /** A deposit without a property is turned away before the properties
      table is consulted: the answer is the same whatever the table holds.
      The same holds of every subscription. */
  lemma NoLookupUnlessDeposit(req: Request, pricing: Pricing, properties: map<string, Property>, others: map<string, Property>)
    requires !(Given(req.kind) && req.kind.value == "deposit" && Given(req.propertyId))
    ensures Decide(req, pricing, properties) == Decide(req, pricing, others)
  {
  }

  /** With the library's prices, a subscription is accepted exactly for the
      three tiers and every accepted charge is for a positive amount. */
  lemma AcceptedChargesArePositive(req: Request, pricing: Pricing, properties: map<string, Property>)
    requires ValidPricing(pricing)
    ensures Decide(req, pricing, properties).Accept? ==> Decide(req, pricing, properties).charge.amount > 0
    ensures Given(req.kind) && Given(req.userId) && req.kind.value == "subscription" ==>
      (Decide(req, pricing, properties).Accept? <==> req.tier.Some? && req.tier.value in Tiers)
  {
  }

  /** A rejection is one of the handler's five error answers: four with
      status 400 and one with status 404. */
  lemma StatusesAreKnown(req: Request, pricing: Pricing, properties: map<string, Property>)
    ensures Decide(req, pricing, properties).Reject? ==>
      Decide(req, pricing, properties) in {
        Reject(400, "Missing required fields"),
        Reject(400, "Property ID required for deposits"),
        Reject(404, "Property not found"),
        Reject(400, "Invalid subscription tier"),
        Reject(400, "Invalid payment type")}
  {
  }
}
