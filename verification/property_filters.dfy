/**
 * The filter panel of the browse page (components/property/property-filters.tsx).
 *
 * Five pieces of state (search text, listing type, category, price range,
 * bedrooms) start from the page's query string, each falling back to its
 * default when its parameter is missing. Applying the filters writes back a
 * query string that holds only the values that differ from their defaults,
 * in a fixed key order; resetting restores the defaults.
 *
 * Query strings are sequences of name-value pairs with the lookup and
 * update rules of the URL standard's `URLSearchParams`. The percent-encoding
 * of names and values is a parameter.
 */
module PropertyFilters {
  import opened Wrappers

  /** A name-value pair of a query string. */
  type Param = (string, string)

  /** The top of the price slider, and the default upper bound. */
  const MaxPrice: nat := 10000000

  /** The filter state, as values. */
  datatype Filters = Filters(q: string, kind: string, category: string, minPrice: nat, maxPrice: nat, beds: string)

  /** The state `resetFilters` restores, and the state of an empty query string. */
  const Defaults: Filters := Filters("", "all", "all", 0, MaxPrice, "any")

  // ---------------------------------------------------------------------
  // URLSearchParams

  /** `get`: the value of the first pair with this name, if any. */
  function Get(ps: seq<Param>, key: string): (r: Option<string>)
    ensures r.Some? ==> (key, r.value) in ps
    ensures r.None? ==> forall i :: 0 <= i < |ps| ==> ps[i].0 != key
  {
    if |ps| == 0 then None
    else if ps[0].0 == key then Some(ps[0].1)
    else
      var r := Get(ps[1..], key);
      assert forall i :: 1 <= i < |ps| ==> ps[i] == ps[1..][i - 1];
      r
  }

  /** `get` reads the first pair with the name: once pair `i` carries
      `key` and none before it does, its value is the answer. */
  lemma {:induction false} GetReturnsFirst(ps: seq<Param>, key: string, i: nat)
    requires i < |ps| && ps[i].0 == key
    requires forall j :: 0 <= j < i ==> ps[j].0 != key
    ensures Get(ps, key) == Some(ps[i].1)
  {
    if i > 0 {
      GetReturnsFirst(ps[1..], key, i - 1);
    }
  }

  /** Every pair whose name is not `key`. */
  function RemoveAll(ps: seq<Param>, key: string): (r: seq<Param>)
    ensures Get(r, key) == None
    ensures forall k :: k != key ==> Get(r, k) == Get(ps, k)
  {
    if |ps| == 0 then []
    else
      var rest := RemoveAll(ps[1..], key);
      if ps[0].0 == key then rest
      else
        var r := [ps[0]] + rest;
        assert r[1..] == rest;
        r
  }

  /** `set`: the first pair named `key` gets `value` and later ones are
      dropped; a name not yet present is appended at the end. */
  function SetParam(ps: seq<Param>, key: string, value: string): seq<Param>
  {
    if ps == [] then [(key, value)]
    else if ps[0].0 == key then [(key, value)] + RemoveAll(ps[1..], key)
    else [ps[0]] + SetParam(ps[1..], key, value)
  }

  /** After `set`, `key` has exactly `value` and every other name is
      untouched; a new name goes at the end. */
  lemma {:induction false} SetParamSpec(ps: seq<Param>, key: string, value: string)
    ensures Get(SetParam(ps, key, value), key) == Some(value)
    ensures forall k :: k != key ==> Get(SetParam(ps, key, value), k) == Get(ps, k)
    ensures Get(ps, key) == None ==> SetParam(ps, key, value) == ps + [(key, value)]
  {
    var r := SetParam(ps, key, value);
    if ps != [] {
      if ps[0].0 == key {
        assert r[1..] == RemoveAll(ps[1..], key);
      } else {
        var rest := SetParam(ps[1..], key, value);
        SetParamSpec(ps[1..], key, value);
        assert r[1..] == rest;
        if Get(ps, key) == None {
          assert ps == [ps[0]] + ps[1..];
        }
      }
    }
  }

  /** `toString`: `name=value` pairs joined by `&`, each side encoded. */
  function Serialize(ps: seq<Param>, encode: string -> string): (s: string)
    ensures s == "" <==> ps == []
  {
    if ps == [] then ""
    else
      var pair := encode(ps[0].0) + "=" + encode(ps[0].1);
      assert pair[|encode(ps[0].0)|] == '=';
      if |ps| == 1 then pair else pair + "&" + Serialize(ps[1..], encode)
  }

  // ---------------------------------------------------------------------
  // Numbers in query strings

  predicate IsDigit(c: char)
  {
    '0' as int <= c as int <= '9' as int
  }

  /** A non-empty string of decimal digits. */
  predicate IsDecimal(s: string)
  {
    |s| > 0 && forall i :: 0 <= i < |s| ==> IsDigit(s[i])
  }

  /** `Number.prototype.toString()` of a non-negative integer: its decimal
      digits, without leading zeros. */
  function NatToString(n: nat): (s: string)
    ensures IsDecimal(s)
    ensures s[0] == '0' ==> n == 0
  {
    var d := [(n % 10 + '0' as int) as char];
    if n < 10 then d else NatToString(n / 10) + d
  }

  /** `parseInt` of a string of decimal digits. */
  function ParseDecimal(s: string): (n: nat)
    requires forall i :: 0 <= i < |s| ==> IsDigit(s[i])
  {
    if s == [] then 0
    else
      assert IsDigit(s[|s| - 1]);
      10 * ParseDecimal(s[..|s| - 1]) + (s[|s| - 1] as int - '0' as int)
  }

  /** Reading back the written number gives the number. */
  lemma {:induction false} ParseNatToString(n: nat)
    ensures ParseDecimal(NatToString(n)) == n
  {
    var s := NatToString(n);
    if n >= 10 {
      ParseNatToString(n / 10);
      assert s[..|s| - 1] == NatToString(n / 10);
    }
  }

  /** The default prices as written in the source. */
  lemma DefaultPriceStrings()
    ensures NatToString(0) == "0" && ParseDecimal("0") == 0
    ensures NatToString(MaxPrice) == "10000000" && ParseDecimal("10000000") == MaxPrice
  {
    ParseNatToString(0);
    assert NatToString(1) == "1";
    assert NatToString(10) == "10";
    assert NatToString(100) == "100";
    assert NatToString(1000) == "1000";
    assert NatToString(10000) == "10000";
    assert NatToString(100000) == "100000";
    assert NatToString(1000000) == "1000000";
    ParseNatToString(MaxPrice);
  }

  // ---------------------------------------------------------------------
  // From the query string (the `useState` initialisers)

  /** JavaScript's `v || fallback` for a parameter: the fallback when the
      parameter is missing or empty. */
  function OrElse(v: Option<string>, fallback: string): string
  {
    if v.Some? && v.value != "" then v.value else fallback
  }

  /** The price parameters, when present and non-empty, are decimal integers. */
  predicate PricesWellFormed(ps: seq<Param>)
  {
    && IsDecimal(OrElse(Get(ps, "minPrice"), "0"))
    && IsDecimal(OrElse(Get(ps, "maxPrice"), "10000000"))
  }

  /** The initial state read from the page's query string: each missing or
      empty parameter gives its default (a present one gives its value, see
      `InitialReadsParams`). */
  function Initial(ps: seq<Param>): (f: Filters)
    requires PricesWellFormed(ps)
    ensures Get(ps, "q") in {None, Some("")} ==> f.q == ""
    ensures Get(ps, "type") in {None, Some("")} ==> f.kind == "all"
    ensures Get(ps, "category") in {None, Some("")} ==> f.category == "all"
    ensures Get(ps, "minPrice") in {None, Some("")} ==> f.minPrice == 0
    ensures Get(ps, "maxPrice") in {None, Some("")} ==> f.maxPrice == MaxPrice
    ensures Get(ps, "beds") in {None, Some("")} ==> f.beds == "any"
    ensures f.kind != "" && f.category != "" && f.beds != ""
  {
    DefaultPriceStrings();
    Filters(
      OrElse(Get(ps, "q"), ""),
      OrElse(Get(ps, "type"), "all"),
      OrElse(Get(ps, "category"), "all"),
      ParseDecimal(OrElse(Get(ps, "minPrice"), "0")),
      ParseDecimal(OrElse(Get(ps, "maxPrice"), "10000000")),
      OrElse(Get(ps, "beds"), "any"))
  }

  /** A present, non-empty parameter gives its filter its value. */
  lemma InitialReadsParams(ps: seq<Param>)
    requires PricesWellFormed(ps)
    ensures Get(ps, "q").Some? && Get(ps, "q").value != "" ==> Initial(ps).q == Get(ps, "q").value
    ensures Get(ps, "type").Some? && Get(ps, "type").value != "" ==> Initial(ps).kind == Get(ps, "type").value
    ensures Get(ps, "category").Some? && Get(ps, "category").value != "" ==> Initial(ps).category == Get(ps, "category").value
    ensures Get(ps, "minPrice").Some? && Get(ps, "minPrice").value != "" ==>
      IsDecimal(Get(ps, "minPrice").value) && Initial(ps).minPrice == ParseDecimal(Get(ps, "minPrice").value)
    ensures Get(ps, "maxPrice").Some? && Get(ps, "maxPrice").value != "" ==>
      IsDecimal(Get(ps, "maxPrice").value) && Initial(ps).maxPrice == ParseDecimal(Get(ps, "maxPrice").value)
    ensures Get(ps, "beds").Some? && Get(ps, "beds").value != "" ==> Initial(ps).beds == Get(ps, "beds").value
  {
  }

  // ---------------------------------------------------------------------
  // To the query string (what `applyFilters` builds)

  /** A filter that may be written: its parameter name, whether it differs
      from its default, and its value as text. */
  datatype Candidate = Candidate(key: string, nonDefault: bool, value: string)

  /** The six filters in the order `applyFilters` considers them. */
  function Candidates(f: Filters): seq<Candidate>
  {
    [ Candidate("q", f.q != "", f.q),
      Candidate("type", f.kind != "all", f.kind),
      Candidate("category", f.category != "all", f.category),
      Candidate("minPrice", f.minPrice > 0, NatToString(f.minPrice)),
      Candidate("maxPrice", f.maxPrice < MaxPrice, NatToString(f.maxPrice)),
      Candidate("beds", f.beds != "any", f.beds) ]
  }

  /** The pair a candidate contributes: one when it differs from its default. */
  function Piece(c: Candidate): seq<Param>
  {
    if c.nonDefault then [(c.key, c.value)] else []
  }

  /** The pairs of the candidates that differ from their defaults, in order. */
  function Emit(cs: seq<Candidate>): seq<Param>
  {
    if cs == [] then [] else Piece(cs[0]) + Emit(cs[1..])
  }

  /** The query string the filters produce. */
  function Query(f: Filters): seq<Param>
  {
    Emit(Candidates(f))
  }

  /** The parameter names of the candidates, in order. */
  function Keys(cs: seq<Candidate>): (ks: seq<string>)
    ensures |ks| == |cs|
    ensures forall i :: 0 <= i < |cs| ==> ks[i] == cs[i].key
  {
    seq(|cs|, i requires 0 <= i < |cs| => cs[i].key)
  }

  /** The names of the pairs of a query string, in order. */
  function Names(ps: seq<Param>): (ns: seq<string>)
    ensures |ns| == |ps|
    ensures forall i :: 0 <= i < |ps| ==> ns[i] == ps[i].0
  {
    seq(|ps|, i requires 0 <= i < |ps| => ps[i].0)
  }

  /** No name occurs twice. */
  predicate Distinct(ks: seq<string>)
  {
    forall i, j :: 0 <= i < j < |ks| ==> ks[i] != ks[j]
  }

  /** `a` is `b` with some elements left out, the rest in their order. */
  predicate IsSubsequence(a: seq<string>, b: seq<string>)
    decreases |b|
  {
    a == [] || (b != [] && ((a[0] == b[0] && IsSubsequence(a[1..], b[1..])) || IsSubsequence(a, b[1..])))
  }

  /** A subsequence of names without repetition has no repetition, and
      takes its names from the larger sequence. */
  lemma {:induction false} SubsequenceDistinct(a: seq<string>, b: seq<string>)
    requires IsSubsequence(a, b) && Distinct(b)
    ensures Distinct(a)
    ensures forall i :: 0 <= i < |a| ==> a[i] in b
    decreases |b|
  {
    if a != [] {
      assert Distinct(b[1..]) by {
        forall i, j | 0 <= i < j < |b| - 1 ensures b[1..][i] != b[1..][j] {
          assert b[i + 1] != b[j + 1];
        }
      }
      if a[0] == b[0] && IsSubsequence(a[1..], b[1..]) {
        SubsequenceDistinct(a[1..], b[1..]);
        forall i | 0 <= i < |a| ensures a[i] in b {
          if i > 0 {
            assert a[1..][i - 1] in b[1..];
          }
        }
        forall i, j | 0 <= i < j < |a| ensures a[i] != a[j] {
          assert a[1..][j - 1] == a[j];
          var m :| 0 <= m < |b[1..]| && b[1..][m] == a[j];
          if i == 0 {
            assert b[0] != b[m + 1];
          }
        }
      } else {
        SubsequenceDistinct(a, b[1..]);
        forall i | 0 <= i < |a| ensures a[i] in b {
          assert a[i] in b[1..];
        }
      }
    }
  }

  /** The names after the first candidate are still distinct, and none of
      them is the first candidate's. */
  lemma DistinctTail(cs: seq<Candidate>)
    requires cs != [] && Distinct(Keys(cs))
    ensures Distinct(Keys(cs[1..]))
    ensures forall j :: 0 <= j < |cs| - 1 ==> cs[1..][j].key != cs[0].key
  {
  }

  /** Emitting takes the names of some candidates, in the candidates' order. */
  lemma {:induction false} EmitSubsequence(cs: seq<Candidate>)
    ensures IsSubsequence(Names(Emit(cs)), Keys(cs))
  {
    if cs != [] {
      var rest := cs[1..];
      EmitSubsequence(rest);
      assert Keys(cs)[1..] == Keys(rest);
      if cs[0].nonDefault {
        assert Names(Emit(cs))[1..] == Names(Emit(rest));
      } else {
        assert Emit(cs) == Emit(rest);
      }
    }
  }

  /** Emitting candidates none of which is named `key` adds no pair named `key`. */
  lemma {:induction false} EmitLacks(cs: seq<Candidate>, key: string)
    requires forall i :: 0 <= i < |cs| ==> cs[i].key != key
    ensures Get(Emit(cs), key) == None
  {
    if cs != [] {
      var rest := cs[1..];
      EmitLacks(rest, key);
      if cs[0].nonDefault {
        assert Emit(cs)[1..] == Emit(rest);
      } else {
        assert Emit(cs) == Emit(rest);
      }
    }
  }

  /** Looking a candidate's name up in the emitted pairs gives its value if
      it differs from its default and nothing otherwise. */
  lemma {:induction false} GetEmit(cs: seq<Candidate>, k: nat)
    requires Distinct(Keys(cs)) && k < |cs|
    ensures Get(Emit(cs), cs[k].key) == if cs[k].nonDefault then Some(cs[k].value) else None
  {
    var rest := cs[1..];
    DistinctTail(cs);
    if k == 0 {
      if !cs[0].nonDefault {
        EmitLacks(rest, cs[0].key);
        assert Emit(cs) == Emit(rest);
      }
    } else {
      GetEmit(rest, k - 1);
      assert rest[k - 1] == cs[k];
      if cs[0].nonDefault {
        assert Emit(cs)[1..] == Emit(rest);
      } else {
        assert Emit(cs) == Emit(rest);
      }
    }
  }

  /** The six parameter names, in the order `applyFilters` sets them. */
  const FilterKeys: seq<string> := ["q", "type", "category", "minPrice", "maxPrice", "beds"]

  /** The candidates one by one. */
  lemma CandidatesAt(f: Filters)
    ensures |Candidates(f)| == 6
    ensures Candidates(f)[0] == Candidate("q", f.q != "", f.q)
    ensures Candidates(f)[1] == Candidate("type", f.kind != "all", f.kind)
    ensures Candidates(f)[2] == Candidate("category", f.category != "all", f.category)
    ensures Candidates(f)[3] == Candidate("minPrice", f.minPrice > 0, NatToString(f.minPrice))
    ensures Candidates(f)[4] == Candidate("maxPrice", f.maxPrice < MaxPrice, NatToString(f.maxPrice))
    ensures Candidates(f)[5] == Candidate("beds", f.beds != "any", f.beds)
  {
  }

  lemma CandidateKeys(f: Filters)
    ensures Keys(Candidates(f)) == FilterKeys
    ensures Distinct(FilterKeys)
  {
  }

  /** One guarded `params.set` of `applyFilters`: set the candidate's
      parameter when it differs from its default. */
  function SetIfChanged(ps: seq<Param>, c: Candidate): seq<Param>
  {
    if c.nonDefault then SetParam(ps, c.key, c.value) else ps
  }

  /** Emitting one more candidate appends its pair, if any. */
  lemma {:induction false} EmitSnoc(cs: seq<Candidate>, c: Candidate)
    ensures Emit(cs + [c]) == Emit(cs) + Piece(c)
  {
    if cs == [] {
      assert Emit([c]) == Piece(c) + Emit([]);
    } else {
      assert (cs + [c])[1..] == cs[1..] + [c];
      EmitSnoc(cs[1..], c);
      assert Piece(cs[0]) + (Emit(cs[1..]) + Piece(c)) == (Piece(cs[0]) + Emit(cs[1..])) + Piece(c);
    }
  }

  /** The pairs of the first `k` candidates, built one candidate at a time. */
  function EmitUpTo(cs: seq<Candidate>, k: nat): seq<Param>
    requires k <= |cs|
  {
    if k == 0 then [] else EmitUpTo(cs, k - 1) + Piece(cs[k - 1])
  }

  lemma {:induction false} EmitUpToIsEmit(cs: seq<Candidate>, k: nat)
    requires k <= |cs|
    ensures EmitUpTo(cs, k) == Emit(cs[..k])
  {
    if k == 0 {
      assert cs[..0] == [];
    } else {
      EmitUpToIsEmit(cs, k - 1);
      assert cs[..k] == cs[..k - 1] + [cs[k - 1]];
      EmitSnoc(cs[..k - 1], cs[k - 1]);
    }
  }

  /** Building all six candidates one at a time gives the query string. */
  lemma QueryBuilt(f: Filters)
    ensures EmitUpTo(Candidates(f), 6) == Query(f)
  {
    var cs := Candidates(f);
    EmitUpToIsEmit(cs, 6);
    assert cs[..6] == cs;
  }

  /** Once the candidates before the `k`-th have been set, the guarded `set`
      of the `k`-th appends its pair: its name is new, since the names of
      the candidates are distinct. */
  lemma SetNextCandidate(cs: seq<Candidate>, k: nat)
    requires Distinct(Keys(cs)) && k < |cs|
    ensures SetIfChanged(EmitUpTo(cs, k), cs[k]) == EmitUpTo(cs, k + 1)
  {
    forall i | 0 <= i < |cs[..k]| ensures cs[..k][i].key != cs[k].key {
      assert Keys(cs)[i] != Keys(cs)[k];
    }
    EmitLacks(cs[..k], cs[k].key);
    EmitUpToIsEmit(cs, k);
    if cs[k].nonDefault {
      SetParamSpec(EmitUpTo(cs, k), cs[k].key, cs[k].value);
    }
  }

  /** The written names are some of q, type, category, minPrice, maxPrice,
      beds, in that order, each at most once. */
  lemma QueryKeysInOrder(f: Filters)
    ensures IsSubsequence(Names(Query(f)), FilterKeys)
    ensures Distinct(Names(Query(f)))
    ensures forall p :: p in Query(f) ==> p.0 in FilterKeys
  {
    CandidateKeys(f);
    EmitSubsequence(Candidates(f));
    SubsequenceDistinct(Names(Query(f)), FilterKeys);
    forall p | p in Query(f) ensures p.0 in FilterKeys {
      var i :| 0 <= i < |Query(f)| && Query(f)[i] == p;
      assert Names(Query(f))[i] == p.0;
    }
  }

  /** A parameter is written exactly when its filter differs from the
      default, and then with the filter's value. */
  lemma QueryWritesNonDefaults(f: Filters)
    ensures Get(Query(f), "q") == if f.q != "" then Some(f.q) else None
    ensures Get(Query(f), "type") == if f.kind != "all" then Some(f.kind) else None
    ensures Get(Query(f), "category") == if f.category != "all" then Some(f.category) else None
    ensures Get(Query(f), "minPrice") == if f.minPrice > 0 then Some(NatToString(f.minPrice)) else None
    ensures Get(Query(f), "maxPrice") == if f.maxPrice < MaxPrice then Some(NatToString(f.maxPrice)) else None
    ensures Get(Query(f), "beds") == if f.beds != "any" then Some(f.beds) else None
  {
    var cs := Candidates(f);
    GetEmit(cs, 0);
    GetEmit(cs, 1);
    GetEmit(cs, 2);
    GetEmit(cs, 3);
    GetEmit(cs, 4);
    GetEmit(cs, 5);
  }

  /** The default state writes no parameter at all. */
  lemma DefaultsWriteNothing()
    ensures Query(Defaults) == []
    ensures PricesWellFormed([]) && Initial([]) == Defaults
  {
    DefaultPriceStrings();
  }

  /** The filter states whose query string reads back as themselves:
      non-empty select values and both prices on the slider's scale. The
      panel also holds states outside it (an empty select value, or a price
      above 10000000 taken from the URL); `applyFilters` does not write those
      back faithfully either, since an empty value reads as its default and
      an upper price above the scale is dropped. */
  predicate WellFormed(f: Filters)
  {
    && f.kind != "" && f.category != "" && f.beds != ""
    && f.minPrice <= MaxPrice && f.maxPrice <= MaxPrice
  }

  /** Reading back a text filter written only when it differs from its
      default. */
  lemma ReadBackText(v: string, default: string, r: Option<string>)
    requires v != "" || default == ""
    requires r == if v != default then Some(v) else None
    ensures OrElse(r, default) == v
  {
  }

  /** Reading back a price written only when it differs from its default. */
  lemma ReadBackPrice(n: nat, written: bool, default: string, r: Option<string>)
    requires !written ==> default == NatToString(n)
    requires r == if written then Some(NatToString(n)) else None
    ensures IsDecimal(OrElse(r, default))
    ensures ParseDecimal(OrElse(r, default)) == n
  {
    ParseNatToString(n);
  }

  /** Applying the filters and reloading the page from the written query
      string gives back the same filters. */
  lemma QueryRoundTrip(f: Filters)
    requires WellFormed(f)
    ensures PricesWellFormed(Query(f))
    ensures Initial(Query(f)) == f
  {
    var ps := Query(f);
    QueryWritesNonDefaults(f);
    DefaultPriceStrings();
    ReadBackText(f.q, "", Get(ps, "q"));
    ReadBackText(f.kind, "all", Get(ps, "type"));
    ReadBackText(f.category, "all", Get(ps, "category"));
    ReadBackPrice(f.minPrice, f.minPrice > 0, "0", Get(ps, "minPrice"));
    ReadBackPrice(f.maxPrice, f.maxPrice < MaxPrice, "10000000", Get(ps, "maxPrice"));
    ReadBackText(f.beds, "any", Get(ps, "beds"));
  }

  // ---------------------------------------------------------------------
  // The component

  /** The panel's five state variables (the price range as its two ends). */
  class FilterPanel {
    var q: string
    var kind: string
    var category: string
    var minPrice: nat
    var maxPrice: nat
    var beds: string

    function State(): (f: Filters)
      reads this
    {
      Filters(q, kind, category, minPrice, maxPrice, beds)
    }

    /** First render: each `useState` reads its parameter or takes its default. */
    constructor (searchParams: seq<Param>)
      requires PricesWellFormed(searchParams)
      ensures State() == Initial(searchParams)
    {
      q := OrElse(Get(searchParams, "q"), "");
      kind := OrElse(Get(searchParams, "type"), "all");
      category := OrElse(Get(searchParams, "category"), "all");
      minPrice := ParseDecimal(OrElse(Get(searchParams, "minPrice"), "0"));
      maxPrice := ParseDecimal(OrElse(Get(searchParams, "maxPrice"), "10000000"));
      beds := OrElse(Get(searchParams, "beds"), "any");
    }

    /** `applyFilters`: sets one parameter per non-default filter, in order,
        and navigates to the browse page with that query string. */
    method ApplyFilters(encode: string -> string) returns (params: seq<Param>, target: string)
      ensures params == Query(State())
      ensures target == "/browse?" + Serialize(params, encode)
    {
      ghost var f := State();
      ghost var cs := Candidates(f);
      CandidateKeys(f);
      CandidatesAt(f);
      params := [];
      SetNextCandidate(cs, 0);
      if q != "" { params := SetParam(params, "q", q); }
      assert params == EmitUpTo(cs, 1);
      SetNextCandidate(cs, 1);
      if kind != "all" { params := SetParam(params, "type", kind); }
      assert params == EmitUpTo(cs, 2);
      SetNextCandidate(cs, 2);
      if category != "all" { params := SetParam(params, "category", category); }
      assert params == EmitUpTo(cs, 3);
      SetNextCandidate(cs, 3);
      if minPrice > 0 { params := SetParam(params, "minPrice", NatToString(minPrice)); }
      assert params == EmitUpTo(cs, 4);
      SetNextCandidate(cs, 4);
      if maxPrice < MaxPrice { params := SetParam(params, "maxPrice", NatToString(maxPrice)); }
      assert params == EmitUpTo(cs, 5);
      SetNextCandidate(cs, 5);
      if beds != "any" { params := SetParam(params, "beds", beds); }
      assert params == EmitUpTo(cs, 6);
      QueryBuilt(f);
      target := "/browse?" + Serialize(params, encode);
    }

    /** `resetFilters`: every filter back to its default, then to the bare
        browse page. */
    method ResetFilters() returns (target: string)
      modifies this
      ensures State() == Defaults
      ensures target == "/browse"
    {
      q := "";
      kind := "all";
      category := "all";
      minPrice, maxPrice := 0, MaxPrice;
      beds := "any";
      target := "/browse";
    }
  }

  /** After a reset, applying the filters writes an empty query string. */
  method ApplyAfterReset(panel: FilterPanel, encode: string -> string) returns (params: seq<Param>, target: string)
    modifies panel
    ensures panel.State() == Defaults
    ensures params == [] && target == "/browse?"
  {
    var resetTarget := panel.ResetFilters();
    params, target := panel.ApplyFilters(encode);
    DefaultsWriteNothing();
  }
}
