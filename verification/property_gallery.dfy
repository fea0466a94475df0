/**
 * The image carousel on a property page (components/property/property-gallery.tsx).
 * The list shown is never empty (a stock photo stands in for a listing
 * without images) and a cursor `current` picks the large image; the arrow
 * buttons step it forward and back with wrap-around, a thumbnail click
 * jumps to that image.
 */
module PropertyGallery {

  /** The stock photo shown when a listing has no images. */
  const FallbackImage: string :=
    "https://images.unsplash.com/photo-1564013799919-ab600027ffc6?ixlib=rb-4.0.3&auto=format&fit=crop&w=1200&q=80"

  /** `displayImages`: the listing's own images, or the stock photo alone. */
  function DisplayImages(images: seq<string>): (r: seq<string>)
    ensures |r| > 0
    ensures |images| > 0 ==> r == images
    ensures |images| == 0 ==> r == [FallbackImage]
  {
    if |images| > 0 then images else [FallbackImage]
  }

  /** JavaScript's `%`, which truncates toward zero: the remainder takes the
      sign of the dividend (Dafny's own `%` never returns a negative). */
  function Rem(a: int, n: int): (r: int)
    requires n > 0
    ensures a >= 0 ==> 0 <= r < n && r == a % n
    ensures a < 0 ==> -n < r <= 0 && a == n * -((-a) / n) + r
  {
    if a >= 0 then a % n else -((-a) % n)
  }

  /** `next`: `(prev + 1) % n`. From a valid position it moves one step
      forward and wraps from the last image to the first. */
  function NextIndex(i: int, n: int): (r: int)
    requires n > 0
    ensures i >= -1 ==> 0 <= r < n
    ensures 0 <= i < n ==> r == if i == n - 1 then 0 else i + 1
  {
    Rem(i + 1, n)
  }

  /** `prev`: `(prev - 1 + n) % n`. From a valid position it moves one step
      back and wraps from the first image to the last. */
  function PrevIndex(i: int, n: int): (r: int)
    requires n > 0
    ensures i >= 1 - n ==> 0 <= r < n
    ensures 0 <= i < n ==> r == if i == 0 then n - 1 else i - 1
  {
    Rem(i - 1 + n, n)
  }

  /** Stepping forward then back, or back then forward, returns to the
      starting image. */
  lemma NextPrevInverse(i: int, n: int)
    requires 0 <= i < n
    ensures PrevIndex(NextIndex(i, n), n) == i
    ensures NextIndex(PrevIndex(i, n), n) == i
  {
  }

  /** With a single image both arrows leave the cursor where it is. */
  lemma SingleImageFixed(i: int)
    requires 0 <= i < 1
    ensures NextIndex(i, 1) == i && PrevIndex(i, 1) == i
  {
  }

  /** The gallery component: the list it shows and the cursor into it. */
  class Gallery {
    const displayImages: seq<string>
    var current: int

    /** The cursor always names an image of the list. */
    ghost predicate Valid()
      reads this
    {
      |displayImages| > 0 && 0 <= current < |displayImages|
    }

    /** First render: `useState(0)` over the display list. */
    constructor (images: seq<string>)
      ensures Valid()
      ensures displayImages == DisplayImages(images) && current == 0
    {
      displayImages := DisplayImages(images);
      current := 0;
    }

    /** The right arrow. */
    method Next()
      requires Valid()
      modifies this
      ensures Valid()
      ensures current == NextIndex(old(current), |displayImages|)
    {
      current := Rem(current + 1, |displayImages|);
    }

    /** The left arrow. */
    method Prev()
      requires Valid()
      modifies this
      ensures Valid()
      ensures current == PrevIndex(old(current), |displayImages|)
    {
      current := Rem(current - 1 + |displayImages|, |displayImages|);
    }

    /** A click on the thumbnail at `idx`; thumbnails exist only for the
        images of the list. */
    method SelectThumbnail(idx: int)
      requires Valid() && 0 <= idx < |displayImages|
      modifies this
      ensures Valid() && current == idx
    {
      current := idx;
    }

    /** The large image shown. */
    function Shown(): (src: string)
      reads this
      requires Valid()
      ensures src in displayImages
    {
      displayImages[current]
    }

    /** The arrow buttons are rendered exactly when pressing them would move
        the cursor. */
    function ShowArrows(): (shown: bool)
      reads this
      requires Valid()
      ensures shown <==> NextIndex(current, |displayImages|) != current
      ensures shown <==> PrevIndex(current, |displayImages|) != current
    {
      |displayImages| > 1
    }

    /** The counter `current + 1 / n`: a one-based position within the list. */
    function Counter(): (c: (int, int))
      reads this
      requires Valid()
      ensures 1 <= c.0 <= c.1 && c.1 == |displayImages|
      ensures c.0 - 1 == current
    {
      (current + 1, |displayImages|)
    }

    /** The thumbnail at `idx` carries the highlight ring. */
    predicate Highlighted(idx: int)
      reads this
    {
      current == idx
    }
  }

  /** Exactly one thumbnail is highlighted, the one for the large image. */
  lemma OneThumbnailHighlighted(g: Gallery)
    requires g.Valid()
    ensures (set idx | 0 <= idx < |g.displayImages| && g.Highlighted(idx)) == {g.current}
  {
  }
}
