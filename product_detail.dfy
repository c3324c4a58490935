/** The listing detail page of src/pages/ProductDetail.tsx: the image
    carousel and the view counter. Its relative age is `TimeAgo.ListingAge`
    and its contact links are those of `Contact`. */
module ProductDetail {
  import opened Common

  /** Division rounded toward zero, the quotient JavaScript's `%` pairs with. */
  function TruncDiv(a: int, n: int): int
    requires n > 0
  {
    if a >= 0 then a / n else -((-a) / n)
  }

  /** JavaScript's `%`: what remains of `a` after the truncated quotient, so it
      has the sign of the dividend. */
  function JsRem(a: int, n: int): (r: int)
    requires n > 0
    ensures a == n * TruncDiv(a, n) + r
    ensures -n < r < n
    ensures a >= 0 ==> 0 <= r
    ensures a <= 0 ==> r <= 0
  {
    if a >= 0 then a % n
    else
      var q := (-a) / n;
      assert -a == n * q + (-a) % n;
      -((-a) % n)
  }

  /** `nextImage`'s index update for a listing with `n` images. */
  function NextIndex(i: int, n: int): int {
    if n > 1 then JsRem(i + 1, n) else i
  }

  /** `prevImage`'s index update for a listing with `n` images. */
  function PrevIndex(i: int, n: int): int {
    if n > 1 then JsRem(i - 1 + n, n) else i
  }

  /** With several images both moves land on an image, even from an index a
      previous listing left beyond the end; with one image or none the index
      stays. */
  lemma MovesStayInRange(i: int, n: int)
    requires i >= 0
    ensures n > 1 ==> 0 <= NextIndex(i, n) < n && 0 <= PrevIndex(i, n) < n
    ensures n <= 1 ==> NextIndex(i, n) == i && PrevIndex(i, n) == i
  {
  }

  lemma MulAtLeast(n: int, q: int)
    requires n > 0 && q >= 1
    ensures n * q >= n
  {
  }

  /** The remainder of a value below twice the divisor: the value itself below
      the divisor, else the value less the divisor. */
  lemma RemBelowTwice(a: int, n: int)
    requires n > 0 && 0 <= a < 2 * n
    ensures JsRem(a, n) == if a < n then a else a - n
  {
    var q, r := a / n, a % n;
    assert a == n * q + r && 0 <= r < n;
    if q < 0 {
      MulAtLeast(n, -q);
      assert false;
    }
    if q >= 2 {
      MulAtLeast(n, q - 1);
      assert false;
    }
    if a < n && q == 1 {
      assert false;
    }
    if a >= n && q == 0 {
      assert false;
    }
  }

  /** On an index inside the list, next moves one image on and wraps from the
      last to the first; prev moves one back and wraps from the first to the
      last. */
  lemma MovesCycle(i: int, n: int)
    requires n > 1 && 0 <= i < n
    ensures NextIndex(i, n) == if i == n - 1 then 0 else i + 1
    ensures PrevIndex(i, n) == if i == 0 then n - 1 else i - 1
  {
    RemBelowTwice(i + 1, n);
    RemBelowTwice(i - 1 + n, n);
  }

  /** Prev undoes next and next undoes prev. */
  lemma MovesInverse(i: int, n: int)
    requires 0 <= i < n
    ensures PrevIndex(NextIndex(i, n), n) == i
    ensures NextIndex(PrevIndex(i, n), n) == i
  {
    if n > 1 {
      MovesCycle(i, n);
      MovesCycle(NextIndex(i, n), n);
      MovesCycle(PrevIndex(i, n), n);
    }
  }

  const Placeholder := "https://images.unsplash.com/photo-1560472354-b33ff0c44a43?w=800&h=600&fit=crop"

  /** `ad.images[index] || placeholder`: an index past the end, or an empty
      URL, shows the placeholder picture. */
  function DisplayedImage(images: seq<string>, index: int): (r: string)
    ensures 0 <= index < |images| && images[index] != "" ==> r == images[index]
    ensures !(0 <= index < |images| && images[index] != "") ==> r == Placeholder
  {
    if 0 <= index < |images| && images[index] != "" then images[index] else Placeholder
  }

  /** The detail page shows one view more than stored, counting the visit it
      is about to record. */
  function DisplayedViews(viewsCount: Option<int>): int {
    (if viewsCount.Some? then viewsCount.value else 0) + 1
  }

  /** The carousel's current image index; `imageCount` is None while no
      listing is loaded. */
  class Carousel {
    var index: int

    constructor ()
      ensures index == 0
    {
      index := 0;
    }

    method Next(imageCount: Option<nat>)
      modifies this
      ensures index == if imageCount.Some? then NextIndex(old(index), imageCount.value) else old(index)
      ensures old(index) >= 0 ==> index >= 0
    {
      if imageCount.Some? && imageCount.value > 1 {
        index := JsRem(index + 1, imageCount.value);
      }
    }

    method Prev(imageCount: Option<nat>)
      modifies this
      ensures index == if imageCount.Some? then PrevIndex(old(index), imageCount.value) else old(index)
      ensures old(index) >= 0 ==> index >= 0
    {
      if imageCount.Some? && imageCount.value > 1 {
        index := JsRem(index - 1 + imageCount.value, imageCount.value);
      }
    }

    /** A thumbnail or dot click selects that image. */
    method Select(k: nat)
      modifies this
      ensures index == k
    {
      index := k;
    }
  }
}
