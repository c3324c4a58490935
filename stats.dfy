/** The reductions the seller dashboard and the moderation page compute over
    fetched listings. */
module AdStats {
  import opened Common
  import opened Seqs
  import opened Listings

  predicate IsActive(ad: Listing) {
    ad.status == Some(Active)
  }

  /** `ads.filter(ad => ad.status === 'active').length`. */
  function CountActive(ads: seq<Listing>): (r: nat)
    ensures r <= |ads|
  {
    |Filter(ads, IsActive)|
  }

  /** Every listing is active exactly when all of them count as active. */
  lemma AllActiveIff(ads: seq<Listing>)
    ensures CountActive(ads) == |ads| <==> forall i :: 0 <= i < |ads| ==> IsActive(ads[i])
  {
    if forall i :: 0 <= i < |ads| ==> IsActive(ads[i]) {
      FilterKeepsAll(ads, IsActive);
    } else {
      var k :| 0 <= k < |ads| && !IsActive(ads[k]);
      FilterShorter(ads, IsActive, k);
    }
  }

  /** Counting splits over concatenation. */
  lemma CountActiveAppend(a: seq<Listing>, b: seq<Listing>)
    ensures CountActive(a + b) == CountActive(a) + CountActive(b)
  {
    FilterAppend(a, b, IsActive);
  }

  /** `(views_count || 0)`: a missing count shows as zero. */
  function ViewsOf(ad: Listing): int {
    ad.viewsCount.GetOr(0)
  }

  /** `ads.reduce((sum, ad) => sum + (ad.views_count || 0), 0)`. */
  function SumViews(ads: seq<Listing>): (r: int)
    ensures (forall i :: 0 <= i < |ads| ==> ViewsOf(ads[i]) >= 0) ==> r >= 0
  {
    if ads == [] then 0 else SumViews(ads[..|ads| - 1]) + ViewsOf(ads[|ads| - 1])
  }

  /** Summing splits over concatenation. */
  lemma {:induction false} SumViewsAppend(a: seq<Listing>, b: seq<Listing>)
    ensures SumViews(a + b) == SumViews(a) + SumViews(b)
    decreases |b|
  {
    if b != [] {
      assert (a + b)[..|a + b| - 1] == a + b[..|b| - 1];
      SumViewsAppend(a, b[..|b| - 1]);
    } else {
      assert a + b == a;
    }
  }

  /** Listings without a view count add nothing. */
  lemma {:induction false} SumViewsOfUncounted(ads: seq<Listing>)
    requires forall i :: 0 <= i < |ads| ==> ads[i].viewsCount.None?
    ensures SumViews(ads) == 0
  {
    if ads != [] {
      SumViewsOfUncounted(ads[..|ads| - 1]);
    }
  }
}
