/** The seller dashboard of src/pages/Dashboard.tsx: the seller's listings
    and the figures shown above them. */
module Dashboard {
  import opened Common
  import opened Seqs
  import opened Listings
  import opened AdStats

  datatype Stats = Stats(total: nat, active: nat, views: int)

  /** The figures `loadUserAds` computes from the fetched listings. */
  function StatsOf(ads: seq<Listing>): (s: Stats)
    ensures s.total == |ads| && s.active <= s.total
    ensures s.active == s.total <==> forall i :: 0 <= i < |ads| ==> IsActive(ads[i])
    ensures (forall i :: 0 <= i < |ads| ==> ViewsOf(ads[i]) >= 0) ==> s.views >= 0
  {
    AllActiveIff(ads);
    Stats(|ads|, CountActive(ads), SumViews(ads))
  }

  /** A card's badge: "Active" for an active listing, "Inactive" otherwise. */
  function DashboardBadge(status: Option<string>): (r: string)
    ensures r == "Active" <==> status == Some(Active)
    ensures r == "Active" || r == "Inactive"
  {
    if status == Some(Active) then "Active" else "Inactive"
  }

  /** `prev.filter(ad => ad.id !== adId)`. */
  function Deleted(ads: seq<Listing>, adId: string): (r: seq<Listing>)
    ensures forall ad :: ad in r <==> ad in ads && ad.id != adId
  {
    Filter(ads, (ad: Listing) => ad.id != adId)
  }

  /** Deleting keeps the other listings in order and leaves a list without
      the id unchanged. */
  lemma DeletedSpec(ads: seq<Listing>, adId: string)
    ensures IsSubsequence(Deleted(ads, adId), ads)
    ensures (forall i :: 0 <= i < |ads| ==> ads[i].id != adId) ==> Deleted(ads, adId) == ads
    ensures (exists i :: 0 <= i < |ads| && ads[i].id == adId) ==> |Deleted(ads, adId)| < |ads|
  {
    FilterIsSubsequence(ads, (ad: Listing) => ad.id != adId);
    if forall i :: 0 <= i < |ads| ==> ads[i].id != adId {
      FilterKeepsAll(ads, (ad: Listing) => ad.id != adId);
    } else {
      var k :| 0 <= k < |ads| && ads[k].id == adId;
      FilterShorter(ads, (ad: Listing) => ad.id != adId, k);
    }
  }

  /** Listing ids are primary keys: no two fetched rows share one. */
  predicate DistinctIds(ads: seq<Listing>) {
    forall i, j :: 0 <= i < j < |ads| ==> ads[i].id != ads[j].id
  }

  /** After deleting a listing the page still shows the figures of the list
      before the deletion: its total is too large, by exactly one when the
      ids are distinct, as primary keys are. */
  lemma DeleteLeavesStatsStale(ads: seq<Listing>, adId: string)
    requires exists i :: 0 <= i < |ads| && ads[i].id == adId
    ensures StatsOf(Deleted(ads, adId)).total < StatsOf(ads).total
    ensures DistinctIds(ads) ==> StatsOf(Deleted(ads, adId)).total + 1 == StatsOf(ads).total
  {
    DeletedSpec(ads, adId);
    if DistinctIds(ads) {
      var k :| 0 <= k < |ads| && ads[k].id == adId;
      forall i | 0 <= i < |ads| && i != k
        ensures ads[i].id != adId
      {
        if i < k { assert ads[i].id != ads[k].id; } else { assert ads[k].id != ads[i].id; }
      }
      FilterDropsOne(ads, (ad: Listing) => ad.id != adId, k);
    }
  }

  class DashboardPage {
    var ads: seq<Listing>
    var stats: Stats
    var isLoading: bool

    constructor ()
      ensures ads == [] && stats == Stats(0, 0, 0) && isLoading
    {
      ads, stats, isLoading := [], Stats(0, 0, 0), true;
    }

    /** `loadUserAds()`; `fetched` is the read of the seller's listings, newest
        first (None on error). Without a user nothing happens. */
    method LoadUserAds(user: Option<string>, fetched: Option<seq<Listing>>)
      modifies this
      ensures user.None? ==> ads == old(ads) && stats == old(stats) && isLoading == old(isLoading)
      ensures user.Some? && fetched.Some? ==> ads == fetched.value && stats == StatsOf(fetched.value)
      ensures user.Some? && fetched.None? ==> ads == old(ads) && stats == old(stats)
      ensures user.Some? ==> !isLoading
      ensures user.Some? && fetched.Some? ==> stats.active <= stats.total == |ads|
    {
      if user.None? {
        return;
      }
      if fetched.Some? {
        ads := fetched.value;
        stats := StatsOf(ads);
      }
      isLoading := false;
    }

    /** `deleteAd(adId)`; `outcome` is the remote delete's result. The figures
        are not recomputed. */
    method DeleteAd(adId: string, outcome: Outcome)
      modifies this`ads
      ensures outcome == Ok ==> ads == Deleted(old(ads), adId)
      ensures outcome == Err ==> ads == old(ads)
      ensures stats == old(stats)
    {
      if outcome == Ok {
        ads := Deleted(ads, adId);
      }
    }
  }
}
