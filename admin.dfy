/** The moderation page of src/pages/Admin.tsx: its figures and the status
    badge, colour and buttons of each recent listing. */
module Admin {
  import opened Common
  import opened Listings
  import opened AdStats

  const Pending := "pending"
  const Rejected := "rejected"

  /** `activeAds`: the active rows among the fetched statuses, 0 when the read
      gave no rows. */
  function ActiveAds(rows: Option<seq<Listing>>): (r: nat)
    ensures rows.None? ==> r == 0
    ensures rows.Some? ==> r <= |rows.value|
    ensures rows.Some? ==> (r == |rows.value| <==> forall i :: 0 <= i < |rows.value| ==> IsActive(rows.value[i]))
  {
    if rows.None? then 0
    else
      AllActiveIff(rows.value);
      CountActive(rows.value)
  }

  /** The "Vues totales" card: the views of the recent listings, a missing
      count adding nothing. */
  function TotalViews(recent: seq<Listing>): (r: int)
    ensures (forall i :: 0 <= i < |recent| ==> ViewsOf(recent[i]) >= 0) ==> r >= 0
  {
    SumViews(recent)
  }

  /** A recent listing's views add to the total. */
  lemma TotalViewsAddsUp(recent: seq<Listing>, ad: Listing)
    ensures TotalViews(recent + [ad]) == TotalViews(recent) + ViewsOf(ad)
  {
    SumViewsAppend(recent, [ad]);
    assert SumViews([ad]) == SumViews([]) + ViewsOf(ad);
  }

  datatype Colour = Green | Yellow | Red | Gray

  /** `getStatusColor`: a NULL status falls to the default. */
  function StatusColor(status: Option<string>): (c: Colour)
    ensures c == Green <==> status == Some(Active)
    ensures c == Yellow <==> status == Some(Pending)
    ensures c == Red <==> status == Some(Rejected)
  {
    if status == Some(Active) then Green
    else if status == Some(Pending) then Yellow
    else if status == Some(Rejected) then Red
    else Gray
  }

  /** The status badge's text: any status but active and pending reads
      "Rejetée". */
  function StatusBadge(status: Option<string>): (r: string)
    ensures r == "Active" <==> status == Some(Active)
    ensures r == "En attente" <==> status == Some(Pending)
    ensures r == "Rejetée" <==> status != Some(Active) && status != Some(Pending)
  {
    if status == Some(Active) then "Active" else if status == Some(Pending) then "En attente" else "Rejetée"
  }

  /** The badge text and its colour agree, except that an unknown or NULL
      status reads "Rejetée" in gray. */
  lemma BadgeMatchesColour(status: Option<string>)
    ensures StatusBadge(status) == "Active" <==> StatusColor(status) == Green
    ensures StatusBadge(status) == "En attente" <==> StatusColor(status) == Yellow
    ensures StatusBadge(status) == "Rejetée" <==> StatusColor(status) in {Red, Gray}
  {
  }

  datatype Moderation = Approve | Reject

  /** The moderation buttons shown on a row. */
  function ModerationButtons(status: Option<string>): (r: seq<Moderation>)
    ensures |r| == 1
    ensures r == [Approve] <==> status != Some(Active)
    ensures r == [Reject] <==> status == Some(Active)
  {
    var r := (if status != Some(Active) then [Approve] else []) + (if status == Some(Active) then [Reject] else []);
    assert [Approve] != [Reject] by {
      assert [Approve][0] != [Reject][0];
    }
    r
  }

  /** The status `updateAdStatus` writes for a button. */
  function TargetStatus(m: Moderation): string {
    match m
    case Approve => Active
    case Reject => Rejected
  }

  /** Once a button's write is reloaded the row offers the other button, and
      its badge reads "Active" exactly after an approval. */
  lemma ModerationFlips(status: Option<string>)
    ensures var m := ModerationButtons(status)[0];
      && ModerationButtons(Some(TargetStatus(m)))[0] != m
      && (StatusBadge(Some(TargetStatus(m))) == "Active" <==> m == Approve)
  {
  }
}
