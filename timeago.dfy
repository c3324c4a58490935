/** The relative ages the listing cards print ("Hier", "Il y a 3 jours", ...).
    The catalog and detail pages count in days up to months, the recent-listings
    strip in days up to weeks, the category page in hours and days. */
module TimeAgo {
  import opened Text

  const MsPerHour := 1000 * 60 * 60
  const MsPerDay := 1000 * 60 * 60 * 24

  /** `Math.floor((now - then) / unit)` on millisecond timestamps. */
  function Elapsed(nowMs: int, thenMs: int, unit: int): (r: int)
    requires unit > 0
    ensures unit * r <= nowMs - thenMs < unit * (r + 1)
  {
    (nowMs - thenMs) / unit
  }

  /** The age buckets; the counts are as printed. */
  datatype Ago =
    | Today
    | Yesterday
    | Days(n: int)
    | Weeks(n: int)
    | Months(n: int)
    | UnderAnHour
    | Hours(n: int)
    | WholeDays(n: int)

  /** The catalog and detail pages' bucket for an age in whole days. A
      timestamp in the future gives a negative count, printed as days. */
  function ListingAge(days: int): (a: Ago)
    ensures a == Today <==> days == 0
    ensures a == Yesterday <==> days == 1
    ensures a.Days? <==> days < 7 && days != 0 && days != 1
    ensures a.Days? ==> a.n == days
    ensures a.Weeks? <==> 7 <= days < 30
    ensures a.Weeks? ==> 1 <= a.n <= 4 && 7 * a.n <= days < 7 * (a.n + 1)
    ensures a.Months? <==> days >= 30
    ensures a.Months? ==> a.n >= 1 && 30 * a.n <= days < 30 * (a.n + 1)
  {
    if days == 0 then Today
    else if days == 1 then Yesterday
    else if days < 7 then Days(days)
    else if days < 30 then Weeks(days / 7)
    else Months(days / 30)
  }

  /** The recent-listings strip's bucket: like `ListingAge` but with no months,
      so every age of a week or more is counted in weeks. */
  function RecentAge(days: int): (a: Ago)
    ensures !a.Months?
    ensures days < 7 ==> a == ListingAge(days)
    ensures a.Weeks? <==> days >= 7
    ensures a.Weeks? ==> a.n >= 1 && 7 * a.n <= days < 7 * (a.n + 1)
  {
    if days == 0 then Today
    else if days == 1 then Yesterday
    else if days < 7 then Days(days)
    else Weeks(days / 7)
  }

  /** The category page's bucket for an age in whole hours. */
  function CategoryAge(hours: int): (a: Ago)
    ensures a == UnderAnHour <==> hours < 1
    ensures a.Hours? <==> 1 <= hours < 24
    ensures a.Hours? ==> a.n == hours
    ensures a.WholeDays? <==> hours >= 24
    ensures a.WholeDays? ==> a.n >= 1 && 24 * a.n <= hours < 24 * (a.n + 1)
  {
    if hours < 1 then UnderAnHour
    else if hours < 24 then Hours(hours)
    else WholeDays(hours / 24)
  }

  const AgoPrefix := "Il y a "

  /** The French text printed for a bucket. */
  function Render(a: Ago): string {
    match a
    case Today => "Aujourd'hui"
    case Yesterday => "Hier"
    case Days(n) => AgoPrefix + IntToString(n) + " jours"
    case Weeks(n) => AgoPrefix + IntToString(n) + " semaines"
    case Months(n) => AgoPrefix + IntToString(n) + " mois"
    case UnderAnHour => "Il y a moins d'1h"
    case Hours(n) => AgoPrefix + IntToString(n) + "h"
    case WholeDays(n) => AgoPrefix + IntToString(n) + " jour" + (if n > 1 then "s" else "")
  }

  /** The catalog card's text for a listing created at `createdMs`. */
  function ListingAgeText(nowMs: int, createdMs: int): string {
    Render(ListingAge(Elapsed(nowMs, createdMs, MsPerDay)))
  }

  function RecentAgeText(nowMs: int, createdMs: int): string {
    Render(RecentAge(Elapsed(nowMs, createdMs, MsPerDay)))
  }

  function CategoryAgeText(nowMs: int, createdMs: int): string {
    Render(CategoryAge(Elapsed(nowMs, createdMs, MsPerHour)))
  }

  /** The category page writes "jour" in the plural exactly when the count
      exceeds one. */
  lemma DayPlural(n: int)
    ensures var r := Render(WholeDays(n)); (r[|r| - 1] == 's') <==> n > 1
  {
    var digits := IntToString(n);
    if n >= 0 {
      assert digits == NatToString(n);
      assert IsDigit(digits[|digits| - 1]);
    }
  }

  /** The count printed in a days, weeks or months text reads back as the
      bucket's count. */
  lemma {:induction false} RenderedCount(a: Ago)
    requires a.Days? || a.Weeks? || a.Months?
    requires a.n >= 0
    ensures var r := Render(a); var unit := if a.Days? then " jours" else if a.Weeks? then " semaines" else " mois";
      && |r| >= |AgoPrefix| + |unit|
      && r[..|AgoPrefix|] == AgoPrefix
      && r[|r| - |unit|..] == unit
      && (forall i :: |AgoPrefix| <= i < |r| - |unit| ==> IsDigit(r[i]))
      && ParseNat(r[|AgoPrefix|..|r| - |unit|]) == a.n
  {
    var unit := if a.Days? then " jours" else if a.Weeks? then " semaines" else " mois";
    var digits := NatToString(a.n);
    assert IntToString(a.n) == digits;
    var r := AgoPrefix + digits + unit;
    assert Render(a) == r;
    assert r[|AgoPrefix|..|r| - |unit|] == digits;
    NatToStringRoundTrip(a.n);
  }
}
