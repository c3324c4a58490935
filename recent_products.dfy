/** The recent-listings strip of src/components/RecentProducts.tsx: its
    query, its contact buttons and its view counter. Its relative age is
    `TimeAgo.RecentAge`. */
module RecentProducts {
  import opened Common
  import opened Seqs
  import opened Listings
  import opened Contact
  import ProductDetail

  const RecentLimit := 8

  /** Active, non-featured listings, newest first, at most eight. */
  function RecentAdsQuery(): Query {
    Query([Eq(Status, Str(Active)), Eq(IsFeatured, Flag(false))], Some(Order(CreatedAt, false)), Some(RecentLimit))
  }

  /** The strip selects the active listings explicitly marked not featured (a
      NULL flag is excluded), newest first, at most eight. */
  lemma RecentQueryMeaning(ad: Listing)
    ensures Matches(RecentAdsQuery(), ad) <==> ad.status == Some(Active) && ad.isFeatured == Some(false)
    ensures RecentAdsQuery().order == Some(Order(CreatedAt, false))
    ensures RecentAdsQuery().limit == Some(8)
  {
    var ps := RecentAdsQuery().filters;
    assert ps[0] == Eq(Status, Str(Active)) && ps[1] == Eq(IsFeatured, Flag(false));
  }

  /** Whatever the backend answers holds at most eight listings, each active
      and not featured. */
  lemma RecentAnswer(table: seq<Listing>, rows: seq<Listing>)
    requires Answers(RecentAdsQuery(), table, rows)
    ensures |rows| <= RecentLimit
    ensures forall ad :: ad in rows ==> ad.status == Some(Active) && ad.isFeatured == Some(false)
  {
    var q := RecentAdsQuery();
    var arranged :| multiset(arranged) == multiset(Selected(q, table)) && SortedBy(arranged, q.order) && rows == Cut(arranged, q.limit);
    forall ad | ad in rows
      ensures ad.status == Some(Active) && ad.isFeatured == Some(false)
    {
      assert ad in arranged;
      assert ad in multiset(Selected(q, table));
      assert ad in Selected(q, table);
      RecentQueryMeaning(ad);
    }
  }

  datatype ContactKind = WhatsApp | Phone | Email

  /** The address `handleContact` opens; `encodedMessage` is the URL-encoded
      greeting sent along on WhatsApp. */
  function ContactUrl(kind: ContactKind, contact: string, encodedMessage: string): (r: string)
    ensures kind == WhatsApp ==> WhatsAppLink(contact) <= r && r[|WhatsAppLink(contact)|..] == "?text=" + encodedMessage
    ensures kind == Phone ==> r == TelLink(contact)
    ensures kind == Email ==> "mailto:" <= r && r[|"mailto:"|..] == contact
  {
    match kind
    case WhatsApp => WhatsAppLink(contact) + "?text=" + encodedMessage
    case Phone => TelLink(contact)
    case Email => "mailto:" + contact
  }

  /** The WhatsApp and phone buttons reach the same number, the one the detail
      page dials. */
  lemma ContactSameNumber(contact: string, encodedMessage: string)
    ensures ContactUrl(WhatsApp, contact, encodedMessage)[|WhatsAppBase|..|WhatsAppBase| + |DialNumber(contact)|] == DialNumber(contact)
    ensures ContactUrl(Phone, contact, encodedMessage)[|TelBase|..] == DialNumber(contact)
  {
  }

  /** A card's view counter: the stored count, zero when there is none. */
  function RecentViews(viewsCount: Option<int>): int {
    viewsCount.GetOr(0)
  }

  /** The detail page shows one view more than the card for the same listing. */
  lemma DetailShowsOneMore(viewsCount: Option<int>)
    ensures ProductDetail.DisplayedViews(viewsCount) == RecentViews(viewsCount) + 1
  {
  }
}
