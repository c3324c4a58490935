/** The catalog page of src/pages/AllProducts.tsx: its filter state, the ads
    query `fetchData` compiles from it, and the URL parameters it keeps in step. */
module Catalog {
  import opened Common
  import opened Seqs
  import opened Text
  import opened Listings
  import PostAd

  /** The page's filter state (search text, category id, sort key, price slider,
      condition checkboxes, city text). */
  datatype Filters = Filters(
    searchTerm: string,
    category: string,
    sortBy: string,
    priceLo: int,
    priceHi: int,
    conditions: seq<string>,
    location: string)

  /** The initial price slider range. */
  const PriceMin := 0
  const PriceMax := 10000000

  const DefaultSort := "created_at"

  /** `.or('title.ilike.%t%,description.ilike.%t%')`. */
  function TextSearch(term: string): Pred {
    Or(ILike(Title, term), ILike(Description, term))
  }

  /** The ordering clause chosen by the sort key. */
  function SortOrder(sortBy: string): Option<Order> {
    if sortBy == "price_asc" then Some(Order(Price, true))
    else if sortBy == "price_desc" then Some(Order(Price, false))
    else if sortBy == "created_at" then Some(Order(CreatedAt, false))
    else if sortBy == "title" then Some(Order(Title, true))
    else None
  }

  function Optional(present: bool, p: Pred): seq<Pred> {
    if present then [p] else []
  }

  /** The query `fetchData` sends for filter state `f`. */
  function AdsQuery(f: Filters): Query {
    Query(
      [Eq(Status, Str(Active))]
        + Optional(f.searchTerm != "", TextSearch(f.searchTerm))
        + Optional(f.category != "", Eq(CategoryId, Str(f.category)))
        + Optional(|f.conditions| > 0, In(Condition, f.conditions))
        + Optional(f.location != "", ILike(City, f.location))
        + [Gte(Price, f.priceLo), Lte(Price, f.priceHi)],
      SortOrder(f.sortBy),
      None)
  }

  /** Which listings the filter state admits, stated column by column: an
      active listing whose title or description contains the search text, in
      the chosen category, with one of the checked conditions, whose city
      contains the city text, and with a price inside the inclusive range.
      An unset field puts no constraint. */
  predicate Admits(f: Filters, ad: Listing) {
    && ad.status == Some(Active)
    && (f.searchTerm == "" || IncludesIgnoringCase(ad.title, f.searchTerm) || IncludesIgnoringCase(ad.description, f.searchTerm))
    && (f.category == "" || ad.categoryId == f.category)
    && (f.conditions == [] || (ad.condition.Some? && ad.condition.value in f.conditions))
    && (f.location == "" || IncludesIgnoringCase(ad.city, f.location))
    && ad.price.Some? && f.priceLo <= ad.price.value <= f.priceHi
  }

  /** An optional filter constrains only when it is present. */
  lemma AllHoldOptional(present: bool, p: Pred, ad: Listing)
    ensures AllHold(Optional(present, p), ad) <==> (present ==> Holds(p, ad))
  {
    if present {
      assert Optional(present, p)[0] == p;
    }
  }

  lemma AllHoldPair(p: Pred, r: Pred, ad: Listing)
    ensures AllHold([p, r], ad) <==> Holds(p, ad) && Holds(r, ad)
  {
    assert [p, r][0] == p && [p, r][1] == r;
  }

  /** The first four pieces of the query: status, search text, category. */
  lemma LeadingPieces(f: Filters, ad: Listing)
    ensures AllHold([Eq(Status, Str(Active))], ad) <==> ad.status == Some(Active)
    ensures AllHold(Optional(f.searchTerm != "", TextSearch(f.searchTerm)), ad) <==>
      f.searchTerm == "" || IncludesIgnoringCase(ad.title, f.searchTerm) || IncludesIgnoringCase(ad.description, f.searchTerm)
    ensures AllHold(Optional(f.category != "", Eq(CategoryId, Str(f.category))), ad) <==>
      f.category == "" || ad.categoryId == f.category
  {
    assert [Eq(Status, Str(Active))][0] == Eq(Status, Str(Active));
    AllHoldOptional(f.searchTerm != "", TextSearch(f.searchTerm), ad);
    AllHoldOptional(f.category != "", Eq(CategoryId, Str(f.category)), ad);
  }

  /** The trailing pieces of the query: conditions, city, price range. */
  lemma TrailingPieces(f: Filters, ad: Listing)
    ensures AllHold(Optional(|f.conditions| > 0, In(Condition, f.conditions)), ad) <==>
      f.conditions == [] || (ad.condition.Some? && ad.condition.value in f.conditions)
    ensures AllHold(Optional(f.location != "", ILike(City, f.location)), ad) <==>
      f.location == "" || IncludesIgnoringCase(ad.city, f.location)
    ensures AllHold([Gte(Price, f.priceLo), Lte(Price, f.priceHi)], ad) <==>
      ad.price.Some? && f.priceLo <= ad.price.value <= f.priceHi
  {
    AllHoldOptional(|f.conditions| > 0, In(Condition, f.conditions), ad);
    AllHoldOptional(f.location != "", ILike(City, f.location), ad);
    AllHoldPair(Gte(Price, f.priceLo), Lte(Price, f.priceHi), ad);
  }

  /** The compiled query selects exactly the listings the filter state admits. */
  lemma QueryMeansAdmits(f: Filters, ad: Listing)
    ensures Matches(AdsQuery(f), ad) <==> Admits(f, ad)
  {
    var s0 := [Eq(Status, Str(Active))];
    var s1 := Optional(f.searchTerm != "", TextSearch(f.searchTerm));
    var s2 := Optional(f.category != "", Eq(CategoryId, Str(f.category)));
    var s3 := Optional(|f.conditions| > 0, In(Condition, f.conditions));
    var s4 := Optional(f.location != "", ILike(City, f.location));
    var s5 := [Gte(Price, f.priceLo), Lte(Price, f.priceHi)];
    assert AdsQuery(f).filters == s0 + s1 + s2 + s3 + s4 + s5;
    LeadingPieces(f, ad);
    TrailingPieces(f, ad);
    AllHoldAppend(s0, s1, ad);
    AllHoldAppend(s0 + s1, s2, ad);
    AllHoldAppend(s0 + s1 + s2, s3, ad);
    AllHoldAppend(s0 + s1 + s2 + s3, s4, ad);
    AllHoldAppend(s0 + s1 + s2 + s3 + s4, s5, ad);
  }

  /** The predicates of the query, one by one: the status equality, each
      optional predicate whose field is set, and the two price bounds. */
  lemma FilterMembers(f: Filters, p: Pred)
    ensures p in AdsQuery(f).filters <==>
      || p == Eq(Status, Str(Active))
      || (f.searchTerm != "" && p == TextSearch(f.searchTerm))
      || (f.category != "" && p == Eq(CategoryId, Str(f.category)))
      || (|f.conditions| > 0 && p == In(Condition, f.conditions))
      || (f.location != "" && p == ILike(City, f.location))
      || p == Gte(Price, f.priceLo)
      || p == Lte(Price, f.priceHi)
  {
    var s0 := [Eq(Status, Str(Active))];
    var s1 := Optional(f.searchTerm != "", TextSearch(f.searchTerm));
    var s2 := Optional(f.category != "", Eq(CategoryId, Str(f.category)));
    var s3 := Optional(|f.conditions| > 0, In(Condition, f.conditions));
    var s4 := Optional(f.location != "", ILike(City, f.location));
    var s5 := [Gte(Price, f.priceLo), Lte(Price, f.priceHi)];
    var a := s0 + s1;
    var b := a + s2;
    var c := b + s3;
    var d := c + s4;
    assert AdsQuery(f).filters == d + s5;
    assert p in a <==> p in s0 || p in s1;
    assert p in b <==> p in a || p in s2;
    assert p in c <==> p in b || p in s3;
    assert p in d <==> p in c || p in s4;
    assert p in d + s5 <==> p in d || p in s5;
  }

  /** Whatever the filter state, the first predicate is `status = 'active'` and
      every selected listing is active. */
  lemma AlwaysActive(f: Filters, ad: Listing)
    ensures AdsQuery(f).filters[0] == Eq(Status, Str(Active))
    ensures Matches(AdsQuery(f), ad) ==> ad.status == Some(Active)
  {
    QueryMeansAdmits(f, ad);
  }

  /** How many times `p` occurs in `ps`. */
  function Occurrences(ps: seq<Pred>, p: Pred): nat {
    if ps == [] then 0 else (if ps[0] == p then 1 else 0) + Occurrences(ps[1..], p)
  }

  /** Occurrences add up over a concatenation. */
  lemma {:induction false} OccurrencesAppend(a: seq<Pred>, b: seq<Pred>, p: Pred)
    ensures Occurrences(a + b, p) == Occurrences(a, p) + Occurrences(b, p)
  {
    if a == [] {
      assert a + b == b;
    } else {
      assert (a + b)[1..] == a[1..] + b;
      OccurrencesAppend(a[1..], b, p);
    }
  }

  /** Occurrences are the multiplicity in the list's multiset. */
  lemma {:induction false} OccurrencesCount(ps: seq<Pred>, p: Pred)
    ensures Occurrences(ps, p) == multiset(ps)[p]
  {
    if ps != [] {
      assert ps == [ps[0]] + ps[1..];
      assert multiset(ps) == multiset([ps[0]]) + multiset(ps[1..]);
      OccurrencesCount(ps[1..], p);
    }
  }

  /** An optional piece holds its predicate once when present, else nothing. */
  lemma OptionalOccurrences(present: bool, p: Pred, x: Pred)
    ensures Occurrences(Optional(present, p), x) == if present && p == x then 1 else 0
  {
    if present {
      assert [p][1..] == [];
    }
  }

  /** The status and price pieces hold no OR predicate. */
  lemma FixedPiecesHaveNoOr(f: Filters, x: Pred)
    requires x.Or?
    ensures Occurrences([Eq(Status, Str(Active))], x) == 0
    ensures Occurrences([Gte(Price, f.priceLo), Lte(Price, f.priceHi)], x) == 0
  {
    assert [Eq(Status, Str(Active))][1..] == [];
    var s5 := [Gte(Price, f.priceLo), Lte(Price, f.priceHi)];
    assert s5[1..] == [Lte(Price, f.priceHi)] && s5[1..][1..] == [];
  }

  /** Occurrences add up over the six pieces of a query's predicate list. */
  lemma OccurrencesPieces(s0: seq<Pred>, s1: seq<Pred>, s2: seq<Pred>, s3: seq<Pred>, s4: seq<Pred>, s5: seq<Pred>, t: Pred)
    ensures Occurrences(s0 + s1 + s2 + s3 + s4 + s5, t)
      == Occurrences(s0, t) + Occurrences(s1, t) + Occurrences(s2, t) + Occurrences(s3, t) + Occurrences(s4, t) + Occurrences(s5, t)
  {
    OccurrencesAppend(s0, s1, t);
    OccurrencesAppend(s0 + s1, s2, t);
    OccurrencesAppend(s0 + s1 + s2, s3, t);
    OccurrencesAppend(s0 + s1 + s2 + s3, s4, t);
    OccurrencesAppend(s0 + s1 + s2 + s3 + s4, s5, t);
  }

  /** The search predicate occurs once when the search text is set, else not
      at all. */
  lemma SearchCount(f: Filters)
    ensures multiset(AdsQuery(f).filters)[TextSearch(f.searchTerm)] == if f.searchTerm != "" then 1 else 0
  {
    var t := TextSearch(f.searchTerm);
    FixedPiecesHaveNoOr(f, t);
    OptionalOccurrences(f.searchTerm != "", t, t);
    OptionalOccurrences(f.category != "", Eq(CategoryId, Str(f.category)), t);
    OptionalOccurrences(|f.conditions| > 0, In(Condition, f.conditions), t);
    OptionalOccurrences(f.location != "", ILike(City, f.location), t);
    OccurrencesPieces([Eq(Status, Str(Active))],
                      Optional(f.searchTerm != "", t),
                      Optional(f.category != "", Eq(CategoryId, Str(f.category))),
                      Optional(|f.conditions| > 0, In(Condition, f.conditions)),
                      Optional(f.location != "", ILike(City, f.location)),
                      [Gte(Price, f.priceLo), Lte(Price, f.priceHi)], t);
    OccurrencesCount(AdsQuery(f).filters, t);
  }

  /** A non-empty search text adds exactly one predicate, the OR over title and
      description; an empty one adds none. No other predicate is an OR. */
  lemma SearchPredicate(f: Filters)
    ensures multiset(AdsQuery(f).filters)[TextSearch(f.searchTerm)] == if f.searchTerm != "" then 1 else 0
    ensures forall p :: p in AdsQuery(f).filters && p.Or? ==> p == TextSearch(f.searchTerm) && f.searchTerm != ""
  {
    SearchCount(f);
    forall p | p in AdsQuery(f).filters && p.Or?
      ensures p == TextSearch(f.searchTerm) && f.searchTerm != ""
    {
      FilterMembers(f, p);
    }
  }

  /** The category, condition and city predicates appear exactly when their
      field is set; an empty condition list adds no IN predicate (so it never
      matches nothing), and the only substring predicate besides the search is
      on the city column. */
  lemma OptionalPredicates(f: Filters)
    ensures (exists p :: p in AdsQuery(f).filters && p.Eq? && p.col == CategoryId) <==> f.category != ""
    ensures (exists p :: p in AdsQuery(f).filters && p.In?) <==> |f.conditions| > 0
    ensures forall p :: p in AdsQuery(f).filters && p.In? ==> p == In(Condition, f.conditions)
    ensures forall p :: p in AdsQuery(f).filters && p.ILike? ==> p == ILike(City, f.location) && f.location != ""
    ensures (ILike(City, f.location) in AdsQuery(f).filters) <==> f.location != ""
  {
    var q := AdsQuery(f);
    forall p | p in q.filters
      ensures (p.Eq? && p.col == CategoryId) ==> p == Eq(CategoryId, Str(f.category)) && f.category != ""
      ensures p.In? ==> p == In(Condition, f.conditions) && |f.conditions| > 0
      ensures p.ILike? ==> p == ILike(City, f.location) && f.location != ""
    {
      FilterMembers(f, p);
    }
    FilterMembers(f, Eq(CategoryId, Str(f.category)));
    FilterMembers(f, In(Condition, f.conditions));
    FilterMembers(f, ILike(City, f.location));
  }

  /** Both price bounds are always applied and both are inclusive. */
  lemma PriceBounds(f: Filters, ad: Listing)
    ensures Gte(Price, f.priceLo) in AdsQuery(f).filters && Lte(Price, f.priceHi) in AdsQuery(f).filters
    ensures Matches(AdsQuery(f), ad) ==> ad.price.Some? && f.priceLo <= ad.price.value <= f.priceHi
    ensures Admits(f.(priceLo := PriceMin, priceHi := PriceMax), ad) ==> ad.price.Some?
  {
    QueryMeansAdmits(f, ad);
  }

  /** The page does not normalise a reversed price range: one whose lower end
      exceeds its upper end selects nothing. */
  lemma ReversedRangeSelectsNothing(f: Filters, ad: Listing)
    requires f.priceLo > f.priceHi
    ensures !Matches(AdsQuery(f), ad)
  {
    QueryMeansAdmits(f, ad);
  }

  /** The sort keys the page offers map to their ordering clauses; any other
      value gives no ordering clause. */
  lemma SortClauses(sortBy: string)
    ensures SortOrder("price_asc") == Some(Order(Price, true))
    ensures SortOrder("price_desc") == Some(Order(Price, false))
    ensures SortOrder("created_at") == Some(Order(CreatedAt, false))
    ensures SortOrder("title") == Some(Order(Title, true))
    ensures SortOrder(sortBy).Some? <==> sortBy in ["price_asc", "price_desc", "created_at", "title"]
  {
  }

  /** An active phone listing in the "phones" category at the given price. */
  function PhoneAd(id: string, price: int): Listing {
    Listing(id, "Phone", "", Some(price), Some(Active), "phones", None, "Dakar", 0, Some(false), Some(0), None, None)
  }

  function PhoneFixture(): seq<Listing> {
    [PhoneAd("a", 90000), PhoneAd("b", 150000), PhoneAd("c", 500000), PhoneAd("d", 600000)]
  }

  function PhoneFilters(): Filters {
    Filters("", "phones", "price_asc", 100000, 500000, [], "")
  }

  /** A fixture listing matches the phone query exactly when its price is in
      the range. */
  lemma PhoneAdMatches(id: string, price: int)
    ensures Matches(AdsQuery(PhoneFilters()), PhoneAd(id, price)) <==> 100000 <= price <= 500000
  {
    QueryMeansAdmits(PhoneFilters(), PhoneAd(id, price));
  }

  /** Of four rows of which only the middle two match, the selection is
      those two, in order. */
  lemma SelectedMiddleTwo(q: Query, a: Listing, b: Listing, c: Listing, d: Listing)
    requires !Matches(q, a) && Matches(q, b) && Matches(q, c) && !Matches(q, d)
    ensures Selected(q, [a, b, c, d]) == [b, c]
  {
    SelectedCons(q, d, []);
    SelectedCons(q, c, [d]);
    SelectedCons(q, b, [c, d]);
    SelectedCons(q, a, [b, c, d]);
    assert [d] == [d] + [];
    assert [c, d] == [c] + [d];
    assert [b, c, d] == [b] + [c, d];
    assert [a, b, c, d] == [a] + [b, c, d];
  }

  /** Of the fixture, the phone query selects the 150000 and 500000 listings. */
  lemma PhoneSelection()
    ensures Selected(AdsQuery(PhoneFilters()), PhoneFixture()) == [PhoneAd("b", 150000), PhoneAd("c", 500000)]
  {
    PhoneAdMatches("a", 90000);
    PhoneAdMatches("b", 150000);
    PhoneAdMatches("c", 500000);
    PhoneAdMatches("d", 600000);
    SelectedMiddleTwo(AdsQuery(PhoneFilters()), PhoneAd("a", 90000), PhoneAd("b", 150000), PhoneAd("c", 500000), PhoneAd("d", 600000));
  }

  /** The only ascending-price arrangement of the two selected listings. */
  lemma PhoneArrangement(arranged: seq<Listing>)
    requires multiset(arranged) == multiset([PhoneAd("b", 150000), PhoneAd("c", 500000)])
    requires SortedBy(arranged, Some(Order(Price, true)))
    ensures arranged == [PhoneAd("b", 150000), PhoneAd("c", 500000)]
  {
    var b, c := PhoneAd("b", 150000), PhoneAd("c", 500000);
    assert |arranged| == |[b, c]|;
    assert arranged == [arranged[0], arranged[1]];
    assert multiset(arranged) == multiset([arranged[0]]) + multiset([arranged[1]]);
    assert InOrder(arranged[0], arranged[1], Order(Price, true));
  }

  lemma PhoneQueryShape()
    ensures AdsQuery(PhoneFilters()).limit == None
    ensures AdsQuery(PhoneFilters()).order == Some(Order(Price, true))
  {
  }

  lemma PhoneSorted()
    ensures SortedBy([PhoneAd("b", 150000), PhoneAd("c", 500000)], Some(Order(Price, true)))
  {
    assert InOrder(PhoneAd("b", 150000), PhoneAd("c", 500000), Order(Price, true));
  }

  /** The backend may answer the phone query with the two listings by price. */
  lemma PhoneAnswer()
    ensures Answers(AdsQuery(PhoneFilters()), PhoneFixture(), [PhoneAd("b", 150000), PhoneAd("c", 500000)])
  {
    var expected := [PhoneAd("b", 150000), PhoneAd("c", 500000)];
    PhoneSelection();
    PhoneQueryShape();
    PhoneSorted();
    AnswersUnlimited(AdsQuery(PhoneFilters()), PhoneFixture(), expected);
  }

  /** Phones between 100000 and 500000 by ascending price: of the four fixture
      listings, the backend answers exactly the 150000 and 500000 ones, in that
      order. */
  lemma PhoneScenario(rows: seq<Listing>)
    requires Answers(AdsQuery(PhoneFilters()), PhoneFixture(), rows)
    ensures rows == [PhoneAd("b", 150000), PhoneAd("c", 500000)]
  {
    var q := AdsQuery(PhoneFilters());
    PhoneSelection();
    PhoneQueryShape();
    var arranged :| multiset(arranged) == multiset(Selected(q, PhoneFixture())) && SortedBy(arranged, q.order) && rows == arranged;
    PhoneArrangement(arranged);
  }

  /** `fetchData`'s query building, one builder call after another. */
  method BuildAdsQuery(f: Filters) returns (q: Query)
    ensures q == AdsQuery(f)
  {
    var filters := [Eq(Status, Str(Active))];
    if f.searchTerm != "" {
      filters := filters + [TextSearch(f.searchTerm)];
    }
    assert filters == [Eq(Status, Str(Active))] + Optional(f.searchTerm != "", TextSearch(f.searchTerm));
    ghost var s1 := filters;
    if f.category != "" {
      filters := filters + [Eq(CategoryId, Str(f.category))];
    }
    assert filters == s1 + Optional(f.category != "", Eq(CategoryId, Str(f.category)));
    ghost var s2 := filters;
    if |f.conditions| > 0 {
      filters := filters + [In(Condition, f.conditions)];
    }
    assert filters == s2 + Optional(|f.conditions| > 0, In(Condition, f.conditions));
    ghost var s3 := filters;
    if f.location != "" {
      filters := filters + [ILike(City, f.location)];
    }
    assert filters == s3 + Optional(f.location != "", ILike(City, f.location));
    ghost var s4 := filters;
    filters := filters + [Gte(Price, f.priceLo)];
    filters := filters + [Lte(Price, f.priceHi)];
    assert filters == s4 + [Gte(Price, f.priceLo), Lte(Price, f.priceHi)];
    assert filters == AdsQuery(f).filters;
    var order: Option<Order> := None;
    if f.sortBy == "price_asc" {
      order := Some(Order(Price, true));
    } else if f.sortBy == "price_desc" {
      order := Some(Order(Price, false));
    } else if f.sortBy == "created_at" {
      order := Some(Order(CreatedAt, false));
    } else if f.sortBy == "title" {
      order := Some(Order(Title, true));
    }
    assert order == SortOrder(f.sortBy);
    q := Query(filters, order, None);
  }

  /** `searchParams.get(key) || default`. */
  function ParamOr(params: map<string, string>, key: string, default: string): string {
    if key in params && params[key] != "" then params[key] else default
  }

  /** `updateSearchParams(key, value)`'s effect: set the key when the value is
      non-empty, delete it otherwise. */
  function WithParam(params: map<string, string>, key: string, value: string): map<string, string> {
    if value != "" then params[key := value] else params - {key}
  }

  /** Only the named key changes; it is present exactly when the value is
      non-empty, and then it holds that value. */
  lemma WithParamSpec(params: map<string, string>, key: string, value: string)
    ensures (key in WithParam(params, key, value)) <==> value != ""
    ensures value != "" ==> WithParam(params, key, value)[key] == value
    ensures forall k :: k != key ==> (k in WithParam(params, key, value) <==> k in params)
    ensures forall k :: k != key && k in params ==> WithParam(params, key, value)[k] == params[k]
  {
  }

  /** The page's initial filter state read from the URL: `q`, `category` and
      `sort` with defaults '', '' and 'created_at'; the rest take their fixed
      initial values. */
  function InitialFilters(params: map<string, string>): Filters {
    Filters(ParamOr(params, "q", ""), ParamOr(params, "category", ""), ParamOr(params, "sort", DefaultSort),
            PriceMin, PriceMax, [], "")
  }

  /** Writing the search text, category and sort key to the URL and reading the
      page back from it restores all three, an empty sort key canonicalising to
      'created_at'. */
  lemma UrlRoundTrip(params: map<string, string>, term: string, category: string, sortBy: string)
    ensures var p := WithParam(WithParam(WithParam(params, "q", term), "category", category), "sort", sortBy);
      && InitialFilters(p).searchTerm == term
      && InitialFilters(p).category == category
      && InitialFilters(p).sortBy == (if sortBy == "" then DefaultSort else sortBy)
  {
  }

  /** The condition checkbox handler: checking appends the condition, unchecking
      filters out every occurrence of it. */
  function CheckedConditions(selected: seq<string>, condition: string, checked: bool): seq<string> {
    if checked then selected + [condition] else Remove(selected, condition)
  }

  /** Checking adds the condition at the end; unchecking removes all its
      occurrences and keeps the others in order. */
  lemma ConditionToggle(selected: seq<string>, condition: string)
    ensures CheckedConditions(selected, condition, true)[..|selected|] == selected
    ensures CheckedConditions(selected, condition, true)[|selected|] == condition
    ensures condition !in CheckedConditions(selected, condition, false)
    ensures forall c :: c != condition ==> (c in CheckedConditions(selected, condition, false) <==> c in selected)
    ensures IsSubsequence(CheckedConditions(selected, condition, false), selected)
  {
    RemoveIsSubsequence(selected, condition);
  }

  /** The labels of the condition checkboxes; as written, a checked box puts
      its label itself into the condition filter. */
  const ConditionBoxes := ["Neuf", "Comme neuf", "Bon état", "État moyen"]

  /** The condition values stored by the post form and by the edit form. */
  const StoredConditions := PostAd.ConditionChoices + ["nouveau", "comme_neuf", "bon_etat", "etat_correct", "pour_pieces"]

  /** As written, once any box is checked no listing whose condition one of
      the forms stored is selected: no label is a stored value. */
  lemma CheckedLabelsMatchNothing(f: Filters, ad: Listing)
    requires |f.conditions| > 0
    requires forall i :: 0 <= i < |f.conditions| ==> f.conditions[i] in ConditionBoxes
    requires ad.condition.None? || ad.condition.value in StoredConditions
    ensures !Matches(AdsQuery(f), ad)
  {
    QueryMeansAdmits(f, ad);
  }

  /** The stored value a checkbox stands for: the post form's value with the
      same meaning. */
  function ConditionCode(box: string): (code: string)
    ensures box in ConditionBoxes ==> code in PostAd.ConditionChoices && code in StoredConditions
    ensures box !in ConditionBoxes ==> code == box
  {
    if box == "Neuf" then "new"
    else if box == "Comme neuf" then "like-new"
    else if box == "Bon état" then "good"
    else if box == "État moyen" then "fair"
    else box
  }

  /** Distinct boxes stand for distinct stored values. */
  lemma ConditionCodeInjective(a: string, b: string)
    requires a in ConditionBoxes && b in ConditionBoxes && a != b
    ensures ConditionCode(a) != ConditionCode(b)
  {
  }

  /** With the codes in the filter, checking a box keeps the listings stored
      with that box's condition: the condition filter does not exclude them. */
  lemma CheckedCodeSelects(f: Filters, box: string, ad: Listing)
    requires box in ConditionBoxes
    requires ConditionCode(box) in f.conditions
    requires ad.condition == Some(ConditionCode(box))
    ensures Matches(AdsQuery(f), ad) <==> Matches(AdsQuery(f.(conditions := [])), ad)
  {
    QueryMeansAdmits(f, ad);
    QueryMeansAdmits(f.(conditions := []), ad);
  }

  /** The catalog page's state: its URL parameters and filter fields. */
  class CatalogView {
    var params: map<string, string>
    var searchTerm: string
    var selectedCategory: string
    var sortBy: string
    var priceLo: int
    var priceHi: int
    var selectedCondition: seq<string>
    var selectedLocation: string

    function CurrentFilters(): Filters
      reads this
    {
      Filters(searchTerm, selectedCategory, sortBy, priceLo, priceHi, selectedCondition, selectedLocation)
    }

    /** The page mounts with its state read from the URL. */
    constructor (urlParams: map<string, string>)
      ensures params == urlParams
      ensures CurrentFilters() == InitialFilters(urlParams)
    {
      params := urlParams;
      searchTerm := ParamOr(urlParams, "q", "");
      selectedCategory := ParamOr(urlParams, "category", "");
      sortBy := ParamOr(urlParams, "sort", DefaultSort);
      priceLo, priceHi := PriceMin, PriceMax;
      selectedCondition := [];
      selectedLocation := "";
    }

    method UpdateSearchParams(key: string, value: string)
      modifies this`params
      ensures params == WithParam(old(params), key, value)
    {
      if value != "" {
        params := params[key := value];
      } else {
        params := params - {key};
      }
    }

    /** Typing in the search box changes the filter but not the URL. */
    method SetSearchTerm(value: string)
      modifies this`searchTerm
      ensures searchTerm == value
    {
      searchTerm := value;
    }

    /** `handleSearch`: submitting writes the search text to `q`. */
    method SubmitSearch()
      modifies this`params
      ensures params == WithParam(old(params), "q", searchTerm)
    {
      UpdateSearchParams("q", searchTerm);
    }

    method SelectCategory(value: string)
      modifies this`selectedCategory, this`params
      ensures selectedCategory == value && params == WithParam(old(params), "category", value)
    {
      selectedCategory := value;
      UpdateSearchParams("category", value);
    }

    method SelectSort(value: string)
      modifies this`sortBy, this`params
      ensures sortBy == value && params == WithParam(old(params), "sort", value)
    {
      sortBy := value;
      UpdateSearchParams("sort", value);
    }

    /** The slider, the city text and the checkboxes are not written to the URL. */
    method SetPriceRange(lo: int, hi: int)
      modifies this`priceLo, this`priceHi
      ensures priceLo == lo && priceHi == hi
    {
      priceLo, priceHi := lo, hi;
    }

    method SetLocation(value: string)
      modifies this`selectedLocation
      ensures selectedLocation == value
    {
      selectedLocation := value;
    }

    /** A condition checkbox toggled; the filter holds the stored value the
        box stands for. */
    method CheckCondition(box: string, checked: bool)
      modifies this`selectedCondition
      ensures selectedCondition == CheckedConditions(old(selectedCondition), ConditionCode(box), checked)
    {
      var code := ConditionCode(box);
      if checked {
        selectedCondition := selectedCondition + [code];
      } else {
        selectedCondition := Remove(selectedCondition, code);
      }
    }

    /** The query `fetchData` issues for the current state. */
    method FetchQuery() returns (q: Query)
      ensures q == AdsQuery(CurrentFilters())
      ensures forall ad :: Matches(q, ad) <==> Admits(CurrentFilters(), ad)
    {
      q := BuildAdsQuery(CurrentFilters());
      forall ad ensures Matches(q, ad) <==> Admits(CurrentFilters(), ad) {
        QueryMeansAdmits(CurrentFilters(), ad);
      }
    }
  }
}
