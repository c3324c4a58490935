/** Rows of the `ads` table and the predicate-and-sort queries the pages send
    to the backend data service, with the meaning each predicate has there. */
module Listings {
  import opened Common
  import opened Text

  /** One row of `ads`; the columns the database allows to be NULL are options.
      Timestamps are whole milliseconds. */
  datatype Listing = Listing(
    id: string,
    title: string,
    description: string,
    price: Option<int>,
    status: Option<string>,
    categoryId: string,
    condition: Option<string>,
    city: string,
    createdAt: int,
    isFeatured: Option<bool>,
    viewsCount: Option<int>,
    images: Option<seq<string>>,
    contactPhone: Option<string>)

  const Active := "active"

  /** The columns the pages filter or sort on. */
  datatype Column = Status | Title | Description | CategoryId | Condition | City | Price | CreatedAt | IsFeatured

  datatype Scalar = Str(s: string) | Num(n: int) | Flag(b: bool)

  /** The value stored in a column; `None` is SQL NULL. */
  function Get(ad: Listing, col: Column): Option<Scalar> {
    match col
    case Status => if ad.status.Some? then Some(Str(ad.status.value)) else None
    case Title => Some(Str(ad.title))
    case Description => Some(Str(ad.description))
    case CategoryId => Some(Str(ad.categoryId))
    case Condition => if ad.condition.Some? then Some(Str(ad.condition.value)) else None
    case City => Some(Str(ad.city))
    case Price => if ad.price.Some? then Some(Num(ad.price.value)) else None
    case CreatedAt => Some(Num(ad.createdAt))
    case IsFeatured => if ad.isFeatured.Some? then Some(Flag(ad.isFeatured.value)) else None
  }

  /** The filter calls of the query builder: `.eq`, `.ilike(col, '%text%')`,
      `.or(a,b)`, `.in`, `.gte`, `.lte`. */
  datatype Pred =
    | Eq(col: Column, value: Scalar)
    | ILike(col: Column, text: string)
    | Or(left: Pred, right: Pred)
    | In(col: Column, values: seq<string>)
    | Gte(col: Column, bound: int)
    | Lte(col: Column, bound: int)

  /** Whether a row satisfies a predicate. A comparison with NULL never holds. */
  predicate Holds(p: Pred, ad: Listing) {
    match p
    case Eq(col, v) => Get(ad, col) == Some(v)
    case ILike(col, t) => Get(ad, col).Some? && Get(ad, col).value.Str? && IncludesIgnoringCase(Get(ad, col).value.s, t)
    case Or(l, r) => Holds(l, ad) || Holds(r, ad)
    case In(col, vs) => Get(ad, col).Some? && Get(ad, col).value.Str? && Get(ad, col).value.s in vs
    case Gte(col, b) => Get(ad, col).Some? && Get(ad, col).value.Num? && Get(ad, col).value.n >= b
    case Lte(col, b) => Get(ad, col).Some? && Get(ad, col).value.Num? && Get(ad, col).value.n <= b
  }

  /** `.order(col, { ascending })`. */
  datatype Order = Order(col: Column, ascending: bool)

  /** A select over `ads`: the conjunction of `filters`, an optional ordering
      and an optional `.limit(n)`. */
  datatype Query = Query(filters: seq<Pred>, order: Option<Order>, limit: Option<nat>)

  /** The chained filters are a conjunction. */
  predicate AllHold(ps: seq<Pred>, ad: Listing) {
    forall i :: 0 <= i < |ps| ==> Holds(ps[i], ad)
  }

  predicate Matches(q: Query, ad: Listing) {
    AllHold(q.filters, ad)
  }

  /** Chaining more filters conjoins them. */
  lemma AllHoldAppend(a: seq<Pred>, b: seq<Pred>, ad: Listing)
    ensures AllHold(a + b, ad) <==> AllHold(a, ad) && AllHold(b, ad)
  {
    if AllHold(a, ad) && AllHold(b, ad) {
      forall i | 0 <= i < |a + b| ensures Holds((a + b)[i], ad) {
        if i >= |a| {
          assert (a + b)[i] == b[i - |a|];
        }
      }
    }
    if AllHold(a + b, ad) {
      forall i | 0 <= i < |a| ensures Holds(a[i], ad) {
        assert (a + b)[i] == a[i];
      }
      forall i | 0 <= i < |b| ensures Holds(b[i], ad) {
        assert (a + b)[|a| + i] == b[i];
      }
    }
  }

  /** Lexicographic order on strings by code point. */
  predicate TextLe(a: string, b: string) {
    a == [] || (b != [] && (a[0] < b[0] || (a[0] == b[0] && TextLe(a[1..], b[1..]))))
  }

  /** Ascending order of column values, with NULL after every value
      (PostgreSQL's default: NULLS LAST ascending, NULLS FIRST descending). */
  predicate ValueLe(x: Option<Scalar>, y: Option<Scalar>) {
    match (x, y)
    case (_, None) => true
    case (None, Some(_)) => false
    case (Some(Num(m)), Some(Num(n))) => m <= n
    case (Some(Str(a)), Some(Str(b))) => TextLe(a, b)
    case (Some(Flag(a)), Some(Flag(b))) => !a || b
    case (Some(_), Some(_)) => true
  }

  predicate InOrder(a: Listing, b: Listing, o: Order) {
    if o.ascending then ValueLe(Get(a, o.col), Get(b, o.col)) else ValueLe(Get(b, o.col), Get(a, o.col))
  }

  predicate SortedBy(rows: seq<Listing>, order: Option<Order>) {
    order.Some? ==> forall i, j :: 0 <= i < j < |rows| ==> InOrder(rows[i], rows[j], order.value)
  }

  function Selected(q: Query, table: seq<Listing>): seq<Listing> {
    Seqs.Filter(table, ad => Matches(q, ad))
  }

  /** The selection from a table is the first row when it matches, followed
      by the selection from the remaining rows. */
  lemma SelectedCons(q: Query, ad: Listing, rest: seq<Listing>)
    ensures Selected(q, [ad] + rest) == (if Matches(q, ad) then [ad] else []) + Selected(q, rest)
  {
    assert ([ad] + rest)[0] == ad;
    assert ([ad] + rest)[1..] == rest;
  }

  /** `.limit(n)`: the first `n` rows, or all of them when there are fewer. */
  function Cut(rows: seq<Listing>, limit: Option<nat>): (r: seq<Listing>)
    ensures limit.None? ==> r == rows
    ensures limit.Some? ==> |r| == if limit.value < |rows| then limit.value else |rows|
    ensures r <= rows
  {
    match limit
    case None => rows
    case Some(n) => if n < |rows| then rows[..n] else rows
  }

  /** What the backend may answer: the matching rows, arranged in the requested
      order (ties in any order), cut to the limit. */
  ghost predicate Answers(q: Query, table: seq<Listing>, rows: seq<Listing>) {
    exists arranged: seq<Listing> ::
      && multiset(arranged) == multiset(Selected(q, table))
      && SortedBy(arranged, q.order)
      && rows == Cut(arranged, q.limit)
  }

  /** Without a limit, any arrangement of the selection in the requested order
      is an answer. */
  lemma AnswersUnlimited(q: Query, table: seq<Listing>, rows: seq<Listing>)
    requires q.limit.None?
    requires multiset(rows) == multiset(Selected(q, table))
    requires SortedBy(rows, q.order)
    ensures Answers(q, table, rows)
  {
    assert rows == Cut(rows, q.limit);
  }
}
