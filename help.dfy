/** The help centre's question list of src/pages/Help.tsx, narrowed by the
    search box. */
module Help {
  import opened Seqs
  import opened Text

  datatype FaqItem = FaqItem(category: string, question: string, answer: string)

  /** An item matches when its question or its answer contains the query,
      ignoring case. */
  predicate FaqMatches(query: string, item: FaqItem) {
    IncludesIgnoringCase(item.question, query) || IncludesIgnoringCase(item.answer, query)
  }

  /** `filteredFAQ`. */
  function FilteredFaq(items: seq<FaqItem>, query: string): (r: seq<FaqItem>)
    ensures forall it :: it in r <==> it in items && FaqMatches(query, it)
  {
    Filter(items, (it: FaqItem) => FaqMatches(query, it))
  }

  /** The matches are listed in the original order. */
  lemma FilteredInOrder(items: seq<FaqItem>, query: string)
    ensures IsSubsequence(FilteredFaq(items, query), items)
  {
    FilterIsSubsequence(items, (it: FaqItem) => FaqMatches(query, it));
  }

  /** An empty search box shows every item. */
  lemma EmptyQueryKeepsAll(items: seq<FaqItem>)
    ensures FilteredFaq(items, "") == items
  {
    forall i | 0 <= i < |items|
      ensures FaqMatches("", items[i])
    {
      assert StartsWith(LowerStr(items[i].question), LowerStr(""));
    }
    FilterKeepsAll(items, (it: FaqItem) => FaqMatches("", it));
  }

  /** Searching for a query or for its lower-case form shows the same items. */
  lemma LowercasedQuerySame(items: seq<FaqItem>, query: string)
    ensures FilteredFaq(items, LowerStr(query)) == FilteredFaq(items, query)
  {
    LowerStrIdempotent(query);
    FilterCongruent(items, (it: FaqItem) => FaqMatches(LowerStr(query), it), (it: FaqItem) => FaqMatches(query, it));
  }

  /** A longer query never shows more: an item matching `query + more` also
      matches `query`. */
  lemma NarrowingQuery(item: FaqItem, query: string, more: string)
    requires FaqMatches(query + more, item)
    ensures FaqMatches(query, item)
  {
    LowerStrAppend(query, more);
    if IncludesIgnoringCase(item.question, query + more) {
      ContainsPrefix(LowerStr(item.question), LowerStr(query), LowerStr(more));
    } else {
      ContainsPrefix(LowerStr(item.answer), LowerStr(query), LowerStr(more));
    }
  }
}
