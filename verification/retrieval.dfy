/** Retrieval post-processing: which vector collections a query consults,
    how their hits are merged, and the stable ascending sort by score. */
module Retrieval {
  import opened Wrappers

  /** One retrieved chunk: its text, the `source` and `type` metadata
      entries when present, and its distance score (lower is closer; only
      the order of scores matters, so they are integers here). */
  datatype Doc = Doc(text: string, source: Option<string>, docType: Option<string>, score: int)

  /** What `query_vectorstore` gives back: a list of hits, `None`, or an
      exception. */
  datatype StoreReply = Hits(docs: seq<Doc>) | NoResult | Raised(msg: string)

  /** The vector store, queried with a collection name, the query and k. */
  type Store = (string, string, int) -> StoreReply

  const DefaultTaxCollection: string := "tax_documents"
  const DefaultPayeCollection: string := "paye_calculations"

  /** `collection_type in ["tax", "both"]`. */
  predicate QueriesTax(collectionType: string) {
    collectionType == "tax" || collectionType == "both"
  }

  /** `collection_type in ["paye", "both"]`. */
  predicate QueriesPaye(collectionType: string) {
    collectionType == "paye" || collectionType == "both"
  }

  /** The hits a reply contributes: a `None` or empty result adds nothing. */
  function HitsOf(reply: StoreReply): seq<Doc> {
    if reply.Hits? then reply.docs else []
  }

  // ---------------------------------------------------------------------
  // Stable sort by score

  predicate SortedByScore(s: seq<Doc>) {
    forall i, j :: 0 <= i < j < |s| ==> s[i].score <= s[j].score
  }

  /** The elements of `s` whose score is `k`, in their order in `s`. */
  function WithScore(s: seq<Doc>, k: int): seq<Doc> {
    if s == [] then []
    else WithScore(s[..|s| - 1], k) + (if s[|s| - 1].score == k then [s[|s| - 1]] else [])
  }

  /** Puts `x` after every element of the sorted `s` whose score is not
      larger, as a stable sort does for the element that came last. */
  function Insert(s: seq<Doc>, x: Doc): (r: seq<Doc>)
    ensures multiset(r) == multiset(s) + multiset{x}
  {
    if s == [] || s[|s| - 1].score <= x.score then s + [x]
    else
      assert s == s[..|s| - 1] + [s[|s| - 1]];
      Insert(s[..|s| - 1], x) + [s[|s| - 1]]
  }

  /** Inserting into a sorted sequence keeps it sorted. */
  lemma {:induction false} InsertSorted(s: seq<Doc>, x: Doc)
    requires SortedByScore(s)
    ensures SortedByScore(Insert(s, x))
    decreases |s|
  {
    if s == [] || s[|s| - 1].score <= x.score {
      forall d | d in multiset(s) ensures d.score <= x.score {
        var i :| 0 <= i < |s| && s[i] == d;
      }
      SortedSnoc(s, x);
    } else {
      var init := s[..|s| - 1];
      var last := s[|s| - 1];
      InsertSorted(init, x);
      forall d | d in multiset(Insert(init, x)) ensures d.score <= last.score {
        assert d in multiset(init) || d == x;
        if d in multiset(init) {
          var i :| 0 <= i < |init| && init[i] == d;
          assert s[i] == d;
        }
      }
      SortedSnoc(Insert(init, x), last);
    }
  }

  lemma SortedSnoc(s: seq<Doc>, last: Doc)
    requires SortedByScore(s)
    requires forall d | d in multiset(s) :: d.score <= last.score
    ensures SortedByScore(s + [last])
  {
    forall i, j | 0 <= i < j < |s| + 1 ensures (s + [last])[i].score <= (s + [last])[j].score {
      if j == |s| { assert s[i] in multiset(s); }
    }
  }

  /** Python's `list.sort(key=score)`: insertion sort, which is stable. */
  function SortByScore(s: seq<Doc>): (r: seq<Doc>)
    ensures SortedByScore(r)
    ensures multiset(r) == multiset(s)
  {
    if s == [] then []
    else
      assert s == s[..|s| - 1] + [s[|s| - 1]];
      var sorted := SortByScore(s[..|s| - 1]);
      InsertSorted(sorted, s[|s| - 1]);
      Insert(sorted, s[|s| - 1])
  }

  lemma {:induction false} WithScoreConcat(a: seq<Doc>, b: seq<Doc>, k: int)
    ensures WithScore(a + b, k) == WithScore(a, k) + WithScore(b, k)
    decreases |b|
  {
    if b == [] {
      assert a + b == a;
    } else {
      var b' := b[..|b| - 1];
      assert (a + b)[..|a + b| - 1] == a + b';
      WithScoreConcat(a, b', k);
    }
  }

  /** Inserting `x` keeps the relative order of the elements of every
      score, and puts `x` after the elements of its own score. */
  lemma {:induction false} InsertKeepsOrder(s: seq<Doc>, x: Doc, k: int)
    ensures WithScore(Insert(s, x), k) == WithScore(s, k) + WithScore([x], k)
    decreases |s|
  {
    if s == [] || s[|s| - 1].score <= x.score {
      WithScoreConcat(s, [x], k);
    } else {
      var init := s[..|s| - 1];
      var last := s[|s| - 1];
      assert s == init + [last];
      assert Insert(s, x) == Insert(init, x) + [last];
      InsertKeepsOrder(init, x, k);
      WithScoreConcat(Insert(init, x), [last], k);
      WithScoreConcat(init, [last], k);
      // `last` scores above `x`, so at most one of them has score `k`.
      WithScoreSingle(x, k);
      WithScoreSingle(last, k);
      SwapEmpty(WithScore(init, k), WithScore([x], k), WithScore([last], k));
    }
  }

  lemma SwapEmpty<T>(a: seq<T>, b: seq<T>, c: seq<T>)
    requires b == [] || c == []
    ensures a + b + c == a + c + b
  {
  }

  lemma WithScoreSingle(d: Doc, k: int)
    ensures WithScore([d], k) == if d.score == k then [d] else []
  {
    assert [d][..0] == [];
  }

  lemma SplitLast<T>(s: seq<T>)
    requires s != []
    ensures s == s[..|s| - 1] + [s[|s| - 1]]
  {
  }

  /** The sort is stable: for every score, the elements with that score
      appear in the output in the order they had in the input. */
  lemma {:induction false} SortIsStable(s: seq<Doc>, k: int)
    ensures WithScore(SortByScore(s), k) == WithScore(s, k)
    decreases |s|
  {
    if s != [] {
      var init := s[..|s| - 1];
      var last := s[|s| - 1];
      SplitLast(s);
      var sorted := SortByScore(init);
      assert SortByScore(s) == Insert(sorted, last);
      SortIsStable(init, k);
      InsertKeepsOrder(sorted, last, k);
      WithScoreConcat(init, [last], k);
    }
  }

  // ---------------------------------------------------------------------
  // retrieve_context

  /** The hits of the collections `collection_type` selects, tax first,
      before sorting; `None` when a query raised. */
  function Collected(store: Store, query: string, collectionType: string, k: int,
                     taxCollection: string, payeCollection: string): (r: Option<seq<Doc>>)
    ensures !QueriesTax(collectionType) && !QueriesPaye(collectionType) ==> r == Some([])
  {
    var tax := if QueriesTax(collectionType) then store(taxCollection, query, k) else NoResult;
    var paye := if QueriesPaye(collectionType) then store(payeCollection, query, k) else NoResult;
    if tax.Raised? || paye.Raised? then None
    else
      assert HitsOf(NoResult) + HitsOf(NoResult) == [];
      Some(HitsOf(tax) + HitsOf(paye))
  }

  /** `retrieve_context`: the selected collections' hits merged, tax hits
      before PAYE hits, stably sorted ascending by score; `[]` on any
      exception. The monolithic `rag.py` and the pipeline class share this
      code. */
  function RetrieveContext(store: Store, query: string, collectionType: string, k: int,
                           taxCollection: string, payeCollection: string): (r: seq<Doc>)
    ensures SortedByScore(r)
    ensures var c := Collected(store, query, collectionType, k, taxCollection, payeCollection);
      && (c.None? ==> r == [])
      && (c.Some? ==> multiset(r) == multiset(c.value))
  {
    match Collected(store, query, collectionType, k, taxCollection, payeCollection)
    case None => []
    case Some(hits) => SortByScore(hits)
  }

  /** Which collections are consulted: only the tax collection for "tax",
      only the PAYE collection for "paye", both for "both", none otherwise;
      and equal scores keep tax-before-PAYE order. */
  lemma RetrievedInOrder(store: Store, query: string, collectionType: string, k: int,
                         taxCollection: string, payeCollection: string, score: int)
    requires Collected(store, query, collectionType, k, taxCollection, payeCollection).Some?
    ensures var tax := if QueriesTax(collectionType) then HitsOf(store(taxCollection, query, k)) else [];
      var paye := if QueriesPaye(collectionType) then HitsOf(store(payeCollection, query, k)) else [];
      WithScore(RetrieveContext(store, query, collectionType, k, taxCollection, payeCollection), score)
        == WithScore(tax, score) + WithScore(paye, score)
  {
    var hits := Collected(store, query, collectionType, k, taxCollection, payeCollection).value;
    SortIsStable(hits, score);
    var tax := if QueriesTax(collectionType) then store(taxCollection, query, k) else NoResult;
    var paye := if QueriesPaye(collectionType) then store(payeCollection, query, k) else NoResult;
    assert hits == HitsOf(tax) + HitsOf(paye);
    WithScoreConcat(HitsOf(tax), HitsOf(paye), score);
  }

  /** `top_k or self.top_k`: an absent or zero `top_k` falls back to the
      instance default. */
  function EffectiveK(topK: Option<int>, default: int): (k: int)
    ensures topK.Some? && topK.value != 0 ==> k == topK.value
    ensures topK.None? || topK.value == 0 ==> k == default
  {
    if topK.Some? && topK.value != 0 then topK.value else default
  }
}
