/**
 * The score-threshold retriever that `createRetriever` installs in place of
 * the vector store's own `getRelevantDocuments`: the query is embedded, the
 * index is asked for its 3 nearest hits, the hits scoring at least 0.78 are
 * kept in the index's order, and their documents are returned without the
 * scores.
 */
module ScoreThresholdRetriever {
  import opened Wrappers
  import opened Documents

  /** Least relevance score a hit needs to be kept; the bound is inclusive. */
  const MinScore: real := 0.78

  /** The optional metadata filter `createRetriever` accepts (and never uses). */
  type MetadataFilter = map<string, MetaValue>

  predicate Relevant(hit: Scored) {
    hit.score >= MinScore
  }

  /** The `filter` step: the hits that reach the threshold, in order. */
  function FilterRelevant(results: seq<Scored>): seq<Scored>
  {
    if results == [] then []
    else if Relevant(results[0]) then [results[0]] + FilterRelevant(results[1..])
    else FilterRelevant(results[1..])
  }

  /** What the retriever returns when the index answered `results`. */
  function RelevantDocuments(results: seq<Scored>): seq<Document>
  {
    StripScores(FilterRelevant(results))
  }


  // ---------------------------------------------------------------------
  // An independent description of the result: the positions of the
  // passing hits.
  // ---------------------------------------------------------------------

  /**
   * The positions j in [lo, |results|) whose hits reach the threshold, in
   * increasing order: every listed position passes, the list is strictly
   * increasing, and no passing position is missing.
   */
  function PassingFrom(results: seq<Scored>, lo: nat): (idx: seq<nat>)
    requires lo <= |results|
    ensures forall k :: 0 <= k < |idx| ==> lo <= idx[k] < |results| && Relevant(results[idx[k]])
    ensures forall k, l :: 0 <= k < l < |idx| ==> idx[k] < idx[l]
    ensures forall j :: lo <= j < |results| && Relevant(results[j]) ==> j in idx
    decreases |results| - lo
  {
    if lo == |results| then []
    else if Relevant(results[lo]) then [lo] + PassingFrom(results, lo + 1)
    else PassingFrom(results, lo + 1)
  }

  /** The documents of the hits at positions `idx`, in that order. */
  function DocsAt(results: seq<Scored>, idx: seq<nat>): seq<Document>
    requires forall k :: 0 <= k < |idx| ==> idx[k] < |results|
  {
    seq(|idx|, k requires 0 <= k < |idx| => results[idx[k]].doc)
  }

  lemma StripScoresCons(hit: Scored, hits: seq<Scored>)
    ensures StripScores([hit] + hits) == [hit.doc] + StripScores(hits)
  {
    assert |StripScores([hit] + hits)| == 1 + |hits|;
    forall i | 0 <= i < 1 + |hits|
      ensures StripScores([hit] + hits)[i] == ([hit.doc] + StripScores(hits))[i]
    {
      if i > 0 {
        assert ([hit] + hits)[i] == hits[i - 1];
      }
    }
  }

  lemma DocsAtCons(results: seq<Scored>, j: nat, idx: seq<nat>)
    requires j < |results|
    requires forall k :: 0 <= k < |idx| ==> idx[k] < |results|
    ensures forall k :: 0 <= k < |[j] + idx| ==> ([j] + idx)[k] < |results|
    ensures DocsAt(results, [j] + idx) == [results[j].doc] + DocsAt(results, idx)
  {
    var all := [j] + idx;
    assert forall k :: 0 <= k < |all| ==> all[k] < |results| by {
      forall k | 0 <= k < |all| ensures all[k] < |results| {
        if k > 0 { assert all[k] == idx[k - 1]; }
      }
    }
    forall k | 0 <= k < |all|
      ensures DocsAt(results, all)[k] == ([results[j].doc] + DocsAt(results, idx))[k]
    {
      if k > 0 { assert all[k] == idx[k - 1]; }
    }
  }

  lemma {:induction false} RelevantDocumentsFrom(results: seq<Scored>, lo: nat)
    requires lo <= |results|
    ensures RelevantDocuments(results[lo..]) == DocsAt(results, PassingFrom(results, lo))
    decreases |results| - lo
  {
    if lo == |results| {
      assert results[lo..] == [];
    } else {
      RelevantDocumentsFrom(results, lo + 1);
      var s := results[lo..];
      assert s[0] == results[lo] && s[1..] == results[lo + 1..];
      var kept := FilterRelevant(results[lo + 1..]);
      var rest := PassingFrom(results, lo + 1);
      if Relevant(results[lo]) {
        assert FilterRelevant(s) == [results[lo]] + kept;
        StripScoresCons(results[lo], kept);
        DocsAtCons(results, lo, rest);
      } else {
        assert FilterRelevant(s) == kept;
      }
    }
  }

  /**
   * The retriever returns exactly the documents of the passing hits, in the
   * index's order: a subsequence of the index's answer, with every hit whose
   * score is at least 0.78 present and every other hit absent.
   */
  lemma RelevantDocumentsArePassingHits(results: seq<Scored>)
    ensures RelevantDocuments(results) == DocsAt(results, PassingFrom(results, 0))
  {
    RelevantDocumentsFrom(results, 0);
    assert results[0..] == results;
  }

  /**
   * `createRetriever(vectorStore, filter)`: the retriever, as a function of
   * the query. For every query it returns exactly the documents of the hits
   * scoring at least 0.78 among the index's k = 3 nearest to the embedded
   * query, in the index's order; `filter` plays no part.
   */
  function CreateRetriever(search: SimilaritySearch, embed: Embedder, filter: Option<MetadataFilter>)
    : (retriever: string -> seq<Document>)
    ensures forall query ::
      var hits := search(embed(query), SearchK);
      retriever(query) == DocsAt(hits, PassingFrom(hits, 0))
  {
    assert forall query :: var hits := search(embed(query), SearchK);
      RelevantDocuments(hits) == DocsAt(hits, PassingFrom(hits, 0)) by {
      forall query ensures var hits := search(embed(query), SearchK);
        RelevantDocuments(hits) == DocsAt(hits, PassingFrom(hits, 0)) {
        RelevantDocumentsArePassingHits(search(embed(query), SearchK));
      }
    }
    query => RelevantDocuments(search(embed(query), SearchK))
  }

  /** Every returned document comes from a hit scoring at least 0.78. */
  lemma KeptDocumentsReachThreshold(results: seq<Scored>)
    ensures forall d :: d in RelevantDocuments(results) ==>
      exists j :: 0 <= j < |results| && results[j].doc == d && results[j].score >= MinScore
  {
    RelevantDocumentsArePassingHits(results);
    var idx := PassingFrom(results, 0);
    var docs := RelevantDocuments(results);
    forall d | d in docs
      ensures exists j :: 0 <= j < |results| && results[j].doc == d && results[j].score >= MinScore
    {
      var i :| 0 <= i < |docs| && docs[i] == d;
      var j := idx[i];
      assert 0 <= j < |results| && Relevant(results[j]);
      assert results[j].doc == d;
    }
  }

  /** No hit that reaches the threshold (0.78 included) is dropped. */
  lemma NoRelevantHitDropped(results: seq<Scored>)
    ensures forall j :: 0 <= j < |results| && results[j].score >= MinScore ==> results[j].doc in RelevantDocuments(results)
  {
    RelevantDocumentsArePassingHits(results);
    var idx := PassingFrom(results, 0);
    forall j | 0 <= j < |results| && results[j].score >= MinScore
      ensures results[j].doc in RelevantDocuments(results)
    {
      assert Relevant(results[j]);
      var k :| 0 <= k < |idx| && idx[k] == j;
      assert RelevantDocuments(results)[k] == results[j].doc;
    }
  }

  /** Filtering never adds hits. */
  lemma {:induction false} FilterShrinks(results: seq<Scored>)
    ensures |FilterRelevant(results)| <= |results|
  {
    if results != [] {
      FilterShrinks(results[1..]);
    }
  }

  /** With an index that honours k, the retriever returns at most 3 documents. */
  lemma RetrieverReturnsAtMostThree(search: SimilaritySearch, embed: Embedder, filter: Option<MetadataFilter>, query: string)
    requires HonoursK(search)
    ensures |CreateRetriever(search, embed, filter)(query)| <= |search(embed(query), SearchK)| <= 3
  {
    FilterShrinks(search(embed(query), SearchK));
  }

  /** The metadata filter given to `createRetriever` has no effect. */
  lemma FilterArgumentIgnored(search: SimilaritySearch, embed: Embedder, f: Option<MetadataFilter>, g: Option<MetadataFilter>, query: string)
    ensures CreateRetriever(search, embed, f)(query) == CreateRetriever(search, embed, g)(query)
  {
  }

  /** The threshold is inclusive: a hit scoring exactly 0.78 is kept, one scoring less is not. */
  lemma ThresholdIsInclusive(d: Document, s: real)
    ensures RelevantDocuments([Scored(d, 0.78)]) == [d]
    ensures s < 0.78 ==> RelevantDocuments([Scored(d, s)]) == []
  {
    assert [Scored(d, 0.78)][1..] == [];
    assert FilterRelevant([Scored(d, 0.78)]) == [Scored(d, 0.78)];
    assert StripScores([Scored(d, 0.78)]) == [d];
    assert [Scored(d, s)][1..] == [];
  }
}
