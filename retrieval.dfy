/** Retrieve-and-rerank (src/tools/retrieval.py): the vector retriever
    proposes passages for a search query, a cross-encoder scores each
    (query, passage) pair, passages scoring strictly above the configured
    threshold are kept, sorted by score from high to low with ties in
    retrieval order, and only their texts are returned. The retriever and
    the cross-encoder are functions given with the dependencies; scores are
    integers here. */
module Retrieval {
  import opened StableSort

  /** A passage as the retriever returns it; only its text is used. */
  datatype RetrievedDoc = RetrievedDoc(pageContent: string, source: string)

  /** `RetrievalConfig`: the number of passages asked of the retriever and
      the score a passage must exceed. */
  datatype RetrievalConfig = RetrievalConfig(retrievalK: nat, rerankerThreshold: int)

  /** The values the application runs with: ten passages, threshold 0. */
  const DefaultConfig: RetrievalConfig := RetrievalConfig(10, 0)

  /** `RetrievalDeps`: the retriever, the cross-encoder's `predict` and the
      configuration. */
  datatype RetrievalDeps = RetrievalDeps(
    retriever: string -> seq<RetrievedDoc>,
    reranker: seq<(string, string)> -> seq<int>,
    config: RetrievalConfig)

  /** The cross-encoder's input: the search query paired with each
      passage, in retrieval order. */
  function RerankerInput(query: string, docs: seq<RetrievedDoc>): (pairs: seq<(string, string)>)
    ensures |pairs| == |docs|
    ensures forall i :: 0 <= i < |docs| ==> pairs[i] == (query, docs[i].pageContent)
  {
    if docs == [] then [] else [(query, docs[0].pageContent)] + RerankerInput(query, docs[1..])
  }

  /** `zip(docs, scores)` stops at the shorter of the two. */
  function Zip(docs: seq<RetrievedDoc>, scores: seq<int>): (pairs: seq<(string, int)>)
    ensures |pairs| == if |docs| < |scores| then |docs| else |scores|
    ensures forall i :: 0 <= i < |pairs| ==> pairs[i] == (docs[i].pageContent, scores[i])
  {
    if docs == [] || scores == [] then []
    else [(docs[0].pageContent, scores[0])] + Zip(docs[1..], scores[1..])
  }

  /** The pairs whose score is strictly above the threshold, in order. */
  function Above(pairs: seq<(string, int)>, threshold: int): (kept: seq<(string, int)>)
    ensures |kept| <= |pairs|
  {
    if pairs == [] then []
    else (if pairs[0].1 > threshold then [pairs[0]] else []) + Above(pairs[1..], threshold)
  }

  function ScoreKey(p: (string, int)): seq<int>
  {
    [p.1]
  }

  function Texts(pairs: seq<(string, int)>): (texts: seq<string>)
    ensures |texts| == |pairs|
  {
    seq(|pairs|, i requires 0 <= i < |pairs| => pairs[i].0)
  }

  /** The cross-encoder's score for each retrieved passage. */
  function Scores(deps: RetrievalDeps, query: string): seq<int>
  {
    deps.reranker(RerankerInput(query, deps.retriever(query)))
  }

  /** The (text, score) pairs `zip` builds from the passages and their
      scores. */
  function Candidates(deps: RetrievalDeps, query: string): seq<(string, int)>
  {
    Zip(deps.retriever(query), Scores(deps, query))
  }

  /** `ranked_docs` after the sort: the passing (text, score) pairs, highest
      score first. */
  function Ranked(deps: RetrievalDeps, query: string): (r: seq<(string, int)>)
    ensures |r| <= |deps.retriever(query)|
    ensures SortedDesc(r, ScoreKey)
  {
    SortDesc(Above(Candidates(deps, query), deps.config.rerankerThreshold), ScoreKey)
  }

  /** `retrieve_and_rerank`: the texts of the ranked passages. */
  function RetrieveAndRerank(deps: RetrievalDeps, query: string): (texts: seq<string>)
    ensures |texts| <= |deps.retriever(query)|
    ensures texts == Texts(Ranked(deps, query))
  {
    Texts(SortDesc(Above(Candidates(deps, query), deps.config.rerankerThreshold), ScoreKey))
  }

  // ---------------------------------------------------------------------
  // The filter

  /** A pair survives the filter exactly when it was among the candidates
      and its score is strictly above the threshold; a score equal to the
      threshold is dropped. */
  lemma {:induction false} AboveMembers(pairs: seq<(string, int)>, threshold: int, p: (string, int))
    ensures p in Above(pairs, threshold) <==> p in pairs && p.1 > threshold
  {
    if pairs != [] {
      AboveMembers(pairs[1..], threshold, p);
      assert pairs == [pairs[0]] + pairs[1..];
    }
  }

  /** Each kept element keeps its multiplicity: as many copies survive as
      there were above-threshold copies. */
  lemma {:induction false} AboveMultiset(pairs: seq<(string, int)>, threshold: int, p: (string, int))
    ensures multiset(Above(pairs, threshold))[p] == if p.1 > threshold then multiset(pairs)[p] else 0
  {
    if pairs != [] {
      AboveMultiset(pairs[1..], threshold, p);
      assert pairs == [pairs[0]] + pairs[1..];
    }
  }

  /** The filter keeps the candidates' order: the survivors with a given
      score are the candidates with that score above the threshold, in
      retrieval order. */
  lemma {:induction false} AboveWithKey(pairs: seq<(string, int)>, threshold: int, s: int)
    requires s > threshold
    ensures WithKey(Above(pairs, threshold), ScoreKey, [s]) == WithKey(pairs, ScoreKey, [s])
  {
    if pairs != [] {
      AboveWithKey(pairs[1..], threshold, s);
      var head := if pairs[0].1 > threshold then [pairs[0]] else [];
      WithKeyAppend(head, Above(pairs[1..], threshold), ScoreKey, [s]);
      if pairs[0].1 <= threshold {
        assert ScoreKey(pairs[0]) != [s];
      }
    }
  }

  // ---------------------------------------------------------------------
  // What retrieve_and_rerank returns

  /** Every returned passage scored strictly above the threshold, and the
      returned passages come highest score first. */
  lemma RankedSortedAndAbove(deps: RetrievalDeps, query: string)
    ensures forall i :: 0 <= i < |Ranked(deps, query)| ==> Ranked(deps, query)[i].1 > deps.config.rerankerThreshold
    ensures forall i, j :: 0 <= i < j < |Ranked(deps, query)| ==> Ranked(deps, query)[i].1 >= Ranked(deps, query)[j].1
  {
    var pairs := Candidates(deps, query);
    var kept := Above(pairs, deps.config.rerankerThreshold);
    var r := Ranked(deps, query);
    forall i | 0 <= i < |r| ensures r[i].1 > deps.config.rerankerThreshold {
      assert r[i] in multiset(kept);
      AboveMembers(pairs, deps.config.rerankerThreshold, r[i]);
    }
    forall i, j | 0 <= i < j < |r| ensures r[i].1 >= r[j].1 {
      assert LexGe(ScoreKey(r[i]), ScoreKey(r[j]));
    }
  }

  /** The ranked pairs are a permutation of the (text, score) pairs of the
      passing candidates: the retrieved passages, each paired with the score
      at its position, kept when the score is above the threshold. */
  lemma RankedIsPermutation(deps: RetrievalDeps, query: string)
    ensures forall p :: multiset(Ranked(deps, query))[p]
              == if p.1 > deps.config.rerankerThreshold then multiset(Candidates(deps, query))[p] else 0
  {
    forall p {
      AboveMultiset(Candidates(deps, query), deps.config.rerankerThreshold, p);
    }
  }

  /** The returned texts are a permutation of the texts of the passing
      candidates. */
  lemma TextsArePermutation(deps: RetrievalDeps, query: string)
    ensures multiset(RetrieveAndRerank(deps, query))
         == multiset(Texts(Above(Candidates(deps, query), deps.config.rerankerThreshold)))
  {
    var kept := Above(Candidates(deps, query), deps.config.rerankerThreshold);
    TextsMultiset(SortDesc(kept, ScoreKey), kept);
  }

  lemma {:induction false} TextsMultiset(a: seq<(string, int)>, b: seq<(string, int)>)
    requires multiset(a) == multiset(b)
    ensures multiset(Texts(a)) == multiset(Texts(b))
    decreases |a|
  {
    if a != [] {
      assert a[0] in multiset(b);
      var k :| 0 <= k < |b| && b[k] == a[0];
      RemoveBoth(a, b, k);
      TextsMultiset(a[1..], b[..k] + b[k + 1..]);
      TextsRemove(a, 0);
      TextsRemove(b, k);
    }
  }

  /** Taking the first element out of one list and an equal element out of
      a permutation of it leaves two permutations. */
  lemma RemoveBoth<T>(a: seq<T>, b: seq<T>, k: nat)
    requires a != [] && k < |b| && b[k] == a[0]
    requires multiset(a) == multiset(b)
    ensures multiset(a[1..]) == multiset(b[..k] + b[k + 1..])
    ensures a[..0] + a[1..] == a[1..]
  {
    RemoveAt(b, k);
    RemoveAt(a, 0);
    assert a[..0] + a[1..] == a[1..];
    assert multiset(a[1..]) == multiset(a) - multiset{a[0]};
    assert multiset(b[..k] + b[k + 1..]) == multiset(b) - multiset{a[0]};
  }

  /** Taking one element out of a list takes one copy out of its multiset. */
  lemma RemoveAt<T>(s: seq<T>, k: nat)
    requires k < |s|
    ensures multiset(s) == multiset(s[..k] + s[k + 1..]) + multiset{s[k]}
  {
    assert s == s[..k] + [s[k]] + s[k + 1..];
  }

  /** Taking one pair out of a list takes its text out of the texts. */
  lemma TextsRemove(b: seq<(string, int)>, k: nat)
    requires k < |b|
    ensures multiset(Texts(b)) == multiset(Texts(b[..k] + b[k + 1..])) + multiset{b[k].0}
  {
    assert Texts(b[..k] + b[k + 1..]) == Texts(b)[..k] + Texts(b)[k + 1..];
    RemoveAt(Texts(b), k);
  }

  /** Passages with equal scores keep their retrieval order: for every
      score, the ranked pairs with that score are the retrieved pairs with
      that score, in the same order. */
  lemma RankedIsStable(deps: RetrievalDeps, query: string, s: int)
    requires s > deps.config.rerankerThreshold
    ensures WithKey(Ranked(deps, query), ScoreKey, [s]) == WithKey(Candidates(deps, query), ScoreKey, [s])
  {
    var kept := Above(Candidates(deps, query), deps.config.rerankerThreshold);
    SortDescStable(kept, ScoreKey, [s]);
    AboveWithKey(Candidates(deps, query), deps.config.rerankerThreshold, s);
  }

  /** No passages, or no passage above the threshold, gives an empty list
      rather than an error. */
  lemma EmptyWhenNothingPasses(deps: RetrievalDeps, query: string)
    requires forall i :: 0 <= i < |deps.retriever(query)| && i < |Scores(deps, query)| ==>
               Scores(deps, query)[i] <= deps.config.rerankerThreshold
    ensures RetrieveAndRerank(deps, query) == []
  {
    var retrieved, scores := deps.retriever(query), Scores(deps, query);
    var pairs := Candidates(deps, query);
    forall i | 0 <= i < |pairs| ensures pairs[i].1 <= deps.config.rerankerThreshold {
      assert i < |retrieved| && i < |scores|;
      assert pairs[i] == (retrieved[i].pageContent, scores[i]);
    }
    AboveNone(pairs, deps.config.rerankerThreshold);
  }

  lemma {:induction false} AboveNone(pairs: seq<(string, int)>, threshold: int)
    requires forall i :: 0 <= i < |pairs| ==> pairs[i].1 <= threshold
    ensures Above(pairs, threshold) == []
  {
    if pairs != [] {
      AboveNone(pairs[1..], threshold);
    }
  }
}
