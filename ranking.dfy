/**
 * Reciprocal Rank Fusion of a vector-search list and a BM25 list (my-ai-app/lib/ai/utils/ranking.ts).
 * Scores are exact rationals (`real`), not IEEE doubles.
 */
module Ranking {
  import opened Wrappers
  import opened Documents

  const RRF_K: nat := 60
  const FINAL_TOP_K: nat := 5

  /** One value of the score map: the document kept for a key and its accumulated score. */
  datatype RrfResult = RrfResult(key: string, doc: Document, score: real)

  /** The contribution of one hit at 1-based `rank`. */
  function RankScore(rank: nat): real
  {
    1.0 / ((RRF_K + rank) as real)
  }

  // ---------------------------------------------------------------------------------------------
  // The score map. A JavaScript `Map` iterates in insertion order, so it is modelled as a
  // sequence of entries in that order.

  /** The keys present in the map. */
  function Keys(t: seq<RrfResult>): set<string>
  {
    set e | e in t :: e.key
  }

  /** `rrfScores.get(key)`, as the position of the entry. */
  function Lookup(t: seq<RrfResult>, key: string): (r: Option<nat>)
    ensures r.Some? ==> r.value < |t| && t[r.value].key == key
    ensures r.None? <==> key !in Keys(t)
  {
    if t == [] then None
    else if t[0].key == key then Some(0)
    else
      assert forall e :: e in t ==> e == t[0] || e in t[1..];
      match Lookup(t[1..], key)
      case Some(i) => Some(i + 1)
      case None => None
  }

  /** One hit: add `score` to the existing entry for `key`, or insert a new entry with `doc`. */
  function Hit(t: seq<RrfResult>, key: string, doc: Document, score: real): seq<RrfResult>
  {
    match Lookup(t, key)
    case Some(i) => t[i := t[i].(score := t[i].score + score)]
    case None => t + [RrfResult(key, doc, score)]
  }

  /** The map after hits for every document of `docs`, at ranks 1, 2, ... in order. */
  function Accumulate(t: seq<RrfResult>, docs: seq<Document>): seq<RrfResult>
    decreases |docs|
  {
    if docs == [] then t
    else
      var n := |docs|;
      Hit(Accumulate(t, docs[..n - 1]), FusionKey(docs[n - 1]), docs[n - 1], RankScore(n))
  }

  /** One more hit, at the rank of the next document. */
  lemma AccumulateStep(t: seq<RrfResult>, docs: seq<Document>, i: nat)
    requires i < |docs|
    ensures Accumulate(t, docs[..i + 1]) == Hit(Accumulate(t, docs[..i]), FusionKey(docs[i]), docs[i], RankScore(i + 1))
  {
    assert docs[..i + 1][..i] == docs[..i];
  }

  /** The map after the vector loop and then the BM25 loop. */
  function ScoreTable(vectorResults: seq<Document>, bm25Results: seq<Document>): seq<RrfResult>
  {
    Accumulate(Accumulate([], vectorResults), bm25Results)
  }

  // ---------------------------------------------------------------------------------------------
  // `Array.prototype.sort` with comparator `b.score - a.score` is stable, so its result is the
  // stable sort by descending score; an insertion sort computes exactly that order.

  /** Insert `e` after every entry whose score is at least its own. */
  function InsertByScore(e: RrfResult, s: seq<RrfResult>): (r: seq<RrfResult>)
    ensures multiset(r) == multiset(s) + multiset{e}
  {
    if s == [] then [e]
    else if s[0].score >= e.score then
      assert s == [s[0]] + s[1..];
      [s[0]] + InsertByScore(e, s[1..])
    else [e] + s
  }

  function SortByScore(t: seq<RrfResult>): (r: seq<RrfResult>)
    ensures multiset(r) == multiset(t)
    decreases |t|
  {
    if t == [] then []
    else
      var n := |t|;
      assert t == t[..n - 1] + [t[n - 1]];
      InsertByScore(t[n - 1], SortByScore(t[..n - 1]))
  }

  function Docs(t: seq<RrfResult>): (docs: seq<Document>)
    ensures |docs| == |t|
    ensures forall i :: 0 <= i < |t| ==> docs[i] == t[i].doc
  {
    if t == [] then [] else [t[0].doc] + Docs(t[1..])
  }

  function Min(a: nat, b: nat): nat
  {
    if a <= b then a else b
  }

  /** The fused list: the documents of the best `FINAL_TOP_K` entries in stable score order. */
  function Fused(vectorResults: seq<Document>, bm25Results: seq<Document>): (fused: seq<Document>)
    ensures |fused| <= FINAL_TOP_K
    ensures vectorResults == [] && bm25Results == [] ==> fused == []
  {
    var sorted := SortByScore(ScoreTable(vectorResults, bm25Results));
    Docs(sorted[..Min(FINAL_TOP_K, |sorted|)])
  }

  /** The body of either loop: `rrfScores.set(key, ...)` on an existing entry or a new one. */
  method ApplyHit(rrfScores: seq<RrfResult>, key: string, doc: Document, score: real) returns (updated: seq<RrfResult>)
    ensures updated == Hit(rrfScores, key, doc, score)
  {
    var existing := Lookup(rrfScores, key);
    if existing.Some? {
      var j := existing.value;
      updated := rrfScores[j := rrfScores[j].(score := rrfScores[j].score + score)];
    } else {
      updated := rrfScores + [RrfResult(key, doc, score)];
    }
  }

  /** One of the two loops: a hit for each document of `results` at its 1-based rank, updating the map in place. */
  method AddRankedHits(rrfScores: seq<RrfResult>, results: seq<Document>) returns (updated: seq<RrfResult>)
    ensures updated == Accumulate(rrfScores, results)
  {
    updated := rrfScores;
    var i := 0;
    while i < |results|
      invariant 0 <= i <= |results|
      invariant updated == Accumulate(rrfScores, results[..i])
    {
      var doc := results[i];
      var rank := i + 1;
      var score := RankScore(rank);
      var key := FusionKey(doc);
      updated := ApplyHit(updated, key, doc, score);
      AccumulateStep(rrfScores, results, i);
      i := i + 1;
    }
    assert results[..i] == results;
  }

  /** `reciprocalRankFusion`: the vector pass and the BM25 pass over one map, then sort, slice and map. */
  method ReciprocalRankFusion(vectorResults: seq<Document>, bm25Results: seq<Document>)
    returns (fused: seq<Document>)
    ensures fused == Fused(vectorResults, bm25Results)
  {
    var rrfScores := AddRankedHits([], vectorResults);
    rrfScores := AddRankedHits(rrfScores, bm25Results);
    var sorted := SortByScore(rrfScores);
    var top := sorted[..Min(FINAL_TOP_K, |sorted|)];
    fused := Docs(top);
  }

  // ---------------------------------------------------------------------------------------------
  // Reference definitions of what the fused list should be.

  /** The keys occurring in a list. */
  function KeySet(docs: seq<Document>): set<string>
  {
    set d | d in docs :: FusionKey(d)
  }

  /** The sum of `1/(RRF_K + rank)` over every 1-based rank at which key `k` occurs in `docs`. */
  function KeyScore(docs: seq<Document>, k: string): real
    decreases |docs|
  {
    if docs == [] then 0.0
    else
      var n := |docs|;
      KeyScore(docs[..n - 1], k) + (if FusionKey(docs[n - 1]) == k then RankScore(n) else 0.0)
  }

  /** The fused score of key `k`: its rank scores in both lists. */
  function FusedScore(vectorResults: seq<Document>, bm25Results: seq<Document>, k: string): real
  {
    KeyScore(vectorResults, k) + KeyScore(bm25Results, k)
  }

  /** The position of the first document with key `k`. */
  function FirstIndex(docs: seq<Document>, k: string): (i: nat)
    requires k in KeySet(docs)
    ensures i < |docs| && FusionKey(docs[i]) == k
    ensures forall j :: 0 <= j < i ==> FusionKey(docs[j]) != k
  {
    if FusionKey(docs[0]) == k then 0
    else
      assert k in KeySet(docs[1..]) by {
        var d :| d in docs && FusionKey(d) == k;
        assert d != docs[0];
      }
      1 + FirstIndex(docs[1..], k)
  }

  // ---------------------------------------------------------------------------------------------
  // Scores in the map.

  /** The total score the map holds for `k`. */
  function ScoreOf(t: seq<RrfResult>, k: string): real
  {
    if t == [] then 0.0 else (if t[0].key == k then t[0].score else 0.0) + ScoreOf(t[1..], k)
  }

  lemma {:induction false} ScoreOfUpdate(t: seq<RrfResult>, i: nat, e: RrfResult, k: string)
    requires i < |t|
    ensures ScoreOf(t[i := e], k)
      == ScoreOf(t, k) - (if t[i].key == k then t[i].score else 0.0) + (if e.key == k then e.score else 0.0)
  {
    if i > 0 {
      assert t[i := e][1..] == t[1..][i - 1 := e];
      ScoreOfUpdate(t[1..], i - 1, e, k);
    } else {
      assert t[i := e][1..] == t[1..];
    }
  }

  lemma {:induction false} ScoreOfAppend(t: seq<RrfResult>, e: RrfResult, k: string)
    ensures ScoreOf(t + [e], k) == ScoreOf(t, k) + (if e.key == k then e.score else 0.0)
  {
    if t != [] {
      assert (t + [e])[1..] == t[1..] + [e];
      ScoreOfAppend(t[1..], e, k);
    }
  }

  lemma HitScore(t: seq<RrfResult>, key: string, doc: Document, s: real, k: string)
    ensures ScoreOf(Hit(t, key, doc, s), k) == ScoreOf(t, k) + (if k == key then s else 0.0)
  {
    match Lookup(t, key)
    case Some(i) => ScoreOfUpdate(t, i, t[i].(score := t[i].score + s), k);
    case None => ScoreOfAppend(t, RrfResult(key, doc, s), k);
  }

  lemma {:induction false} AccumulateScore(t: seq<RrfResult>, docs: seq<Document>, k: string)
    ensures ScoreOf(Accumulate(t, docs), k) == ScoreOf(t, k) + KeyScore(docs, k)
    decreases |docs|
  {
    if docs != [] {
      var n := |docs|;
      AccumulateScore(t, docs[..n - 1], k);
      HitScore(Accumulate(t, docs[..n - 1]), FusionKey(docs[n - 1]), docs[n - 1], RankScore(n), k);
    }
  }

  predicate DistinctKeys(t: seq<RrfResult>)
  {
    forall i, j :: 0 <= i < j < |t| ==> t[i].key != t[j].key
  }

  lemma {:induction false} ScoreOfAbsent(t: seq<RrfResult>, k: string)
    requires k !in Keys(t)
    ensures ScoreOf(t, k) == 0.0
  {
    if t != [] {
      assert t[0] in t;
      assert Keys(t[1..]) <= Keys(t) by {
        forall e | e in t[1..] ensures e in t { }
      }
      ScoreOfAbsent(t[1..], k);
    }
  }

  lemma {:induction false} ScoreOfDistinct(t: seq<RrfResult>, i: nat)
    requires DistinctKeys(t) && i < |t|
    ensures ScoreOf(t, t[i].key) == t[i].score
  {
    if i == 0 {
      assert t[0].key !in Keys(t[1..]) by {
        forall e | e in t[1..] ensures e.key != t[0].key {
          var j :| 0 <= j < |t[1..]| && t[1..][j] == e;
          assert t[j + 1] == e;
        }
      }
      ScoreOfAbsent(t[1..], t[0].key);
    } else {
      ScoreOfDistinct(t[1..], i - 1);
      assert t[0].key != t[i].key;
    }
  }

  // ---------------------------------------------------------------------------------------------
  // Which document each entry keeps, and in which order entries were inserted.

  /** Every entry keeps the first document of `prev` with its key. */
  predicate FirstDocs(t: seq<RrfResult>, prev: seq<Document>)
  {
    forall i :: 0 <= i < |t| ==> t[i].key in KeySet(prev) && t[i].doc == prev[FirstIndex(prev, t[i].key)]
  }

  /** Entries appear in the order in which their keys first occur in `prev`. */
  predicate FirstOrder(t: seq<RrfResult>, prev: seq<Document>)
  {
    forall i, j :: 0 <= i < j < |t| && t[i].key in KeySet(prev) && t[j].key in KeySet(prev) ==>
      FirstIndex(prev, t[i].key) < FirstIndex(prev, t[j].key)
  }

  /**
   * The map built from the hits of `prev` has one entry per key of `prev`, keeps for each key the
   * first document of `prev` with that key, and is ordered by those first occurrences.
   */
  predicate Tracks(t: seq<RrfResult>, prev: seq<Document>)
  {
    DistinctKeys(t) && Keys(t) == KeySet(prev) && FirstDocs(t, prev) && FirstOrder(t, prev)
  }

  lemma FirstIndexIs(docs: seq<Document>, k: string, i: nat)
    requires i < |docs| && FusionKey(docs[i]) == k
    requires forall j :: 0 <= j < i ==> FusionKey(docs[j]) != k
    ensures k in KeySet(docs) && FirstIndex(docs, k) == i
  {
    assert docs[i] in docs;
  }

  lemma FirstIndexAppend(prev: seq<Document>, d: Document, k: string)
    ensures KeySet(prev + [d]) == KeySet(prev) + {FusionKey(d)}
    ensures k in KeySet(prev) ==> FirstIndex(prev + [d], k) == FirstIndex(prev, k)
    ensures k !in KeySet(prev) && k == FusionKey(d) ==> FirstIndex(prev + [d], k) == |prev|
  {
    assert forall x :: x in prev + [d] <==> x in prev || x == d;
    if k in KeySet(prev) {
      FirstIndexIs(prev + [d], k, FirstIndex(prev, k));
    } else if k == FusionKey(d) {
      forall j | 0 <= j < |prev| ensures FusionKey((prev + [d])[j]) != k {
        assert prev[j] in prev;
      }
      FirstIndexIs(prev + [d], k, |prev|);
    }
  }

  lemma KeysOfUpdate(t: seq<RrfResult>, i: nat, e: RrfResult)
    requires i < |t| && e.key == t[i].key
    ensures Keys(t[i := e]) == Keys(t)
  {
    var t' := t[i := e];
    forall x | x in t' ensures x.key in Keys(t) {
      var j :| 0 <= j < |t'| && t'[j] == x;
      assert t[j] in t;
    }
    forall x | x in t ensures x.key in Keys(t') {
      var j :| 0 <= j < |t| && t[j] == x;
      assert t'[j] in t';
    }
  }

  lemma PresentFirstDocs(t: seq<RrfResult>, prev: seq<Document>, d: Document, i: nat, e: RrfResult)
    requires Tracks(t, prev) && i < |t| && e.key == t[i].key && e.doc == t[i].doc
    ensures FirstDocs(t[i := e], prev + [d])
  {
    var t' := t[i := e];
    var prev' := prev + [d];
    forall j | 0 <= j < |t'| ensures t'[j].key in KeySet(prev') && t'[j].doc == prev'[FirstIndex(prev', t'[j].key)] {
      assert t[j] in t;
      var k := t[j].key;
      FirstIndexAppend(prev, d, k);
      assert prev'[FirstIndex(prev, k)] == prev[FirstIndex(prev, k)];
    }
  }

  lemma PresentFirstOrder(t: seq<RrfResult>, prev: seq<Document>, d: Document, i: nat, e: RrfResult)
    requires Tracks(t, prev) && i < |t| && e.key == t[i].key
    ensures FirstOrder(t[i := e], prev + [d])
  {
    var t' := t[i := e];
    var prev' := prev + [d];
    forall j | 0 <= j < |t'| ensures t'[j].key in KeySet(prev) && FirstIndex(prev', t'[j].key) == FirstIndex(prev, t[j].key) {
      assert t[j] in t;
      FirstIndexAppend(prev, d, t[j].key);
    }
  }

  lemma DistinctKeysUpdate(t: seq<RrfResult>, i: nat, e: RrfResult)
    requires DistinctKeys(t) && i < |t| && e.key == t[i].key
    ensures DistinctKeys(t[i := e])
  {
    var t' := t[i := e];
    assert forall a :: 0 <= a < |t| ==> t'[a].key == t[a].key;
  }

  lemma HitTracksPresent(t: seq<RrfResult>, prev: seq<Document>, d: Document, s: real, i: nat)
    requires Tracks(t, prev)
    requires Lookup(t, FusionKey(d)) == Some(i)
    ensures Tracks(Hit(t, FusionKey(d), d, s), prev + [d])
  {
    var key := FusionKey(d);
    var e := t[i].(score := t[i].score + s);
    assert Hit(t, key, d, s) == t[i := e];
    assert key in KeySet(prev) by { assert t[i] in t; }
    FirstIndexAppend(prev, d, key);
    KeysOfUpdate(t, i, e);
    DistinctKeysUpdate(t, i, e);
    PresentFirstDocs(t, prev, d, i, e);
    PresentFirstOrder(t, prev, d, i, e);
  }

  lemma AbsentFirstDocs(t: seq<RrfResult>, prev: seq<Document>, d: Document, s: real)
    requires Tracks(t, prev) && FusionKey(d) !in KeySet(prev)
    ensures FirstDocs(t + [RrfResult(FusionKey(d), d, s)], prev + [d])
  {
    var t' := t + [RrfResult(FusionKey(d), d, s)];
    var prev' := prev + [d];
    FirstIndexAppend(prev, d, FusionKey(d));
    forall j | 0 <= j < |t'| ensures t'[j].key in KeySet(prev') && t'[j].doc == prev'[FirstIndex(prev', t'[j].key)] {
      if j < |t| {
        assert t[j] in t;
        var k := t[j].key;
        FirstIndexAppend(prev, d, k);
        assert prev'[FirstIndex(prev, k)] == prev[FirstIndex(prev, k)];
      }
    }
  }

  lemma AbsentFirstOrder(t: seq<RrfResult>, prev: seq<Document>, d: Document, s: real)
    requires Tracks(t, prev) && FusionKey(d) !in KeySet(prev)
    ensures FirstOrder(t + [RrfResult(FusionKey(d), d, s)], prev + [d])
  {
    var t' := t + [RrfResult(FusionKey(d), d, s)];
    var prev' := prev + [d];
    FirstIndexAppend(prev, d, FusionKey(d));
    forall j | 0 <= j < |t|
      ensures t'[j].key in KeySet(prev) && FirstIndex(prev', t'[j].key) == FirstIndex(prev, t[j].key) < |prev|
    {
      assert t[j] in t;
      FirstIndexAppend(prev, d, t[j].key);
    }
  }

  lemma HitTracksAbsent(t: seq<RrfResult>, prev: seq<Document>, d: Document, s: real)
    requires Tracks(t, prev)
    requires Lookup(t, FusionKey(d)).None?
    ensures Tracks(Hit(t, FusionKey(d), d, s), prev + [d])
  {
    var key := FusionKey(d);
    var e := RrfResult(key, d, s);
    var t' := t + [e];
    assert key !in KeySet(prev);
    FirstIndexAppend(prev, d, key);
    assert Keys(t') == Keys(t) + {key} by {
      assert forall x :: x in t' <==> x in t || x == e;
    }
    forall j | 0 <= j < |t| ensures t'[j].key != key {
      assert t[j] in t;
    }
    AbsentFirstDocs(t, prev, d, s);
    AbsentFirstOrder(t, prev, d, s);
  }

  lemma HitTracks(t: seq<RrfResult>, prev: seq<Document>, d: Document, s: real)
    requires Tracks(t, prev)
    ensures Tracks(Hit(t, FusionKey(d), d, s), prev + [d])
  {
    match Lookup(t, FusionKey(d))
    case Some(i) => HitTracksPresent(t, prev, d, s, i);
    case None => HitTracksAbsent(t, prev, d, s);
  }

  lemma {:induction false} AccumulateTracks(t: seq<RrfResult>, prev: seq<Document>, docs: seq<Document>)
    requires Tracks(t, prev)
    ensures Tracks(Accumulate(t, docs), prev + docs)
    decreases |docs|
  {
    if docs == [] {
      assert prev + docs == prev;
    } else {
      var n := |docs|;
      AccumulateTracks(t, prev, docs[..n - 1]);
      HitTracks(Accumulate(t, docs[..n - 1]), prev + docs[..n - 1], docs[n - 1], RankScore(n));
      assert prev + docs[..n - 1] + [docs[n - 1]] == prev + docs;
    }
  }

  /** The score map holds one entry per key, with its first document and its fused score, in first-occurrence order. */
  lemma ScoreTableFacts(vectorResults: seq<Document>, bm25Results: seq<Document>)
    ensures Tracks(ScoreTable(vectorResults, bm25Results), vectorResults + bm25Results)
    ensures var t := ScoreTable(vectorResults, bm25Results);
      forall i :: 0 <= i < |t| ==> t[i].score == FusedScore(vectorResults, bm25Results, t[i].key)
  {
    var t0 := Accumulate([], vectorResults);
    var t := ScoreTable(vectorResults, bm25Results);
    assert Keys([]) == {} && KeySet([]) == {};
    AccumulateTracks([], [], vectorResults);
    assert [] + vectorResults == vectorResults;
    AccumulateTracks(t0, vectorResults, bm25Results);
    forall i | 0 <= i < |t| ensures t[i].score == FusedScore(vectorResults, bm25Results, t[i].key) {
      var k := t[i].key;
      ScoreOfDistinct(t, i);
      AccumulateScore(t0, bm25Results, k);
      AccumulateScore([], vectorResults, k);
    }
  }

  // ---------------------------------------------------------------------------------------------
  // The sort is stable: the sorted list is ordered by descending score, and among equal scores by
  // any position function that increases along the input.

  /** `a` sorts before `b`: a higher score, or an equal score and an earlier position. */
  predicate Before(a: RrfResult, b: RrfResult, pos: RrfResult -> int)
  {
    a.score > b.score || (a.score == b.score && pos(a) < pos(b))
  }

  predicate LexSorted(s: seq<RrfResult>, pos: RrfResult -> int)
  {
    forall i, j :: 0 <= i < j < |s| ==> Before(s[i], s[j], pos)
  }

  lemma TailLexSorted(s: seq<RrfResult>, pos: RrfResult -> int)
    requires s != [] && LexSorted(s, pos)
    ensures LexSorted(s[1..], pos)
  {
    forall i, j | 0 <= i < j < |s[1..]| ensures Before(s[1..][i], s[1..][j], pos) {
      assert Before(s[i + 1], s[j + 1], pos);
    }
  }

  lemma ConsLexSorted(h: RrfResult, rest: seq<RrfResult>, pos: RrfResult -> int)
    requires LexSorted(rest, pos)
    requires forall x :: x in rest ==> Before(h, x, pos)
    ensures LexSorted([h] + rest, pos)
  {
    var r := [h] + rest;
    forall i, j | 0 <= i < j < |r| ensures Before(r[i], r[j], pos) {
      if i == 0 {
        assert r[j] == rest[j - 1] && rest[j - 1] in rest;
      } else {
        assert r[i] == rest[i - 1] && r[j] == rest[j - 1];
      }
    }
  }

  /** The head of a sorted list sorts before everything in its tail with `e` inserted. */
  lemma HeadBeforeInserted(e: RrfResult, s: seq<RrfResult>, pos: RrfResult -> int)
    requires s != [] && LexSorted(s, pos) && s[0].score >= e.score
    requires pos(s[0]) < pos(e)
    ensures forall x :: x in InsertByScore(e, s[1..]) ==> Before(s[0], x, pos)
  {
    var rest := InsertByScore(e, s[1..]);
    forall x | x in rest ensures Before(s[0], x, pos) {
      assert x in multiset(rest);
      if x != e {
        assert x in multiset(s[1..]);
        var j :| 0 <= j < |s[1..]| && s[1..][j] == x;
        assert Before(s[0], s[j + 1], pos);
      }
    }
  }

  lemma {:induction false} InsertLexSorted(e: RrfResult, s: seq<RrfResult>, pos: RrfResult -> int)
    requires LexSorted(s, pos)
    requires forall x :: x in s ==> pos(x) < pos(e)
    ensures LexSorted(InsertByScore(e, s), pos)
  {
    if s != [] && s[0].score >= e.score {
      TailLexSorted(s, pos);
      assert forall x :: x in s[1..] ==> x in s;
      InsertLexSorted(e, s[1..], pos);
      assert s[0] in s;
      HeadBeforeInserted(e, s, pos);
      ConsLexSorted(s[0], InsertByScore(e, s[1..]), pos);
    } else if s != [] {
      forall x | x in s ensures Before(e, x, pos) {
        var j :| 0 <= j < |s| && s[j] == x;
        if j > 0 {
          assert Before(s[0], s[j], pos);
        }
      }
      ConsLexSorted(e, s, pos);
    }
  }

  lemma SortKeepsMembers(t: seq<RrfResult>, x: RrfResult)
    requires x in SortByScore(t)
    ensures x in t
  {
    assert x in multiset(SortByScore(t));
  }

  /** Every entry of the sorted prefix was ranked by an earlier position than the last entry. */
  lemma SortedPrefixBeforeLast(t: seq<RrfResult>, pos: RrfResult -> int)
    requires t != []
    requires forall i, j :: 0 <= i < j < |t| ==> pos(t[i]) < pos(t[j])
    ensures forall x :: x in SortByScore(t[..|t| - 1]) ==> pos(x) < pos(t[|t| - 1])
  {
    var prefix := t[..|t| - 1];
    forall x | x in SortByScore(prefix) ensures pos(x) < pos(t[|t| - 1]) {
      SortKeepsMembers(prefix, x);
      var j :| 0 <= j < |prefix| && prefix[j] == x;
      assert x == t[j];
    }
  }

  lemma {:induction false} SortLexSorted(t: seq<RrfResult>, pos: RrfResult -> int)
    requires forall i, j :: 0 <= i < j < |t| ==> pos(t[i]) < pos(t[j])
    ensures LexSorted(SortByScore(t), pos)
    decreases |t|
  {
    if t != [] {
      var n := |t|;
      var prefix := t[..n - 1];
      assert forall i, j :: 0 <= i < j < |prefix| ==> pos(prefix[i]) < pos(prefix[j]) by {
        forall i, j | 0 <= i < j < |prefix| ensures pos(prefix[i]) < pos(prefix[j]) {
          assert prefix[i] == t[i] && prefix[j] == t[j];
        }
      }
      SortLexSorted(prefix, pos);
      SortedPrefixBeforeLast(t, pos);
      InsertLexSorted(t[n - 1], SortByScore(prefix), pos);
      assert SortByScore(t) == InsertByScore(t[n - 1], SortByScore(prefix));
    }
  }

  lemma DistinctKeysTail(t: seq<RrfResult>)
    requires t != [] && DistinctKeys(t)
    ensures DistinctKeys(t[1..])
  {
    var rest := t[1..];
    forall i, j | 0 <= i < j < |rest| ensures rest[i].key != rest[j].key {
      assert rest[i] == t[i + 1] && rest[j] == t[j + 1];
    }
  }

  /** The keys of a non-empty list: the head's key and the tail's keys; with distinct keys the head's is new. */
  lemma KeysCons(t: seq<RrfResult>)
    requires t != []
    ensures Keys(t) == Keys(t[1..]) + {t[0].key}
    ensures DistinctKeys(t) ==> t[0].key !in Keys(t[1..])
  {
    var rest := t[1..];
    assert forall e :: e in t <==> e == t[0] || e in rest;
    if DistinctKeys(t) {
      forall e | e in rest ensures e.key != t[0].key {
        var j :| 0 <= j < |rest| && rest[j] == e;
        assert t[j + 1] == e;
      }
    }
  }

  lemma {:induction false} KeysCardinality(t: seq<RrfResult>)
    requires DistinctKeys(t)
    ensures |Keys(t)| == |t|
  {
    if t != [] {
      DistinctKeysTail(t);
      KeysCardinality(t[1..]);
      KeysCons(t);
    }
  }

  lemma KeySetAppend(a: seq<Document>, b: seq<Document>)
    ensures KeySet(a + b) == KeySet(a) + KeySet(b)
  {
    assert forall d :: d in a + b <==> d in a || d in b;
  }

  /** The position of an entry's key in the concatenated input; used as the tie-break order. */
  function Position(all: seq<Document>): RrfResult -> int
  {
    (e: RrfResult) => if e.key in KeySet(all) then FirstIndex(all, e.key) else 0
  }

  lemma SortedMembers(t: seq<RrfResult>)
    ensures forall x :: x in SortByScore(t) <==> x in t
  {
    var s := SortByScore(t);
    assert forall x :: x in s <==> x in multiset(s);
    assert forall x :: x in t <==> x in multiset(t);
  }

  /** Each entry of the sorted map carries a key of the input, that key's first document and its fused score. */
  lemma SortedEntries(vectorResults: seq<Document>, bm25Results: seq<Document>)
    ensures var all := vectorResults + bm25Results;
      var s := SortByScore(ScoreTable(vectorResults, bm25Results));
      forall i :: 0 <= i < |s| ==>
        && s[i].key in KeySet(all)
        && FusionKey(s[i].doc) == s[i].key
        && s[i].doc == all[FirstIndex(all, s[i].key)]
        && s[i].score == FusedScore(vectorResults, bm25Results, s[i].key)
  {
    var all := vectorResults + bm25Results;
    var t := ScoreTable(vectorResults, bm25Results);
    var s := SortByScore(t);
    ScoreTableFacts(vectorResults, bm25Results);
    SortedMembers(t);
    forall i | 0 <= i < |s|
      ensures s[i].key in KeySet(all) && FusionKey(s[i].doc) == s[i].key
      ensures s[i].doc == all[FirstIndex(all, s[i].key)]
      ensures s[i].score == FusedScore(vectorResults, bm25Results, s[i].key)
    {
      assert s[i] in t;
      var j :| 0 <= j < |t| && t[j] == s[i];
    }
  }

  /** Entries of a map with distinct keys that differ have different keys. */
  lemma DistinctEntries(t: seq<RrfResult>, x: RrfResult, y: RrfResult)
    requires DistinctKeys(t) && x in t && y in t && x != y
    ensures x.key != y.key
  {
    var i :| 0 <= i < |t| && t[i] == x;
    var j :| 0 <= j < |t| && t[j] == y;
  }

  /** Along the map, the first-occurrence positions of the keys increase. */
  lemma TablePositions(t: seq<RrfResult>, all: seq<Document>)
    requires Tracks(t, all)
    ensures forall i, j :: 0 <= i < j < |t| ==> Position(all)(t[i]) < Position(all)(t[j])
  {
    forall i, j | 0 <= i < j < |t| ensures Position(all)(t[i]) < Position(all)(t[j]) {
      assert t[i] in t && t[j] in t;
      assert t[i].key in KeySet(all) && t[j].key in KeySet(all);
    }
  }

  /** The sorted map has distinct keys, in descending score order with ties in first-occurrence order. */
  lemma SortedOrder(vectorResults: seq<Document>, bm25Results: seq<Document>)
    ensures var all := vectorResults + bm25Results;
      var s := SortByScore(ScoreTable(vectorResults, bm25Results));
      forall i, j :: 0 <= i < j < |s| ==> s[i].key != s[j].key && Before(s[i], s[j], Position(all))
  {
    var all := vectorResults + bm25Results;
    var t := ScoreTable(vectorResults, bm25Results);
    var s := SortByScore(t);
    var pos := Position(all);
    ScoreTableFacts(vectorResults, bm25Results);
    TablePositions(t, all);
    SortLexSorted(t, pos);
    SortedMembers(t);
    forall i, j | 0 <= i < j < |s| ensures s[i].key != s[j].key {
      assert Before(s[i], s[j], pos);
      assert s[i] != s[j];
      DistinctEntries(t, s[i], s[j]);
    }
  }

  lemma ScoreTableKeys(vectorResults: seq<Document>, bm25Results: seq<Document>)
    ensures var t := ScoreTable(vectorResults, bm25Results);
      DistinctKeys(t) && Keys(t) == KeySet(vectorResults + bm25Results)
  {
    ScoreTableFacts(vectorResults, bm25Results);
  }

  /** There are as many sorted entries as distinct keys across both inputs. */
  lemma SortedLength(vectorResults: seq<Document>, bm25Results: seq<Document>)
    ensures |SortByScore(ScoreTable(vectorResults, bm25Results))| == |KeySet(vectorResults) + KeySet(bm25Results)|
  {
    var t := ScoreTable(vectorResults, bm25Results);
    ScoreTableKeys(vectorResults, bm25Results);
    KeySetAppend(vectorResults, bm25Results);
    KeysCardinality(t);
    assert |multiset(SortByScore(t))| == |multiset(t)|;
  }

  lemma SortKeepsKey(t: seq<RrfResult>, k: string)
    requires k in Keys(t)
    ensures exists i :: 0 <= i < |SortByScore(t)| && SortByScore(t)[i].key == k
  {
    var s := SortByScore(t);
    SortedMembers(t);
    var e :| e in t && e.key == k;
    assert e in s;
    var i :| 0 <= i < |s| && s[i] == e;
    assert s[i].key == k;
  }

  /** Every key of either input has an entry in the sorted map. */
  lemma SortedCovers(vectorResults: seq<Document>, bm25Results: seq<Document>, k: string)
    requires k in KeySet(vectorResults + bm25Results)
    ensures var s := SortByScore(ScoreTable(vectorResults, bm25Results));
      exists i :: 0 <= i < |s| && s[i].key == k
  {
    ScoreTableKeys(vectorResults, bm25Results);
    SortKeepsKey(ScoreTable(vectorResults, bm25Results), k);
  }

  // ---------------------------------------------------------------------------------------------
  // What `reciprocalRankFusion` promises.

  lemma FusedIsTop(vectorResults: seq<Document>, bm25Results: seq<Document>)
    ensures var s := SortByScore(ScoreTable(vectorResults, bm25Results));
      var out := Fused(vectorResults, bm25Results);
      |out| == Min(FINAL_TOP_K, |s|) && forall i :: 0 <= i < |out| ==> out[i] == s[i].doc
  {
  }

  /** The output length is `min(5, number of distinct keys across both lists)`. */
  lemma FusedLength(vectorResults: seq<Document>, bm25Results: seq<Document>)
    ensures |Fused(vectorResults, bm25Results)| == Min(FINAL_TOP_K, |KeySet(vectorResults) + KeySet(bm25Results)|)
  {
    SortedLength(vectorResults, bm25Results);
  }

  /** No two fused documents share a key. */
  lemma FusedDistinctKeys(vectorResults: seq<Document>, bm25Results: seq<Document>)
    ensures var out := Fused(vectorResults, bm25Results);
      forall i, j :: 0 <= i < j < |out| ==> FusionKey(out[i]) != FusionKey(out[j])
  {
    var s := SortByScore(ScoreTable(vectorResults, bm25Results));
    FusedIsTop(vectorResults, bm25Results);
    SortedEntries(vectorResults, bm25Results);
    SortedOrder(vectorResults, bm25Results);
  }

  /**
   * Each fused document is the first document with its key in the vector list followed by the
   * BM25 list, so it is an element of one of the inputs.
   */
  lemma FusedFirstOccurrence(vectorResults: seq<Document>, bm25Results: seq<Document>)
    ensures var out := Fused(vectorResults, bm25Results);
      var all := vectorResults + bm25Results;
      forall i :: 0 <= i < |out| ==>
        && FusionKey(out[i]) in KeySet(all)
        && out[i] == all[FirstIndex(all, FusionKey(out[i]))]
        && (out[i] in vectorResults || out[i] in bm25Results)
  {
    var all := vectorResults + bm25Results;
    var out := Fused(vectorResults, bm25Results);
    FusedIsTop(vectorResults, bm25Results);
    SortedEntries(vectorResults, bm25Results);
    forall i | 0 <= i < |out| ensures out[i] in vectorResults || out[i] in bm25Results {
      assert out[i] in all;
    }
  }

  /**
   * The fused documents are in non-increasing order of fused score, and documents with equal
   * scores keep the order in which their keys first occurred (the stable sort over insertion order).
   */
  lemma FusedScoreOrder(vectorResults: seq<Document>, bm25Results: seq<Document>)
    ensures var out := Fused(vectorResults, bm25Results);
      var all := vectorResults + bm25Results;
      forall i, j :: 0 <= i < j < |out| ==>
        && FusionKey(out[i]) in KeySet(all) && FusionKey(out[j]) in KeySet(all)
        && FusedScore(vectorResults, bm25Results, FusionKey(out[i])) >= FusedScore(vectorResults, bm25Results, FusionKey(out[j]))
        && (FusedScore(vectorResults, bm25Results, FusionKey(out[i])) == FusedScore(vectorResults, bm25Results, FusionKey(out[j])) ==>
              FirstIndex(all, FusionKey(out[i])) < FirstIndex(all, FusionKey(out[j])))
  {
    var all := vectorResults + bm25Results;
    var s := SortByScore(ScoreTable(vectorResults, bm25Results));
    var out := Fused(vectorResults, bm25Results);
    FusedIsTop(vectorResults, bm25Results);
    SortedEntries(vectorResults, bm25Results);
    SortedOrder(vectorResults, bm25Results);
    forall i, j | 0 <= i < j < |out|
      ensures FusedScore(vectorResults, bm25Results, FusionKey(out[i])) >= FusedScore(vectorResults, bm25Results, FusionKey(out[j]))
    {
      assert Before(s[i], s[j], Position(all));
    }
  }

  /** A key that was cut off scores no higher than the last document kept, and is cut only when five were kept. */
  lemma FusedCutoff(vectorResults: seq<Document>, bm25Results: seq<Document>, k: string)
    requires k in KeySet(vectorResults) + KeySet(bm25Results)
    requires forall i :: 0 <= i < |Fused(vectorResults, bm25Results)| ==> FusionKey(Fused(vectorResults, bm25Results)[i]) != k
    ensures |Fused(vectorResults, bm25Results)| == FINAL_TOP_K
    ensures FusedScore(vectorResults, bm25Results, k)
      <= FusedScore(vectorResults, bm25Results, FusionKey(Fused(vectorResults, bm25Results)[FINAL_TOP_K - 1]))
  {
    var all := vectorResults + bm25Results;
    var s := SortByScore(ScoreTable(vectorResults, bm25Results));
    var out := Fused(vectorResults, bm25Results);
    KeySetAppend(vectorResults, bm25Results);
    FusedIsTop(vectorResults, bm25Results);
    SortedEntries(vectorResults, bm25Results);
    SortedOrder(vectorResults, bm25Results);
    SortedCovers(vectorResults, bm25Results, k);
    var j :| 0 <= j < |s| && s[j].key == k;
    assert j >= |out|;
    assert |out| == FINAL_TOP_K;
    var last := FINAL_TOP_K - 1;
    if last < j {
      assert Before(s[last], s[j], Position(all));
    }
  }

  // Fusing with an empty BM25 list.

  lemma {:induction false} AccumulateDistinct(docs: seq<Document>)
    requires forall i, j :: 0 <= i < j < |docs| ==> FusionKey(docs[i]) != FusionKey(docs[j])
    ensures var t := Accumulate([], docs);
      |t| == |docs| && forall i :: 0 <= i < |t| ==> t[i] == RrfResult(FusionKey(docs[i]), docs[i], RankScore(i + 1))
    decreases |docs|
  {
    if docs != [] {
      var n := |docs|;
      var prefix := docs[..n - 1];
      AccumulateDistinct(prefix);
      var t := Accumulate([], prefix);
      assert FusionKey(docs[n - 1]) !in Keys(t) by {
        forall e | e in t ensures e.key != FusionKey(docs[n - 1]) {
          var i :| 0 <= i < |t| && t[i] == e;
        }
      }
    }
  }

  lemma {:induction false} InsertLowest(e: RrfResult, s: seq<RrfResult>)
    requires forall x :: x in s ==> x.score >= e.score
    ensures InsertByScore(e, s) == s + [e]
  {
    if s != [] {
      assert s[0] in s && s[0].score >= e.score;
      assert forall x :: x in s[1..] ==> x in s;
      InsertLowest(e, s[1..]);
      calc {
        InsertByScore(e, s);
        [s[0]] + InsertByScore(e, s[1..]);
        [s[0]] + (s[1..] + [e]);
        { assert s == [s[0]] + s[1..]; }
        s + [e];
      }
    }
  }

  lemma {:induction false} SortOfSorted(t: seq<RrfResult>)
    requires forall i, j :: 0 <= i < j < |t| ==> t[i].score >= t[j].score
    ensures SortByScore(t) == t
    decreases |t|
  {
    if t != [] {
      var n := |t|;
      SortOfSorted(t[..n - 1]);
      InsertLowest(t[n - 1], t[..n - 1]);
      assert t[..n - 1] + [t[n - 1]] == t;
    }
  }

  /** A later rank contributes less. */
  lemma RankScoreAntitone(a: nat, b: nat)
    requires a <= b
    ensures RankScore(b) <= RankScore(a)
  {
    var x := (RRF_K + a) as real;
    var y := (RRF_K + b) as real;
    assert 0.0 < x <= y;
    assert (1.0 / x) * x == 1.0 && (1.0 / y) * y == 1.0;
    assert 1.0 / y <= 1.0 / x;
  }

  /** With distinct keys the map lists the documents at falling scores, so the sort keeps it as it is. */
  lemma RanksSorted(docs: seq<Document>)
    requires forall i, j :: 0 <= i < j < |docs| ==> FusionKey(docs[i]) != FusionKey(docs[j])
    ensures SortByScore(Accumulate([], docs)) == Accumulate([], docs)
  {
    var t := Accumulate([], docs);
    AccumulateDistinct(docs);
    FallingScores(t);
    SortOfSorted(t);
  }

  /** Entries scored by their rank are in non-increasing score order. */
  lemma FallingScores(t: seq<RrfResult>)
    requires forall i :: 0 <= i < |t| ==> t[i].score == RankScore(i + 1)
    ensures forall i, j :: 0 <= i < j < |t| ==> t[i].score >= t[j].score
  {
    forall i, j | 0 <= i < j < |t| ensures t[i].score >= t[j].score {
      RankScoreAntitone(i + 1, j + 1);
    }
  }

  /** Fusing a vector list of distinct keys with an empty BM25 list returns its first five documents in order. */
  lemma FusedVectorOnly(vectorResults: seq<Document>)
    requires forall i, j :: 0 <= i < j < |vectorResults| ==> FusionKey(vectorResults[i]) != FusionKey(vectorResults[j])
    ensures Fused(vectorResults, []) == vectorResults[..Min(FINAL_TOP_K, |vectorResults|)]
  {
    var t := Accumulate([], vectorResults);
    assert ScoreTable(vectorResults, []) == t;
    RanksSorted(vectorResults);
    AccumulateDistinct(vectorResults);
    var m := Min(FINAL_TOP_K, |vectorResults|);
    assert Docs(t[..m]) == vectorResults[..m];
  }
}
