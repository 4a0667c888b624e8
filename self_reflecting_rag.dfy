/**
 * The older self-reflecting workflow (my-ai-app/lib/ai/workflows/self-reflecting-rag.ts): one
 * mutable state object updated in place by a retrieve / evaluate / expand loop, with a
 * confidence threshold on top of the evaluator's verdict and optional telemetry.
 */
module SelfReflectingRag {
  import opened Wrappers
  import opened Strings
  import opened OrderedSets
  import opened Documents
  import opened RagTypes
  import opened Strategies
  import opened Telemetry
  import State
  import QueryExpander
  import RetrievalEvaluator
  import Ranking

  const VECTOR_TOP_K := 20
  const BM25_TOP_K := 20
  const BROAD_SEARCH_K := 40
  const MAX_ITERATIONS := 3
  const CONFIDENCE_THRESHOLD := 0.7
  const MULTI_QUERY_VARIATIONS := 2

  /** The workflow's own document shape: the content and the metadata (of which the source is kept). */
  datatype WorkflowDocument = WorkflowDocument(content: string, source: Option<string>)

  datatype WorkflowOracles = WorkflowOracles(
    store: VectorStore,
    bm25: Bm25,
    /** The expansion asked for by multi-query retrieval. */
    multiExpander: QueryExpander.ExpansionModel,
    /** The expansion asked for after iteration `i`. */
    expanders: int -> QueryExpander.ExpansionModel,
    /** The evaluation asked for in iteration `i`. */
    evaluators: int -> RetrievalEvaluator.EvaluatorModel)

  datatype SelfReflectingRagOptions = SelfReflectingRagOptions(
    query: string,
    enableMultiQuery: Option<bool>,
    maxIterations: Option<int>,
    confidenceThreshold: Option<real>,
    enableTelemetry: Option<bool>)
  {
    /** The iteration limit, 3 unless given. */
    function MaxIterations(): int
    {
      maxIterations.GetOr(MAX_ITERATIONS)
    }

    /** The confidence threshold, 0.7 unless given. */
    function Threshold(): real
    {
      confidenceThreshold.GetOr(CONFIDENCE_THRESHOLD)
    }

    /** Multi-query retrieval on the first iteration, on unless turned off. */
    function MultiQuery(): bool
    {
      enableMultiQuery.GetOr(true)
    }

    /** The loop's settings: the threshold and the limit. */
    function LoopSettings(): Settings
    {
      Settings(Threshold(), MaxIterations())
    }
  }

  datatype SelfReflectingRagResult = SelfReflectingRagResult(
    documents: seq<WorkflowDocument>,
    finalQuery: string,
    iterationsPerformed: int,
    finalConfidence: real,
    isSufficient: bool,
    queryExpansions: seq<string>,
    evaluationReasoning: string)

  /** The source of readings for `new Date()`: the i-th reading is `reading(i)`. */
  class Clock {
    var ticks: nat
    const reading: nat -> int

    constructor(reading: nat -> int)
      ensures ticks == 0 && this.reading == reading
    {
      ticks := 0;
      this.reading := reading;
    }

    method Now() returns (t: int)
      modifies this
      ensures ticks == old(ticks) + 1 && t == reading(old(ticks))
    {
      t := reading(ticks);
      ticks := ticks + 1;
    }
  }

  function ToWorkflowDocuments(docs: seq<Document>): (r: seq<WorkflowDocument>)
    ensures |r| == |docs|
    ensures forall i :: 0 <= i < |docs| ==> r[i] == WorkflowDocument(docs[i].pageContent, docs[i].source)
  {
    seq(|docs|, i requires 0 <= i < |docs| => WorkflowDocument(docs[i].pageContent, docs[i].source))
  }

  /** What `retrieveDocuments(query)` yields: fusion of the top 20 of a 40-wide search with BM25 over all 40. */
  function Retrieved(oracles: WorkflowOracles, query: string): (docs: seq<WorkflowDocument>)
    ensures |docs| <= Ranking.FINAL_TOP_K
  {
    var broad := oracles.store(Some(query), BROAD_SEARCH_K, None);
    var vectorResults := broad[..Ranking.Min(VECTOR_TOP_K, |broad|)];
    ToWorkflowDocuments(Ranking.Fused(vectorResults, oracles.bm25(broad, query, BM25_TOP_K)))
  }

  method RetrieveDocuments(oracles: WorkflowOracles, query: string) returns (docs: seq<WorkflowDocument>)
    ensures docs == Retrieved(oracles, query)
    ensures |docs| <= Ranking.FINAL_TOP_K
  {
    var broad := oracles.store(Some(query), BROAD_SEARCH_K, None);
    var vectorResults := broad[..Ranking.Min(VECTOR_TOP_K, |broad|)];
    var bm25Results := oracles.bm25(broad, query, BM25_TOP_K);
    var fused := Ranking.ReciprocalRankFusion(vectorResults, bm25Results);
    Ranking.FusedLength(vectorResults, bm25Results);
    docs := ToWorkflowDocuments(fused);
  }

  // ---------------------------------------------------------------------------------------------
  // Deduplication by content

  function Contents(docs: seq<WorkflowDocument>): set<string>
  {
    set d | d in docs :: d.content
  }

  lemma ContentsAppend(docs: seq<WorkflowDocument>, d: WorkflowDocument)
    ensures Contents(docs + [d]) == Contents(docs) + {d.content}
  {
    assert forall x :: x in docs + [d] <==> x in docs || x == d;
  }

  /** The lists one after the other. */
  function Flatten(lists: seq<seq<WorkflowDocument>>): seq<WorkflowDocument>
  {
    if lists == [] then [] else Flatten(lists[..|lists| - 1]) + lists[|lists| - 1]
  }

  /** Keep a document only when no earlier kept document has the same content. */
  function DedupByContent(docs: seq<WorkflowDocument>): (r: seq<WorkflowDocument>)
    ensures Contents(r) == Contents(docs)
    ensures forall d :: d in r ==> d in docs
    decreases |docs|
  {
    if docs == [] then []
    else
      var n := |docs|;
      var prefix := DedupByContent(docs[..n - 1]);
      assert docs == docs[..n - 1] + [docs[n - 1]];
      ContentsAppend(docs[..n - 1], docs[n - 1]);
      ContentsAppend(prefix, docs[n - 1]);
      if docs[n - 1].content in Contents(prefix) then prefix else prefix + [docs[n - 1]]
  }

  /** One more document: kept exactly when its content is new. */
  lemma DedupStep(docs: seq<WorkflowDocument>, d: WorkflowDocument)
    ensures DedupByContent(docs + [d]) ==
      if d.content in Contents(DedupByContent(docs)) then DedupByContent(docs) else DedupByContent(docs) + [d]
  {
    assert (docs + [d])[..|docs|] == docs;
  }

  /** The position of the first document with content `c`. */
  function FirstContent(docs: seq<WorkflowDocument>, c: string): (k: nat)
    requires c in Contents(docs)
    ensures k < |docs| && docs[k].content == c
    ensures forall j :: 0 <= j < k ==> docs[j].content != c
  {
    if docs[0].content == c then 0
    else
      assert c in Contents(docs[1..]) by {
        var d :| d in docs && d.content == c;
        var i :| 0 <= i < |docs| && docs[i] == d;
        assert docs[1..][i - 1] == d;
      }
      1 + FirstContent(docs[1..], c)
  }

  lemma FirstContentExtend(docs: seq<WorkflowDocument>, d: WorkflowDocument, c: string)
    requires c in Contents(docs)
    ensures c in Contents(docs + [d]) && FirstContent(docs + [d], c) == FirstContent(docs, c)
  {
    ContentsAppend(docs, d);
    var k := FirstContent(docs, c);
    assert (docs + [d])[k] == docs[k];
    forall j | 0 <= j < k ensures (docs + [d])[j].content != c {
      assert (docs + [d])[j] == docs[j];
    }
  }

  predicate DistinctContents(docs: seq<WorkflowDocument>)
  {
    forall i, j :: 0 <= i < j < |docs| ==> docs[i].content != docs[j].content
  }

  /** The kept documents have pairwise distinct contents. */
  lemma {:induction false} DedupDistinct(docs: seq<WorkflowDocument>)
    ensures DistinctContents(DedupByContent(docs))
    decreases |docs|
  {
    if docs != [] {
      var n := |docs|;
      DedupDistinct(docs[..n - 1]);
      var prefix := DedupByContent(docs[..n - 1]);
      var r := DedupByContent(docs);
      forall i | 0 <= i < |prefix| ensures prefix[i].content in Contents(prefix) {
        assert prefix[i] in prefix;
      }
      if docs[n - 1].content in Contents(prefix) {
        assert r == prefix;
      } else {
        assert r == prefix + [docs[n - 1]];
        forall i, j | 0 <= i < j < |r| ensures r[i].content != r[j].content {
          assert r[i] == prefix[i];
          if j == |prefix| {
            assert r[j] == docs[n - 1];
            assert prefix[i].content in Contents(prefix);
          } else {
            assert r[j] == prefix[j];
          }
        }
      }
    }
  }

  /** Each of `kept` is the first document of `docs` with its content. */
  predicate FirstOccurrences(docs: seq<WorkflowDocument>, kept: seq<WorkflowDocument>)
  {
    forall i :: 0 <= i < |kept| ==> kept[i].content in Contents(docs) && kept[i] == docs[FirstContent(docs, kept[i].content)]
  }

  /** `kept` lists its contents in the order in which they first occur in `docs`. */
  predicate InFirstOccurrenceOrder(docs: seq<WorkflowDocument>, kept: seq<WorkflowDocument>)
  {
    forall i, j :: 0 <= i < j < |kept| ==>
      kept[i].content in Contents(docs) && kept[j].content in Contents(docs)
      && FirstContent(docs, kept[i].content) < FirstContent(docs, kept[j].content)
  }

  /** Each of `kept` has the same first occurrence in `longer` as in `docs`. */
  predicate SameFirstOccurrences(docs: seq<WorkflowDocument>, longer: seq<WorkflowDocument>, kept: seq<WorkflowDocument>)
  {
    forall i :: 0 <= i < |kept| ==>
      && kept[i].content in Contents(docs) && kept[i].content in Contents(longer)
      && FirstContent(longer, kept[i].content) == FirstContent(docs, kept[i].content)
  }

  /** Appending a document keeps the first occurrences of the documents already kept. */
  lemma PrefixFirstOccurrences(p: seq<WorkflowDocument>, last: WorkflowDocument)
    requires FirstOccurrences(p, DedupByContent(p))
    ensures FirstOccurrences(p + [last], DedupByContent(p))
    ensures SameFirstOccurrences(p, p + [last], DedupByContent(p))
  {
    var prefix := DedupByContent(p);
    forall i | 0 <= i < |prefix|
      ensures prefix[i].content in Contents(p) && prefix[i].content in Contents(p + [last])
      ensures FirstContent(p + [last], prefix[i].content) == FirstContent(p, prefix[i].content)
      ensures prefix[i] == (p + [last])[FirstContent(p + [last], prefix[i].content)]
    {
      FirstContentExtend(p, last, prefix[i].content);
      var k := FirstContent(p, prefix[i].content);
      assert prefix[i] == p[k] == (p + [last])[k];
    }
  }

  /** A document whose content is new to `docs` is its own first occurrence. */
  lemma NewContentFirst(p: seq<WorkflowDocument>, last: WorkflowDocument)
    requires last.content !in Contents(p)
    ensures last.content in Contents(p + [last]) && FirstContent(p + [last], last.content) == |p|
  {
    ContentsAppend(p, last);
    assert (p + [last])[|p|] == last;
    forall j | 0 <= j < |p| ensures (p + [last])[j].content != last.content {
      assert (p + [last])[j] == p[j];
      assert p[j] in p;
    }
  }

  /** Each kept document is the first one with its content. */
  lemma {:induction false} DedupFirstOccurrence(docs: seq<WorkflowDocument>)
    ensures FirstOccurrences(docs, DedupByContent(docs))
    decreases |docs|
  {
    if docs != [] {
      var n := |docs|;
      var p := docs[..n - 1];
      var last := docs[n - 1];
      assert docs == p + [last];
      DedupFirstOccurrence(p);
      PrefixFirstOccurrences(p, last);
      var prefix := DedupByContent(p);
      var r := DedupByContent(docs);
      if last.content in Contents(prefix) {
        assert r == prefix;
      } else {
        assert r == prefix + [last];
        assert last.content !in Contents(p);
        NewContentFirst(p, last);
        forall i | 0 <= i < |r|
          ensures r[i].content in Contents(docs) && r[i] == docs[FirstContent(docs, r[i].content)]
        {
          if i < |prefix| {
            assert r[i] == prefix[i];
          } else {
            assert r[i] == last;
          }
        }
      }
    }
  }

  /** Kept documents appear in the order of their first occurrences. */
  lemma {:induction false} DedupFirstOccurrenceOrder(docs: seq<WorkflowDocument>)
    ensures InFirstOccurrenceOrder(docs, DedupByContent(docs))
    decreases |docs|
  {
    if docs != [] {
      var n := |docs|;
      var p := docs[..n - 1];
      var last := docs[n - 1];
      assert docs == p + [last];
      DedupFirstOccurrenceOrder(p);
      DedupFirstOccurrence(p);
      PrefixFirstOccurrences(p, last);
      var prefix := DedupByContent(p);
      var r := DedupByContent(docs);
      if last.content in Contents(prefix) {
        assert r == prefix;
        forall i, j | 0 <= i < j < |r|
          ensures FirstContent(docs, r[i].content) < FirstContent(docs, r[j].content)
        {
          assert FirstContent(p, prefix[i].content) < FirstContent(p, prefix[j].content);
        }
      } else {
        assert r == prefix + [last];
        assert last.content !in Contents(p);
        NewContentFirst(p, last);
        forall i, j | 0 <= i < j < |r|
          ensures r[i].content in Contents(docs) && r[j].content in Contents(docs)
          ensures FirstContent(docs, r[i].content) < FirstContent(docs, r[j].content)
        {
          assert r[i] == prefix[i];
          if j == |prefix| {
            assert r[j] == last;
          } else {
            assert r[j] == prefix[j];
            assert FirstContent(p, prefix[i].content) < FirstContent(p, prefix[j].content);
          }
        }
      }
    }
  }

  /** The queries of multi-query retrieval: the original one and at most the first two variations. */
  function MultiQueries(query: string, expansion: ExpandedQueries): (queries: seq<string>)
    ensures |queries| == 1 + Ranking.Min(MULTI_QUERY_VARIATIONS, |expansion.variations|) && queries[0] == query
    ensures forall i :: 1 <= i < |queries| ==> i - 1 < |expansion.variations| && queries[i] == expansion.variations[i - 1].query
  {
    var taken := expansion.variations[..Ranking.Min(MULTI_QUERY_VARIATIONS, |expansion.variations|)];
    [query] + seq(|taken|, i requires 0 <= i < |taken| => taken[i].query)
  }

  /** The expansion multi-query retrieval asks for: no gaps, iteration count 0. */
  function MultiExpansion(oracles: WorkflowOracles, query: string): ExpandedQueries
  {
    QueryExpander.ExpandQuery(oracles.multiExpander,
      QueryExpander.ExpansionOptions(query, None, Some(0), None))
  }

  /** What retrieval yields for each query, in the order of the queries. */
  function RetrievedAll(oracles: WorkflowOracles, queries: seq<string>): (r: seq<seq<WorkflowDocument>>)
    ensures |r| == |queries|
  {
    if queries == [] then []
    else RetrievedAll(oracles, queries[..|queries| - 1]) + [Retrieved(oracles, queries[|queries| - 1])]
  }

  /** The searches `Promise.all` starts, taken one after the other. */
  method RetrieveAll(oracles: WorkflowOracles, queries: seq<string>) returns (allResults: seq<seq<WorkflowDocument>>)
    ensures allResults == RetrievedAll(oracles, queries)
  {
    allResults := [];
    var k := 0;
    while k < |queries|
      invariant 0 <= k <= |queries|
      invariant allResults == RetrievedAll(oracles, queries[..k])
    {
      var docs := RetrieveDocuments(oracles, queries[k]);
      assert RetrievedAll(oracles, queries[..k + 1]) == allResults + [docs] by {
        assert queries[..k + 1][..k] == queries[..k];
        assert queries[..k + 1][k] == queries[k];
      }
      allResults := allResults + [docs];
      k := k + 1;
    }
    assert queries[..k] == queries;
  }

  /** The nested loop over the result lists with a set of seen contents. */
  method DedupResults(allResults: seq<seq<WorkflowDocument>>) returns (uniqueDocs: seq<WorkflowDocument>)
    ensures uniqueDocs == DedupByContent(Flatten(allResults))
  {
    var seen: set<string> := {};
    uniqueDocs := [];
    var i := 0;
    while i < |allResults|
      invariant 0 <= i <= |allResults|
      invariant uniqueDocs == DedupByContent(Flatten(allResults[..i]))
      invariant seen == Contents(uniqueDocs)
    {
      var docs := allResults[i];
      var j := 0;
      ghost var before := Flatten(allResults[..i]);
      assert before + docs[..0] == before;
      while j < |docs|
        invariant 0 <= j <= |docs|
        invariant uniqueDocs == DedupByContent(before + docs[..j])
        invariant seen == Contents(uniqueDocs)
      {
        var doc := docs[j];
        ghost var prev := before + docs[..j];
        assert before + docs[..j + 1] == prev + [doc];
        DedupStep(prev, doc);
        if doc.content !in seen {
          ContentsAppend(uniqueDocs, doc);
          seen := seen + {doc.content};
          uniqueDocs := uniqueDocs + [doc];
        }
        assert uniqueDocs == DedupByContent(prev + [doc]);
        j := j + 1;
      }
      assert allResults[..i + 1][..i] == allResults[..i];
      assert docs[..j] == docs;
      assert Flatten(allResults[..i + 1]) == before + docs;
      i := i + 1;
    }
    assert allResults[..i] == allResults;
  }

  /** `performMultiQueryRetrieval`: retrieval for each query in order, then deduplication by content. */
  method PerformMultiQueryRetrieval(oracles: WorkflowOracles, query: string) returns (uniqueDocs: seq<WorkflowDocument>)
    ensures uniqueDocs == DedupByContent(Flatten(RetrievedAll(oracles, MultiQueries(query, MultiExpansion(oracles, query)))))
  {
    var queries := MultiQueries(query, MultiExpansion(oracles, query));
    var allResults := RetrieveAll(oracles, queries);
    uniqueDocs := DedupResults(allResults);
  }

  // ---------------------------------------------------------------------------------------------
  // The evaluator call

  const JOIN_TYPE_ERROR := "query.join is not a function"

  /**
   * The evaluator as the workflow calls it: with the current query as one string where a list is
   * expected. Building the prompt calls `query.join`, which a string lacks, so the call throws
   * before the model is asked, whatever the inputs.
   */
  function EvaluateAsWritten(model: RetrievalEvaluator.EvaluatorModel, query: string, documents: seq<WorkflowDocument>): (r: Result<RetrievalEvaluator.EvaluatedRetrieval>)
    ensures r == Failure(JOIN_TYPE_ERROR)
  {
    Failure(JOIN_TYPE_ERROR)
  }

  /** A workflow document handed to the evaluator: its content as the page content, no id. */
  function AsEvaluatorDocuments(documents: seq<WorkflowDocument>): (r: seq<Document>)
    ensures |r| == |documents|
    ensures forall i :: 0 <= i < |r| ==> r[i].pageContent == documents[i].content && r[i].source == documents[i].source && r[i].id.None?
  {
    seq(|documents|, i requires 0 <= i < |documents| => Document(i, None, documents[i].content, documents[i].source))
  }

  /** The evaluator call as intended: the current query as a one-element list of tried queries. */
  function EvaluateCorrected(model: RetrievalEvaluator.EvaluatorModel, query: string, documents: seq<WorkflowDocument>): (r: Result<RetrievalEvaluator.EvaluatedRetrieval>)
    ensures var output := model(RetrievalEvaluator.SYSTEM_PROMPT,
        RetrievalEvaluator.EvaluationPrompt([query], AsEvaluatorDocuments(documents)));
      && (r.Success? <==> output.Some? && ValidEvaluation(output.value))
      && (r.Success? ==> r.value.evaluation == output.value)
  {
    RetrievalEvaluator.EvaluateRetrieval(model, [query], AsEvaluatorDocuments(documents))
  }

  /** The call as written fails for every model and input, while the corrected one succeeds whenever the model answers validly. */
  lemma EvaluationDiscrepancy(model: RetrievalEvaluator.EvaluatorModel, query: string, documents: seq<WorkflowDocument>)
    requires var output := model(RetrievalEvaluator.SYSTEM_PROMPT,
        RetrievalEvaluator.EvaluationPrompt([query], AsEvaluatorDocuments(documents)));
      output.Some? && ValidEvaluation(output.value)
    ensures EvaluateAsWritten(model, query, documents).Failure?
    ensures EvaluateCorrected(model, query, documents).Success?
  {
  }

  // ---------------------------------------------------------------------------------------------
  // The mutable state and the loop

  /** Stop only when the verdict is sufficient and the confidence reaches the threshold. */
  function ShouldStopIteration(evaluation: Evaluation, confidenceThreshold: real): (stop: bool)
    ensures stop <==> evaluation.isSufficient && evaluation.confidence >= confidenceThreshold
  {
    evaluation.confidence >= confidenceThreshold && evaluation.isSufficient
  }

  /** A sufficient verdict below the threshold does not stop the loop, unlike the pipeline's test. */
  lemma SufficientBelowThresholdContinues(evaluation: Evaluation, confidenceThreshold: real)
    requires evaluation.isSufficient && evaluation.confidence < confidenceThreshold
    ensures !ShouldStopIteration(evaluation, confidenceThreshold)
  {
  }

  /** The settings the loop reads: the confidence threshold and the iteration limit. */
  datatype Settings = Settings(threshold: real, maxIterations: int)

  /** A snapshot of the workflow's state object. */
  datatype StateValue = StateValue(
    currentQuery: string,
    documents: seq<WorkflowDocument>,
    evaluation: Option<Evaluation>,
    iteration: int,
    queryExpansions: seq<string>,
    triedQueries: seq<string>)

  /** The state the workflow starts from: the query current and tried, nothing retrieved or evaluated. */
  function InitialState(query: string): StateValue
  {
    StateValue(query, [], None, 0, [], [query])
  }

  class RagState {
    var currentQuery: string
    var documents: seq<WorkflowDocument>
    var evaluation: Option<Evaluation>
    var iteration: int
    var queryExpansions: seq<string>
    /** A `Set<string>` in insertion order. */
    var triedQueries: seq<string>

    function Value(): StateValue
      reads this
    {
      StateValue(currentQuery, documents, evaluation, iteration, queryExpansions, triedQueries)
    }

    constructor(query: string)
      ensures Value() == InitialState(query)
    {
      currentQuery := query;
      documents := [];
      evaluation := None;
      iteration := 0;
      queryExpansions := [];
      triedQueries := [query];
    }

    /** Moves on to the next iteration; everything else stays. */
    method Advance()
      modifies this
      ensures Value() == old(Value()).(iteration := old(iteration) + 1)
    {
      iteration := iteration + 1;
    }

    /** Stores the latest evaluation; everything else stays. */
    method SetEvaluation(e: Evaluation)
      modifies this
      ensures Value() == old(Value()).(evaluation := Some(e))
    {
      evaluation := Some(e);
    }

    /** Records `query` as an expansion, marks it tried and makes it current. */
    method Expand(query: string)
      modifies this
      ensures Value() == Expanded(old(Value()), query)
    {
      queryExpansions := queryExpansions + [query];
      triedQueries := Add(triedQueries, query);
      currentQuery := query;
    }
  }

  /** `query` recorded as an expansion, marked tried and made current. */
  function Expanded(s: StateValue, query: string): StateValue
  {
    s.(currentQuery := query, queryExpansions := s.queryExpansions + [query], triedQueries := Add(s.triedQueries, query))
  }

  /** The current query: the last expansion, or the original query before any. */
  function LastQuery(query: string, expansions: seq<string>): string
  {
    if expansions == [] then query else expansions[|expansions| - 1]
  }

  /** The tried queries after `expansions`: the original query, then each expansion added in turn. */
  function TriedAfter(query: string, expansions: seq<string>): seq<string>
  {
    if expansions == [] then [query]
    else Add(TriedAfter(query, expansions[..|expansions| - 1]), expansions[|expansions| - 1])
  }

  /** Adding the expansions in turn is adding them all to `Set([query])`. */
  lemma {:induction false} TriedAfterAddAll(query: string, expansions: seq<string>)
    ensures TriedAfter(query, expansions) == AddAll([query], expansions)
    decreases |expansions|
  {
    if expansions != [] {
      var n := |expansions|;
      var prefix, last := expansions[..n - 1], expansions[n - 1];
      calc {
        TriedAfter(query, expansions);
        Add(TriedAfter(query, prefix), last);
        { TriedAfterAddAll(query, prefix); }
        Add(AddAll([query], prefix), last);
        { AddAllSnoc([query], prefix, last); }
        AddAll([query], prefix + [last]);
        { assert prefix + [last] == expansions; }
        AddAll([query], expansions);
      }
    }
  }

  /** The tried queries hold no duplicates and are exactly the query and its expansions. */
  lemma TriedAfterSet(query: string, expansions: seq<string>)
    ensures NoDup(TriedAfter(query, expansions))
    ensures Elems(TriedAfter(query, expansions)) == {query} + Elems(expansions)
  {
    TriedAfterAddAll(query, expansions);
    assert NoDup([query]) && Elems([query]) == {query};
  }

  /** One more expansion adds it to the tried queries. */
  lemma TriedAfterSnoc(query: string, expansions: seq<string>, q: string)
    ensures TriedAfter(query, expansions + [q]) == Add(TriedAfter(query, expansions), q)
  {
    assert (expansions + [q])[..|expansions|] == expansions;
  }

  function TelemetryLists(telemetry: RagTelemetryCollector?): set<object>
  {
    if telemetry == null then {} else {telemetry.iterations, telemetry.queryExpansions}
  }

  function ExpansionReason(iteration: int, reasoning: string): string
  {
    "Iteration " + IntToString(iteration + 1) + ": " + reasoning
  }

  /** The query the expander proposes at an iteration, from the gaps the evaluation named. */
  function NextQuery(oracles: WorkflowOracles, iteration: int, currentQuery: string, evaluation: Evaluation,
                     triedQueries: seq<string>): (r: Result<string>)
    ensures r.Failure? ==> r.error == QueryExpander.NO_VARIATIONS
  {
    QueryExpander.SelectBestQuery(
      QueryExpander.ExpandQuery(oracles.expanders(iteration),
        QueryExpander.ExpansionOptions(currentQuery, Some(evaluation.gaps), Some(iteration), None)),
      triedQueries)
  }

  /** Logs one expansion when a collector is present. */
  method RecordExpansion(telemetry: RagTelemetryCollector?, clock: Clock, fromQuery: string, toQuery: string, reason: string)
    modifies clock, if telemetry == null then {} else {telemetry.queryExpansions}
    ensures telemetry != null ==> |telemetry.queryExpansions.items| == |old(telemetry.queryExpansions.items)| + 1
  {
    if telemetry != null {
      var now := clock.Now();
      telemetry.RecordQueryExpansion(fromQuery, toQuery, reason, now);
    }
  }

  /** What `performRetrieval` stores: multi-query retrieval on iteration 0 when enabled, single-query retrieval otherwise. */
  function Retrieval(oracles: WorkflowOracles, enableMultiQuery: bool, iteration: int, query: string): seq<WorkflowDocument>
  {
    if enableMultiQuery && iteration == 0 then
      DedupByContent(Flatten(RetrievedAll(oracles, MultiQueries(query, MultiExpansion(oracles, query)))))
    else Retrieved(oracles, query)
  }

  /**
   * The multi-query retrieval holds no two documents with the same content; the single-query one
   * holds at most the fused top five.
   */
  lemma RetrievalFacts(oracles: WorkflowOracles, enableMultiQuery: bool, iteration: int, query: string)
    ensures var docs := Retrieval(oracles, enableMultiQuery, iteration, query);
      && (enableMultiQuery && iteration == 0 ==> DistinctContents(docs))
      && (!(enableMultiQuery && iteration == 0) ==> |docs| <= Ranking.FINAL_TOP_K)
  {
    if enableMultiQuery && iteration == 0 {
      DedupDistinct(Flatten(RetrievedAll(oracles, MultiQueries(query, MultiExpansion(oracles, query)))));
    }
  }

  /** The evaluator's verdict as the workflow keeps it: the evaluation alone, or the evaluator's error. */
  function Verdict(oracles: WorkflowOracles, iteration: int, query: string, documents: seq<WorkflowDocument>): (r: Result<Evaluation>)
    ensures var evaluated := EvaluateCorrected(oracles.evaluators(iteration), query, documents);
      && (r.Success? <==> evaluated.Success?)
      && (r.Success? ==> r.value == evaluated.value.evaluation && ValidEvaluation(r.value))
      && (r.Failure? ==> r.error == RetrievalEvaluator.INVALID_OUTPUT)
  {
    var evaluated := EvaluateCorrected(oracles.evaluators(iteration), query, documents);
    if evaluated.Failure? then Failure(evaluated.error) else Success(evaluated.value.evaluation)
  }

  /**
   * What one iteration calls on: the documents retrieved for a query at an iteration, the
   * evaluator's verdict on documents, and the expander's pick of the next query.
   */
  datatype Collaborators = Collaborators(
    retrieve: (int, string) -> seq<WorkflowDocument>,
    evaluate: (int, string, seq<WorkflowDocument>) -> Result<Evaluation>,
    expand: (int, string, Evaluation, seq<string>) -> Result<string>)

  /** The collaborators over these oracles, with multi-query retrieval on iteration 0 when enabled. */
  function Over(oracles: WorkflowOracles, enableMultiQuery: bool): Collaborators
  {
    Collaborators(
      (i, q) => Retrieval(oracles, enableMultiQuery, i, q),
      (i, q, d) => Verdict(oracles, i, q, d),
      (i, q, e, tried) => NextQuery(oracles, i, q, e, tried))
  }

  /**
   * `c` answers as the collaborators over these oracles do. Each equation is used only where the
   * oracle side already occurs, so a proof about `c` does not unfold the oracles.
   */
  ghost predicate Ties(c: Collaborators, oracles: WorkflowOracles, enableMultiQuery: bool)
  {
    && (forall i, q {:trigger Retrieval(oracles, enableMultiQuery, i, q)} ::
          c.retrieve(i, q) == Retrieval(oracles, enableMultiQuery, i, q))
    && (forall i, q, d {:trigger Verdict(oracles, i, q, d)} :: c.evaluate(i, q, d) == Verdict(oracles, i, q, d))
    && (forall i, q, e, tried {:trigger NextQuery(oracles, i, q, e, tried)} ::
          c.expand(i, q, e, tried) == NextQuery(oracles, i, q, e, tried))
  }

  lemma OverTies(oracles: WorkflowOracles, enableMultiQuery: bool)
    ensures Ties(Over(oracles, enableMultiQuery), oracles, enableMultiQuery)
  {
  }

  lemma OverRetrieveEvaluate(oracles: WorkflowOracles, enableMultiQuery: bool, iteration: int, query: string)
    ensures var c := Over(oracles, enableMultiQuery);
      var documents := Retrieval(oracles, enableMultiQuery, iteration, query);
      c.retrieve(iteration, query) == documents && c.evaluate(iteration, query, documents) == Verdict(oracles, iteration, query, documents)
  {
  }

  lemma OverExpand(oracles: WorkflowOracles, enableMultiQuery: bool, iteration: int, query: string, evaluation: Evaluation,
                   tried: seq<string>)
    ensures Over(oracles, enableMultiQuery).expand(iteration, query, evaluation, tried)
      == NextQuery(oracles, iteration, query, evaluation, tried)
  {
  }

  /** The collaborators fail only with the evaluator's rejection or the expander's empty pick. */
  ghost predicate ReportsErrors(c: Collaborators)
  {
    && (forall i, q, d :: c.evaluate(i, q, d).Failure? ==> c.evaluate(i, q, d).error == RetrievalEvaluator.INVALID_OUTPUT)
    && (forall i, q, e, tried :: c.expand(i, q, e, tried).Failure? ==> c.expand(i, q, e, tried).error == QueryExpander.NO_VARIATIONS)
  }

  lemma OverReportsErrors(oracles: WorkflowOracles, enableMultiQuery: bool)
    ensures ReportsErrors(Over(oracles, enableMultiQuery))
  {
    var c := Over(oracles, enableMultiQuery);
    forall i, q, d ensures c.evaluate(i, q, d).Failure? ==> c.evaluate(i, q, d).error == RetrievalEvaluator.INVALID_OUTPUT {
      assert c.evaluate(i, q, d) == Verdict(oracles, i, q, d);
    }
    forall i, q, e, tried
      ensures c.expand(i, q, e, tried).Failure? ==> c.expand(i, q, e, tried).error == QueryExpander.NO_VARIATIONS
    {
      OverExpand(oracles, enableMultiQuery, i, q, e, tried);
    }
  }

  /** Retrieval then evaluation from state `s`: its documents and evaluation replaced, or the evaluator's error. */
  function Evaluated(c: Collaborators, s: StateValue): Result<StateValue>
  {
    var documents := c.retrieve(s.iteration, s.currentQuery);
    var verdict := c.evaluate(s.iteration, s.currentQuery, documents);
    if verdict.Failure? then Failure(verdict.error)
    else Success(s.(documents := documents, evaluation := Some(verdict.value)))
  }

  /**
   * The expansion step from `s`: nothing without an evaluation or on the last allowed iteration;
   * otherwise the expander's pick expands the state, or its error ends the step.
   */
  function Expansion(c: Collaborators, maxIterations: int, s: StateValue): Result<StateValue>
  {
    if s.evaluation.None? || s.iteration >= maxIterations - 1 then Success(s)
    else
      var selected := c.expand(s.iteration, s.currentQuery, s.evaluation.value, s.triedQueries);
      if selected.Failure? then Failure(selected.error) else Success(Expanded(s, selected.value))
  }

  /** How the loop left its last iteration: by stopping, or by running out of iterations. */
  datatype LoopEnd = LoopEnd(stopped: bool, state: StateValue)

  /**
   * `performIteration` from state `s`: retrieve and evaluate; stop on a sufficient and confident
   * verdict; otherwise try to expand the query.
   */
  function Iteration(c: Collaborators, settings: Settings, s: StateValue): Result<LoopEnd>
  {
    var evaluated := Evaluated(c, s);
    if evaluated.Failure? then Failure(evaluated.error)
    else
      var t := evaluated.value;
      if ShouldStopIteration(t.evaluation.value, settings.threshold) then Success(LoopEnd(true, t))
      else
        var expanded := Expansion(c, settings.maxIterations, t);
        if expanded.Failure? then Failure(expanded.error) else Success(LoopEnd(false, expanded.value))
  }

  /**
   * What a successful iteration from `s` does to the state, whatever the collaborators answer: the
   * counter stays, an evaluation is stored, the iteration stops exactly on a sufficient and
   * confident verdict, and one that does not stop expands the query exactly when it was not the
   * last allowed iteration, and otherwise leaves the queries alone.
   */
  predicate Keeps(settings: Settings, s: StateValue, r: Result<LoopEnd>)
  {
    r.Success? ==>
      var t := r.value.state;
      && t.iteration == s.iteration && t.evaluation.Some?
      && (r.value.stopped <==> ShouldStopIteration(t.evaluation.value, settings.threshold))
      && (if !r.value.stopped && s.iteration < settings.maxIterations - 1 then
            t.queryExpansions == s.queryExpansions + [t.currentQuery] && t.triedQueries == Add(s.triedQueries, t.currentQuery)
          else
            t.queryExpansions == s.queryExpansions && t.triedQueries == s.triedQueries && t.currentQuery == s.currentQuery)
  }

  /** State `t` holds the documents retrieved for `query` at `iteration` and the evaluator's accepted verdict on them. */
  predicate EvaluatedFrom(c: Collaborators, iteration: int, query: string, t: StateValue)
  {
    && t.documents == c.retrieve(iteration, query)
    && t.evaluation.Some?
    && c.evaluate(iteration, query, t.documents) == Success(t.evaluation.value)
  }

  /** An iteration moves the state as `Keeps` says. */
  lemma IterationKeeps(c: Collaborators, settings: Settings, s: StateValue)
    ensures Keeps(settings, s, Iteration(c, settings, s))
  {
  }

  /**
   * The documents and the evaluation an iteration leaves are those of its own retrieval and the
   * evaluator's accepted verdict on them; a rejected evaluation ends it with the evaluator's error.
   */
  lemma IterationEvaluates(c: Collaborators, settings: Settings, s: StateValue)
    ensures var r := Iteration(c, settings, s);
      r.Success? ==> EvaluatedFrom(c, s.iteration, s.currentQuery, r.value.state)
    ensures var verdict := c.evaluate(s.iteration, s.currentQuery, c.retrieve(s.iteration, s.currentQuery));
      verdict.Failure? ==> Iteration(c, settings, s) == Failure(verdict.error)
  {
  }

  /** An iteration fails only with one of its collaborators' errors. */
  lemma IterationErrors(c: Collaborators, settings: Settings, s: StateValue)
    requires ReportsErrors(c)
    ensures var r := Iteration(c, settings, s);
      r.Failure? ==> r.error in {RetrievalEvaluator.INVALID_OUTPUT, QueryExpander.NO_VARIATIONS}
  {
  }

  /** One iteration of the loop as a function of the state. */
  type IterationFn = StateValue -> Result<LoopEnd>

  /**
   * The loop from state `s` on: below the limit, an iteration that fails ends the loop with its
   * error, one that stops ends it in its state, and any other moves on with the counter advanced.
   */
  function LoopFrom(iterate: IterationFn, maxIterations: int, s: StateValue): Result<LoopEnd>
    decreases maxIterations - s.iteration
  {
    if s.iteration >= maxIterations then Success(LoopEnd(false, s))
    else
      var r := iterate(s);
      if r.Failure? then Failure(r.error)
      else if r.value.stopped then r
      else LoopFrom(iterate, maxIterations, r.value.state.(iteration := s.iteration + 1))
  }

  /** The iterations of the workflow over these collaborators and settings. */
  function Iterate(c: Collaborators, settings: Settings): IterationFn
  {
    s => Iteration(c, settings, s)
  }

  lemma IterateAt(c: Collaborators, settings: Settings, s: StateValue)
    ensures Iterate(c, settings)(s) == Iteration(c, settings, s)
  {
  }

  /** The loop of `runSelfReflectingRAG` from the initial state. */
  function Loop(c: Collaborators, settings: Settings, query: string): Result<LoopEnd>
  {
    LoopFrom(Iterate(c, settings), settings.maxIterations, InitialState(query))
  }

  /** As written: the loop counter plus one, whether or not the loop ended by stopping. */
  function IterationsPerformedAsWritten(finalIteration: int): int
  {
    finalIteration + 1
  }

  /** Corrected: the iterations that actually ran; the counter was not advanced on the one that stopped. */
  function IterationsPerformed(finalIteration: int, stopped: bool): (n: int)
    ensures stopped ==> n == finalIteration + 1
    ensures !stopped ==> n == finalIteration
  {
    if stopped then finalIteration + 1 else finalIteration
  }

  /**
   * When the loop runs out without stopping, the as-written count is one more than the number of
   * iterations run (for example 4 after the default 3), and a non-positive limit reports 1 with none run.
   */
  lemma IterationCountDiscrepancy(maxIterations: int)
    ensures maxIterations >= 0 ==> IterationsPerformedAsWritten(maxIterations) == IterationsPerformed(maxIterations, false) + 1
    ensures maxIterations <= 0 ==> IterationsPerformedAsWritten(0) == 1 && IterationsPerformed(0, false) == 0
    ensures IterationsPerformedAsWritten(MAX_ITERATIONS) == 4
  {
  }

  /** The result object built from the state the loop ended in; the defaults when nothing was evaluated. */
  function ResultOf(end: LoopEnd): SelfReflectingRagResult
  {
    var s := end.state;
    SelfReflectingRagResult(
      s.documents,
      s.currentQuery,
      IterationsPerformed(s.iteration, end.stopped),
      if s.evaluation.Some? then s.evaluation.value.confidence else 0.0,
      if s.evaluation.Some? then s.evaluation.value.isSufficient else false,
      s.queryExpansions,
      if s.evaluation.Some? then s.evaluation.value.reasoning else "")
  }

  /** What `runSelfReflectingRAG(options)` returns over these oracles, or the error it throws. */
  function Workflow(oracles: WorkflowOracles, options: SelfReflectingRagOptions): Result<SelfReflectingRagResult>
  {
    WorkflowWith(Over(oracles, options.MultiQuery()), options.LoopSettings(), options.query)
  }

  /** The workflow's result over the collaborators `c`, or the error that ended its loop. */
  function WorkflowWith(c: Collaborators, settings: Settings, query: string): Result<SelfReflectingRagResult>
  {
    var r := Loop(c, settings, query);
    if r.Failure? then Failure(r.error) else Success(ResultOf(r.value))
  }

  // ---------------------------------------------------------------------------------------------
  // What the loop computes

  /** The expansions made before iteration `iteration` starts: one per earlier iteration, none on or after the last allowed one. */
  function ExpansionsBefore(iteration: int, maxIterations: int): nat
  {
    if iteration < maxIterations - 1 then State.Max0(iteration) else State.Max0(maxIterations - 1)
  }

  /**
   * The state at the top of the loop, `iteration` iterations in with none stopped: the queries are
   * the original and one expansion per earlier iteration that was not the last allowed one; before
   * any iteration nothing is retrieved or evaluated, and when the limit is reached the last
   * iteration's documents and verdict are still held.
   */
  predicate LoopTop(c: Collaborators, settings: Settings, query: string, s: StateValue)
  {
    && 0 <= s.iteration <= State.Max0(settings.maxIterations)
    && |s.queryExpansions| == ExpansionsBefore(s.iteration, settings.maxIterations)
    && s.currentQuery == LastQuery(query, s.queryExpansions)
    && s.triedQueries == TriedAfter(query, s.queryExpansions)
    && (s.iteration == 0 ==> s.evaluation.None? && s.documents == [])
    && (0 < s.iteration == settings.maxIterations ==> EvaluatedFrom(c, s.iteration - 1, s.currentQuery, s))
  }

  /**
   * How the loop ends, counted in iterations performed `n`: at most the limit, one expansion per
   * iteration but the last, the final query the last expansion, a stop only on a sufficient and
   * confident verdict and otherwise the limit reached; with no iteration nothing is held, and
   * after one the documents and the verdict are those of the last iteration's retrieval for the final query.
   */
  predicate LoopEnded(c: Collaborators, settings: Settings, query: string, e: LoopEnd)
  {
    var t := e.state;
    var n := IterationsPerformed(t.iteration, e.stopped);
    && 0 <= n <= State.Max0(settings.maxIterations)
    && |t.queryExpansions| == State.Max0(n - 1)
    && t.currentQuery == LastQuery(query, t.queryExpansions)
    && (e.stopped ==> t.evaluation.Some? && ShouldStopIteration(t.evaluation.value, settings.threshold))
    && (!e.stopped ==> n == State.Max0(settings.maxIterations))
    && (n == 0 ==> t.evaluation.None? && t.documents == [])
    && (n > 0 ==> EvaluatedFrom(c, n - 1, t.currentQuery, t))
  }

  /** The workflow starts at the top of the loop. */
  lemma InitialTop(c: Collaborators, settings: Settings, query: string)
    ensures LoopTop(c, settings, query, InitialState(query))
  {
  }

  /** At the limit the loop ends where it is. */
  lemma TopAtLimit(c: Collaborators, settings: Settings, query: string, s: StateValue)
    requires LoopTop(c, settings, query, s) && s.iteration >= settings.maxIterations
    ensures LoopEnded(c, settings, query, LoopEnd(false, s))
  {
  }

  /**
   * From the top of the loop below the limit, an iteration either fails with a collaborator's
   * error, stops in a final state, or leads to the top of the loop one iteration on.
   */
  lemma TopStep(c: Collaborators, settings: Settings, query: string, s: StateValue)
    requires ReportsErrors(c)
    requires LoopTop(c, settings, query, s) && s.iteration < settings.maxIterations
    ensures var r := Iteration(c, settings, s);
      && (r.Failure? ==> r.error in {RetrievalEvaluator.INVALID_OUTPUT, QueryExpander.NO_VARIATIONS})
      && (r.Success? && r.value.stopped ==> LoopEnded(c, settings, query, r.value))
      && (r.Success? && !r.value.stopped ==> LoopTop(c, settings, query, r.value.state.(iteration := s.iteration + 1)))
  {
    IterationErrors(c, settings, s);
    TopStepStops(c, settings, query, s);
    TopStepContinues(c, settings, query, s);
  }

  /** An iteration from the top of the loop that stops ends the loop as `LoopEnded` says. */
  lemma TopStepStops(c: Collaborators, settings: Settings, query: string, s: StateValue)
    requires LoopTop(c, settings, query, s) && s.iteration < settings.maxIterations
    ensures var r := Iteration(c, settings, s);
      r.Success? && r.value.stopped ==> LoopEnded(c, settings, query, r.value)
  {
    IterationKeeps(c, settings, s);
    IterationEvaluates(c, settings, s);
  }

  /** An iteration from the top of the loop that goes on leads to the top of the loop one iteration on. */
  lemma TopStepContinues(c: Collaborators, settings: Settings, query: string, s: StateValue)
    requires LoopTop(c, settings, query, s) && s.iteration < settings.maxIterations
    ensures var r := Iteration(c, settings, s);
      r.Success? && !r.value.stopped ==> LoopTop(c, settings, query, r.value.state.(iteration := s.iteration + 1))
  {
    var r := Iteration(c, settings, s);
    IterationKeeps(c, settings, s);
    IterationEvaluates(c, settings, s);
    if r.Success? && !r.value.stopped {
      TopAdvance(c, settings, query, s, r.value.state);
    }
  }

  /**
   * A state `t` that an iteration from the top of the loop left without stopping (expanded unless
   * it was the last allowed iteration, and evaluated) is at the top of the loop once advanced.
   */
  lemma TopAdvance(c: Collaborators, settings: Settings, query: string, s: StateValue, t: StateValue)
    requires LoopTop(c, settings, query, s) && s.iteration < settings.maxIterations
    requires t.iteration == s.iteration
    requires EvaluatedFrom(c, s.iteration, s.currentQuery, t)
    requires if s.iteration < settings.maxIterations - 1 then
        t.queryExpansions == s.queryExpansions + [t.currentQuery] && t.triedQueries == Add(s.triedQueries, t.currentQuery)
      else
        t.queryExpansions == s.queryExpansions && t.triedQueries == s.triedQueries && t.currentQuery == s.currentQuery
    ensures LoopTop(c, settings, query, t.(iteration := s.iteration + 1))
  {
    if s.iteration < settings.maxIterations - 1 {
      TriedAfterSnoc(query, s.queryExpansions, t.currentQuery);
    }
  }

  /** From the top of the loop, the loop fails only with a collaborator's error and otherwise ends as `LoopEnded` says. */
  lemma {:induction false} LoopFromTop(c: Collaborators, settings: Settings, query: string, s: StateValue)
    requires ReportsErrors(c)
    requires LoopTop(c, settings, query, s)
    ensures var r := LoopFrom(Iterate(c, settings), settings.maxIterations, s);
      && (r.Failure? ==> r.error in {RetrievalEvaluator.INVALID_OUTPUT, QueryExpander.NO_VARIATIONS})
      && (r.Success? ==> LoopEnded(c, settings, query, r.value))
    decreases settings.maxIterations - s.iteration
  {
    if s.iteration >= settings.maxIterations {
      TopAtLimit(c, settings, query, s);
    } else {
      var r := Iteration(c, settings, s);
      IterateAt(c, settings, s);
      TopStep(c, settings, query, s);
      if r.Success? && !r.value.stopped {
        LoopFromTop(c, settings, query, r.value.state.(iteration := s.iteration + 1));
      }
    }
  }

  /** The loop from the initial state fails only with a collaborator's error and otherwise ends as `LoopEnded` says. */
  lemma LoopEnds(c: Collaborators, settings: Settings, query: string)
    requires ReportsErrors(c)
    ensures var r := Loop(c, settings, query);
      && (r.Failure? ==> r.error in {RetrievalEvaluator.INVALID_OUTPUT, QueryExpander.NO_VARIATIONS})
      && (r.Success? ==> LoopEnded(c, settings, query, r.value))
  {
    InitialTop(c, settings, query);
    LoopFromTop(c, settings, query, InitialState(query));
  }

  /**
   * The result of `runSelfReflectingRAG`: an error is the evaluator's or the expander's; otherwise
   * at most the limit of iterations, one expansion per iteration but the last, the final query the
   * last expansion, fewer iterations than the limit only after a sufficient and confident verdict,
   * and the defaults when no iteration ran.
   */
  lemma WorkflowShape(oracles: WorkflowOracles, options: SelfReflectingRagOptions)
    ensures var w := Workflow(oracles, options);
      w.Failure? ==> w.error in {RetrievalEvaluator.INVALID_OUTPUT, QueryExpander.NO_VARIATIONS}
    ensures var w := Workflow(oracles, options);
      w.Success? ==>
        var r := w.value;
        var n := r.iterationsPerformed;
        && 0 <= n <= State.Max0(options.MaxIterations())
        && |r.queryExpansions| == State.Max0(n - 1)
        && r.finalQuery == LastQuery(options.query, r.queryExpansions)
        && (n < State.Max0(options.MaxIterations()) ==> r.isSufficient && r.finalConfidence >= options.Threshold())
        && (n == 0 ==> r.documents == [] && r.finalConfidence == 0.0 && !r.isSufficient && r.evaluationReasoning == "")
  {
    OverReportsErrors(oracles, options.MultiQuery());
    LoopEnds(Over(oracles, options.MultiQuery()), options.LoopSettings(), options.query);
  }

  /**
   * After at least one iteration, the result's documents are those retrieved for the final query
   * in the last iteration, and its confidence, verdict and reasoning are the evaluator's on them.
   */
  lemma WorkflowLastEvaluation(oracles: WorkflowOracles, options: SelfReflectingRagOptions)
    ensures var w := Workflow(oracles, options);
      w.Success? && w.value.iterationsPerformed > 0 ==>
        var r := w.value;
        var last := r.iterationsPerformed - 1;
        var evaluated := EvaluateCorrected(oracles.evaluators(last), r.finalQuery, r.documents);
        && r.documents == Retrieval(oracles, options.MultiQuery(), last, r.finalQuery)
        && evaluated.Success?
        && r.finalConfidence == evaluated.value.evaluation.confidence
        && r.isSufficient == evaluated.value.evaluation.isSufficient
        && r.evaluationReasoning == evaluated.value.evaluation.reasoning
  {
    var c := Over(oracles, options.MultiQuery());
    var r := Loop(c, options.LoopSettings(), options.query);
    OverReportsErrors(oracles, options.MultiQuery());
    LoopEnds(c, options.LoopSettings(), options.query);
    if r.Success? && IterationsPerformed(r.value.state.iteration, r.value.stopped) > 0 {
      var t := r.value.state;
      EvaluatedOver(oracles, options.MultiQuery(), IterationsPerformed(t.iteration, r.value.stopped) - 1, t.currentQuery, t);
    }
  }

  /** A state evaluated by the collaborators over the oracles holds their retrieval and the evaluator's verdict. */
  lemma EvaluatedOver(oracles: WorkflowOracles, enableMultiQuery: bool, iteration: int, query: string, t: StateValue)
    requires EvaluatedFrom(Over(oracles, enableMultiQuery), iteration, query, t)
    ensures var evaluated := EvaluateCorrected(oracles.evaluators(iteration), query, t.documents);
      && t.documents == Retrieval(oracles, enableMultiQuery, iteration, query)
      && evaluated.Success? && t.evaluation == Some(evaluated.value.evaluation)
  {
    OverRetrieveEvaluate(oracles, enableMultiQuery, iteration, query);
  }

  /** The evaluator never judges documents sufficient. */
  ghost predicate NeverSufficient(oracles: WorkflowOracles)
  {
    forall i, q, d :: EvaluateCorrected(oracles.evaluators(i), q, d).Success? ==>
      !EvaluateCorrected(oracles.evaluators(i), q, d).value.evaluation.isSufficient
  }

  /**
   * When the evaluator never judges documents sufficient, a run that does not fail uses every
   * iteration allowed, expands the query after every one but the last, and reports insufficiency.
   */
  lemma WorkflowNeverSufficient(oracles: WorkflowOracles, options: SelfReflectingRagOptions)
    requires NeverSufficient(oracles)
    ensures var w := Workflow(oracles, options);
      w.Success? ==>
        && w.value.iterationsPerformed == State.Max0(options.MaxIterations())
        && !w.value.isSufficient
        && |w.value.queryExpansions| == State.Max0(options.MaxIterations() - 1)
  {
    WorkflowShape(oracles, options);
    WorkflowLastEvaluation(oracles, options);
  }

  /**
   * When the limit allows an iteration and the first evaluation is sufficient and confident, the
   * workflow reports one iteration, the original query, no expansion, and that evaluation.
   */
  lemma WorkflowSufficientFirst(oracles: WorkflowOracles, options: SelfReflectingRagOptions)
    requires options.MaxIterations() >= 1
    requires var documents := Retrieval(oracles, options.MultiQuery(), 0, options.query);
      var evaluated := EvaluateCorrected(oracles.evaluators(0), options.query, documents);
      evaluated.Success? && ShouldStopIteration(evaluated.value.evaluation, options.Threshold())
    ensures var documents := Retrieval(oracles, options.MultiQuery(), 0, options.query);
      var e := EvaluateCorrected(oracles.evaluators(0), options.query, documents).value.evaluation;
      Workflow(oracles, options) == Success(SelfReflectingRagResult(documents, options.query, 1, e.confidence, true, [], e.reasoning))
  {
    var c := Over(oracles, options.MultiQuery());
    var settings := options.LoopSettings();
    var s := InitialState(options.query);
    OverRetrieveEvaluate(oracles, options.MultiQuery(), 0, options.query);
    IterateAt(c, settings, s);
    assert Iteration(c, settings, s).Success?;
  }

  // ---------------------------------------------------------------------------------------------
  // The steps of the workflow on the state object

  /**
   * `expandAndSelectQuery`: without an evaluation or on the last allowed iteration nothing
   * happens; otherwise the expander's pick expands the state, or its error ends the step with the
   * state unchanged. A collector, when there is one, records each expansion.
   */
  method ExpandAndSelectQuery(state: RagState, maxIterations: int, telemetry: RagTelemetryCollector?,
                              oracles: WorkflowOracles, clock: Clock)
    returns (expanded: bool, failure: Option<string>)
    modifies state, clock, TelemetryLists(telemetry)
    ensures old(state.evaluation).None? || old(state.iteration) >= maxIterations - 1 ==>
      !expanded && failure.None? && state.Value() == old(state.Value())
    ensures old(state.evaluation).Some? && old(state.iteration) < maxIterations - 1 ==>
      var selected := NextQuery(oracles, old(state.iteration), old(state.currentQuery), old(state.evaluation).value,
        old(state.triedQueries));
      && (expanded <==> selected.Success?)
      && (failure.None? <==> selected.Success?)
      && (selected.Success? ==> state.Value() == Expanded(old(state.Value()), selected.value))
      && (selected.Failure? ==> failure == Some(selected.error) && state.Value() == old(state.Value()))
    ensures telemetry != null ==> unchanged(telemetry.iterations)
    ensures telemetry != null ==>
      |telemetry.queryExpansions.items| == |old(telemetry.queryExpansions.items)| + (if expanded then 1 else 0)
  {
    if state.evaluation.None? || state.iteration >= maxIterations - 1 {
      return false, None;
    }
    var selected := NextQuery(oracles, state.iteration, state.currentQuery, state.evaluation.value, state.triedQueries);
    if selected.Failure? {
      return false, Some(selected.error);
    }
    var newQuery := selected.value;
    RecordExpansion(telemetry, clock, state.currentQuery, newQuery,
      ExpansionReason(state.iteration, state.evaluation.value.reasoning));
    state.Expand(newQuery);
    expanded, failure := true, None;
  }

  /** `performRetrieval`: the documents become those `Retrieval` yields for the current query and iteration. */
  method PerformRetrieval(state: RagState, enableMultiQuery: bool, oracles: WorkflowOracles)
    modifies state
    ensures state.Value() == old(state.Value()).(documents :=
      Retrieval(oracles, enableMultiQuery, old(state.iteration), old(state.currentQuery)))
  {
    if enableMultiQuery && state.iteration == 0 {
      state.documents := PerformMultiQueryRetrieval(oracles, state.currentQuery);
    } else {
      state.documents := RetrieveDocuments(oracles, state.currentQuery);
    }
  }

  /** The evaluation step of `performIteration`: ask the evaluator (an error ends it) and record telemetry. */
  method EvaluateState(state: RagState, telemetry: RagTelemetryCollector?, oracles: WorkflowOracles, clock: Clock)
    returns (failure: Option<string>)
    modifies state, clock, TelemetryLists(telemetry)
    ensures var s := old(state.Value());
      var verdict := Verdict(oracles, s.iteration, s.currentQuery, s.documents);
      && (failure.None? <==> verdict.Success?)
      && (failure.None? ==> state.Value() == s.(evaluation := Some(verdict.value)))
      && (failure.Some? ==> failure.value == verdict.error && state.Value() == s)
    ensures telemetry != null ==> unchanged(telemetry.queryExpansions)
    ensures telemetry != null && failure.None? ==> |telemetry.iterations.items| == |old(telemetry.iterations.items)| + 1
  {
    var evaluated := EvaluateCorrected(oracles.evaluators(state.iteration), state.currentQuery, state.documents);
    if evaluated.Failure? {
      return Some(evaluated.error);
    }
    var evaluation := evaluated.value.evaluation;
    state.SetEvaluation(evaluation);
    if telemetry != null {
      var now := clock.Now();
      telemetry.RecordIteration(state.iteration + 1, state.currentQuery, evaluation, |state.documents|, now);
    }
    failure := None;
  }

  /** Retrieval followed by evaluation: the state moves as `Evaluated` says over the oracles. */
  method RetrieveAndEvaluate(state: RagState, enableMultiQuery: bool, telemetry: RagTelemetryCollector?,
                             oracles: WorkflowOracles, clock: Clock, ghost c: Collaborators)
    returns (failure: Option<string>)
    requires Ties(c, oracles, enableMultiQuery)
    modifies state, clock, TelemetryLists(telemetry)
    ensures var r := Evaluated(c, old(state.Value()));
      && (failure.None? <==> r.Success?)
      && (failure.None? ==> state.Value() == r.value)
      && (failure.Some? ==> failure.value == r.error)
    ensures telemetry != null ==> unchanged(telemetry.queryExpansions)
    ensures telemetry != null && failure.None? ==> |telemetry.iterations.items| == |old(telemetry.iterations.items)| + 1
  {
    PerformRetrieval(state, enableMultiQuery, oracles);
    failure := EvaluateState(state, telemetry, oracles, clock);
  }

  /**
   * `performIteration`: the verdict and the new state are those of `Iteration` over the oracles,
   * its error is the iteration's error, and `expanded` says whether the query was expanded.
   */
  method PerformIteration(state: RagState, enableMultiQuery: bool, confidenceThreshold: real, maxIterations: int,
                          telemetry: RagTelemetryCollector?, oracles: WorkflowOracles, clock: Clock, ghost c: Collaborators)
    returns (stop: bool, expanded: bool, failure: Option<string>)
    requires Ties(c, oracles, enableMultiQuery)
    modifies state, clock, TelemetryLists(telemetry)
    ensures var r := Iteration(c, Settings(confidenceThreshold, maxIterations), old(state.Value()));
      && (failure.None? <==> r.Success?)
      && (failure.None? ==> r.value == LoopEnd(stop, state.Value()))
      && (failure.Some? ==> failure.value == r.error)
    ensures failure.None? ==> |state.queryExpansions| == |old(state.queryExpansions)| + (if expanded then 1 else 0)
    ensures telemetry != null && failure.None? ==> |telemetry.iterations.items| == |old(telemetry.iterations.items)| + 1
    ensures telemetry != null ==>
      |telemetry.queryExpansions.items| == |old(telemetry.queryExpansions.items)| + (if expanded then 1 else 0)
  {
    failure := RetrieveAndEvaluate(state, enableMultiQuery, telemetry, oracles, clock, c);
    if failure.Some? {
      return false, false, failure;
    }
    if ShouldStopIteration(state.evaluation.value, confidenceThreshold) {
      return true, false, None;
    }
    expanded, failure := ExpandAndSelectQuery(state, maxIterations, telemetry, oracles, clock);
    stop := false;
  }

  /** One pass of the loop: an iteration, then either a stop or the next iteration number. */
  method Step(state: RagState, enableMultiQuery: bool, settings: Settings, telemetry: RagTelemetryCollector?,
              oracles: WorkflowOracles, clock: Clock, ghost c: Collaborators)
    returns (stop: bool, failure: Option<string>)
    requires Ties(c, oracles, enableMultiQuery)
    modifies state, clock, TelemetryLists(telemetry)
    ensures var r := Iteration(c, settings, old(state.Value()));
      && (failure.None? <==> r.Success?)
      && (failure.Some? ==> failure.value == r.error)
      && (failure.None? ==> stop == r.value.stopped)
      && (failure.None? ==>
            state.Value() == if stop then r.value.state else r.value.state.(iteration := old(state.iteration) + 1))
    ensures telemetry != null && failure.None? ==>
      && |telemetry.iterations.items| == |old(telemetry.iterations.items)| + 1
      && |telemetry.queryExpansions.items| - |old(telemetry.queryExpansions.items)|
         == |state.queryExpansions| - |old(state.queryExpansions)|
  {
    var expanded;
    stop, expanded, failure := PerformIteration(state, enableMultiQuery, settings.threshold,
      settings.maxIterations, telemetry, oracles, clock, c);
    if failure.None? && !stop {
      state.Advance();
    }
  }

  /** The loop moved on by one iteration, as the loop body sees it. */
  lemma LoopFromStep(iterate: IterationFn, maxIterations: int, s: StateValue, r: Result<LoopEnd>)
    requires s.iteration < maxIterations && r == iterate(s)
    ensures r.Failure? ==> LoopFrom(iterate, maxIterations, s) == Failure(r.error)
    ensures r.Success? && r.value.stopped ==> LoopFrom(iterate, maxIterations, s) == r
    ensures r.Success? && !r.value.stopped ==>
      LoopFrom(iterate, maxIterations, s) == LoopFrom(iterate, maxIterations, r.value.state.(iteration := s.iteration + 1))
  {
  }

  /**
   * The loop of `runSelfReflectingRAG`: it ends as `Loop` says over the oracles, and the
   * collector, when there is one, holds one record per evaluated iteration and one per expansion.
   */
  method RunIterations(state: RagState, query: string, enableMultiQuery: bool, settings: Settings,
                       telemetry: RagTelemetryCollector?, oracles: WorkflowOracles, clock: Clock, ghost c: Collaborators)
    returns (stopped: bool, failure: Option<string>)
    requires Ties(c, oracles, enableMultiQuery)
    requires state.Value() == InitialState(query)
    requires telemetry != null ==> telemetry.iterations.items == [] && telemetry.queryExpansions.items == []
    modifies state, clock, TelemetryLists(telemetry)
    ensures var r := Loop(c, settings, query);
      && (failure.None? <==> r.Success?)
      && (failure.None? ==> r.value == LoopEnd(stopped, state.Value()))
      && (failure.Some? ==> failure.value == r.error)
    ensures telemetry != null && failure.None? ==>
      && |telemetry.iterations.items| == IterationsPerformed(state.iteration, stopped)
      && |telemetry.queryExpansions.items| == |state.queryExpansions|
  {
    ghost var iterate := Iterate(c, settings);
    ghost var run := Loop(c, settings, query);
    stopped, failure := false, None;
    while state.iteration < settings.maxIterations
      invariant LoopFrom(iterate, settings.maxIterations, state.Value()) == run
      invariant failure == None && !stopped
      invariant telemetry != null ==>
        && |telemetry.iterations.items| == state.iteration
        && |telemetry.queryExpansions.items| == |state.queryExpansions|
      decreases settings.maxIterations - state.iteration
    {
      ghost var s := state.Value();
      var stop;
      stop, failure := Step(state, enableMultiQuery, settings, telemetry, oracles, clock, c);
      IterateAt(c, settings, s);
      IterationKeeps(c, settings, s);
      LoopFromStep(iterate, settings.maxIterations, s, Iteration(c, settings, s));
      if failure.Some? {
        return;
      }
      if stop {
        stopped := true;
        return;
      }
    }
  }

  /** Finalizes the collector, when there is one, at the clock's next reading. */
  method FinishTelemetry(telemetry: RagTelemetryCollector?, clock: Clock) returns (log: Option<RagTelemetry>)
    modifies clock, telemetry
    ensures telemetry == null <==> log.None?
    ensures log.Some? ==>
      && log.value.queryId == telemetry.queryId && log.value.originalQuery == telemetry.originalQuery
      && log.value.iterations == telemetry.iterations && log.value.queryExpansions == telemetry.queryExpansions
      && log.value.finalConfidence == old(telemetry.finalConfidence) && log.value.error == old(telemetry.error)
      && log.value.endTime.Some?
  {
    if telemetry != null {
      var now := clock.Now();
      var finalized := telemetry.Finalize(now);
      log := Some(finalized);
    } else {
      log := None;
    }
  }

  /** The body of `runSelfReflectingRAG`, over collaborators that answer as the oracles do. */
  method RunWith(options: SelfReflectingRagOptions, queryId: string, oracles: WorkflowOracles, clock: Clock, ghost c: Collaborators)
    returns (result: Result<SelfReflectingRagResult>, log: Option<RagTelemetry>)
    requires Ties(c, oracles, options.MultiQuery())
    modifies clock
    ensures result == WorkflowWith(c, options.LoopSettings(), options.query)
    ensures options.enableTelemetry.GetOr(true) <==> log.Some?
    ensures log.Some? && result.Success? ==>
      && |log.value.iterations.items| == result.value.iterationsPerformed
      && |log.value.queryExpansions.items| == |result.value.queryExpansions|
      && log.value.finalConfidence == result.value.finalConfidence
      && log.value.error.None?
    ensures log.Some? && result.Failure? ==> log.value.error == Some(result.error)
    ensures log.Some? ==> log.value.endTime.Some? && log.value.queryId == queryId && log.value.originalQuery == options.query
  {
    var query := options.query;
    var telemetry: RagTelemetryCollector? := null;
    if options.enableTelemetry.GetOr(true) {
      var now := clock.Now();
      telemetry := new RagTelemetryCollector(queryId, query, now);
    }
    var state := new RagState(query);
    var stopped, failure := RunIterations(state, query, options.MultiQuery(), options.LoopSettings(), telemetry, oracles, clock, c);
    if failure.Some? {
      if telemetry != null {
        telemetry.RecordError(failure.value);
      }
      log := FinishTelemetry(telemetry, clock);
      result := Failure(failure.value);
      return;
    }
    var evaluation := state.evaluation;
    result := Success(SelfReflectingRagResult(
      state.documents,
      state.currentQuery,
      IterationsPerformed(state.iteration, stopped),
      if evaluation.Some? then evaluation.value.confidence else 0.0,
      if evaluation.Some? then evaluation.value.isSufficient else false,
      state.queryExpansions,
      if evaluation.Some? then evaluation.value.reasoning else ""));
    if telemetry != null {
      telemetry.SetFinalConfidence(result.value.finalConfidence);
    }
    log := FinishTelemetry(telemetry, clock);
  }

  /**
   * `runSelfReflectingRAG`: the result, or the error thrown, is `Workflow`'s; the collector, when
   * telemetry is on, counts the iterations run and the expansions made, carries the final
   * confidence or the error, and is finalized.
   */
  method RunSelfReflectingRAG(options: SelfReflectingRagOptions, queryId: string, oracles: WorkflowOracles, clock: Clock)
    returns (result: Result<SelfReflectingRagResult>, log: Option<RagTelemetry>)
    modifies clock
    ensures result == Workflow(oracles, options)
    ensures options.enableTelemetry.GetOr(true) <==> log.Some?
    ensures log.Some? && result.Success? ==>
      && |log.value.iterations.items| == result.value.iterationsPerformed
      && |log.value.queryExpansions.items| == |result.value.queryExpansions|
      && log.value.finalConfidence == result.value.finalConfidence
      && log.value.error.None?
    ensures log.Some? && result.Failure? ==> log.value.error == Some(result.error)
    ensures log.Some? ==> log.value.endTime.Some? && log.value.queryId == queryId && log.value.originalQuery == options.query
  {
    OverTies(oracles, options.MultiQuery());
    result, log := RunWith(options, queryId, oracles, clock, Over(oracles, options.MultiQuery()));
  }
}
