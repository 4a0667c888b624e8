/**
 * The iterative retrieval pipeline (my-ai-app/lib/ai/retrieval/pipeline.ts): choose queries,
 * search and fuse, evaluate, fold the iteration into the state, and report progress events.
 * The expander and the evaluator answer per attempt, so each attempt may get a different answer.
 */
module Pipeline {
  import opened Wrappers
  import opened Strings
  import opened OrderedSets
  import opened Documents
  import opened RagTypes
  import opened State
  import opened Strategies
  import QueryExpander
  import RetrievalEvaluator
  import Ranking

  datatype Oracles = Oracles(
    store: VectorStore,
    bm25: Bm25,
    expanders: int -> QueryExpander.ExpansionModel,
    evaluators: int -> RetrievalEvaluator.EvaluatorModel,
    /** How a JavaScript number prints inside a template literal. */
    formatNumber: real -> string)

  /** One completed iteration: its queries, the three result lists and the evaluation. */
  datatype RetrievalIteration = RetrievalIteration(
    queries: seq<string>,
    vectorResults: seq<Document>,
    bm25Results: seq<Document>,
    fusedResults: seq<Document>,
    evaluation: Evaluation,
    mostRelevantDocuments: seq<Document>)

  /** The progress events the pipeline yields. */
  datatype Progress =
    | IterationStart(attempt: int, maxIterations: int, message: string)
    | QueriesReady(attempt: int, queries: seq<string>, message: string)
    | IterationComplete(attempt: int, documentsFound: nat, confidence: real, isSufficient: bool, message: string)
    | Complete(totalAttempts: int, totalDocuments: nat, message: string)
    | ResultEvent(documents: seq<Document>, evaluation: PartialEvaluation, totalAttempts: int, message: string)

  const DEFAULT_MAX_ITERATIONS := 3
  const FILTERED_LIMIT := 5
  const UNFILTERED_LIMIT := 20

  function VariationQueries(variations: seq<Variation>): (queries: seq<string>)
    ensures |queries| == |variations|
    ensures forall i :: 0 <= i < |variations| ==> queries[i] == variations[i].query
  {
    seq(|variations|, i requires 0 <= i < |variations| => variations[i].query)
  }

  /** The original query on the first iteration, else the expander's variation queries in order. */
  function GetIterationQueries(expander: QueryExpander.ExpansionModel, s: RetrievalState, isFirstIteration: bool): (queries: seq<string>)
    ensures isFirstIteration ==> queries == [s.originalQuery]
    ensures !isFirstIteration ==>
      var expansion := QueryExpander.ExpandQuery(expander,
        QueryExpander.ExpansionOptions(s.originalQuery, s.evaluation.gaps, None, Some(s.triedQueries)));
      |queries| == |expansion.variations|
      && forall i :: 0 <= i < |queries| ==> queries[i] == expansion.variations[i].query
  {
    if isFirstIteration then [s.originalQuery]
    else
      var expansion := QueryExpander.ExpandQuery(expander,
        QueryExpander.ExpansionOptions(s.originalQuery, s.evaluation.gaps, None, Some(s.triedQueries)));
      VariationQueries(expansion.variations)
  }

  /** The vector-search options: a source filter and limit 5 once documents were flagged, else limit 20. */
  function SearchOptions(s: RetrievalState, queries: seq<string>): (o: VectorSearchOptions)
    ensures o.queries == queries
    ensures |s.mostRelevantDocuments| > 0 ==> o.limit == Some(FILTERED_LIMIT) && o.filter.Some?
    ensures |s.mostRelevantDocuments| > 0 ==> Elems(o.filter.value.sourceIn) == set d | d in s.mostRelevantDocuments :: d.source
    ensures |s.mostRelevantDocuments| == 0 ==> o.limit == Some(UNFILTERED_LIMIT) && o.filter.None?
  {
    var sources := GetSourceFilter(s);
    VectorSearchOptions(queries,
      Some(if sources.Some? then FILTERED_LIMIT else UNFILTERED_LIMIT),
      if sources.Some? then Some(BuildSourceFilter(sources.value)) else None)
  }

  /**
   * What one iteration yields: vector search, BM25 over the vector results with the original
   * query, fusion, then evaluation against every query tried so far. A rejected evaluation is an error.
   */
  function IterationOutcome(oracles: Oracles, attempt: int, s: RetrievalState, queries: seq<string>)
    : (r: Result<RetrievalIteration>)
    ensures r.Failure? ==> r.error == RetrievalEvaluator.INVALID_OUTPUT
    ensures r.Success? ==>
      && r.value.queries == queries
      && r.value.bm25Results == PerformBm25Search(oracles.bm25, r.value.vectorResults, s.originalQuery, None)
      && r.value.fusedResults == Ranking.Fused(r.value.vectorResults, r.value.bm25Results)
    ensures var vector := PerformVectorSearch(oracles.store, SearchOptions(s, queries));
      var fused := Ranking.Fused(vector, PerformBm25Search(oracles.bm25, vector, s.originalQuery, None));
      var verdict := RetrievalEvaluator.EvaluateRetrieval(oracles.evaluators(attempt), s.triedQueries, fused);
      && (r.Failure? <==> verdict.Failure?)
      && (r.Success? ==>
            && r.value.vectorResults == vector
            && r.value.evaluation == verdict.value.evaluation
            && r.value.mostRelevantDocuments == verdict.value.mostRelevantDocuments)
  {
    var vector := PerformVectorSearch(oracles.store, SearchOptions(s, queries));
    var bm25 := PerformBm25Search(oracles.bm25, vector, s.originalQuery, None);
    var fused := Ranking.Fused(vector, bm25);
    var evaluated := RetrievalEvaluator.EvaluateRetrieval(oracles.evaluators(attempt), s.triedQueries, fused);
    if evaluated.Failure? then Failure(evaluated.error)
    else Success(RetrievalIteration(queries, vector, bm25, fused,
      evaluated.value.evaluation, evaluated.value.mostRelevantDocuments))
  }

  /** `executeIteration`, step by step. */
  method ExecuteIteration(oracles: Oracles, attempt: int, s: RetrievalState, queries: seq<string>)
    returns (r: Result<RetrievalIteration>)
    ensures r == IterationOutcome(oracles, attempt, s, queries)
  {
    var vectorResults := PerformVectorSearch(oracles.store, SearchOptions(s, queries));
    var bm25Results := PerformBm25Search(oracles.bm25, vectorResults, s.originalQuery, None);
    var fusedResults := FuseResults(vectorResults, bm25Results);
    var evaluated := RetrievalEvaluator.EvaluateRetrieval(oracles.evaluators(attempt), s.triedQueries, fusedResults);
    if evaluated.Failure? {
      return Failure(evaluated.error);
    }
    r := Success(RetrievalIteration(queries, vectorResults, bm25Results, fusedResults,
      evaluated.value.evaluation, evaluated.value.mostRelevantDocuments));
  }

  /** The vector search sees a filter exactly when documents were flagged, and BM25 reranks with the original query. */
  lemma IterationSearchRouting(oracles: Oracles, s: RetrievalState, queries: seq<string>)
    ensures |s.mostRelevantDocuments| == 0 ==>
      PerformVectorSearch(oracles.store, SearchOptions(s, queries))
        == oracles.store(if queries == [] then None else Some(queries[0]), UNFILTERED_LIMIT, None)
    ensures |s.mostRelevantDocuments| > 0 ==>
      PerformVectorSearch(oracles.store, SearchOptions(s, queries))
        == SearchEach(oracles.store, queries, FILTERED_LIMIT, SearchOptions(s, queries).filter.value)
    ensures forall vector ::
      PerformBm25Search(oracles.bm25, vector, s.originalQuery, None) == oracles.bm25(vector, s.originalQuery, DEFAULT_BM25_K)
  {
  }

  /** `documents.filter((doc) => !found.has(doc))` */
  function NotIn(documents: seq<Document>, found: seq<Document>): (r: seq<Document>)
    ensures forall d :: d in r <==> d in documents && d !in found
  {
    if documents == [] then []
    else (if documents[0] !in found then [documents[0]] else []) + NotIn(documents[1..], found)
  }

  /** Dropping documents already in the set before adding them changes nothing. */
  lemma {:induction false} NotInRedundant(into: seq<Document>, documents: seq<Document>, found: seq<Document>)
    requires Elems(found) <= Elems(into)
    ensures AddAll(into, NotIn(documents, found)) == AddAll(into, documents)
    decreases |documents|
  {
    if documents != [] {
      var d, rest := documents[0], documents[1..];
      assert AddAll(into, documents) == AddAll(Add(into, d), rest);
      if d in found {
        assert d in Elems(into);
        assert NotIn(documents, found) == NotIn(rest, found);
        NotInRedundant(into, rest, found);
      } else {
        var kept := NotIn(rest, found);
        assert NotIn(documents, found) == [d] + kept;
        assert ([d] + kept)[0] == d && ([d] + kept)[1..] == kept;
        NotInRedundant(Add(into, d), rest, found);
      }
    }
  }

  /**
   * `updateStateFromIteration`: one more attempt, the iteration's queries appended, its evaluation
   * spread over the old one; flagged documents join the most-relevant set on an insufficient
   * verdict; on a sufficient one the flagged and then all fused documents join the found set.
   */
  function UpdateStateFromIteration(s: RetrievalState, iteration: RetrievalIteration): (r: RetrievalState)
    ensures r.retrievalAttempts == s.retrievalAttempts + 1
    ensures r.triedQueries == s.triedQueries + iteration.queries && r.originalQuery == s.originalQuery
    ensures r.evaluation == WithDocuments(iteration.evaluation, iteration.mostRelevantDocuments)
    ensures !iteration.evaluation.isSufficient ==> r.foundDocuments == s.foundDocuments
    ensures iteration.evaluation.isSufficient ==>
      && Elems(r.foundDocuments) == Elems(s.foundDocuments) + Elems(iteration.mostRelevantDocuments) + Elems(iteration.fusedResults)
      && |s.foundDocuments| <= |r.foundDocuments| && r.foundDocuments[..|s.foundDocuments|] == s.foundDocuments
    ensures iteration.evaluation.isSufficient || |iteration.mostRelevantDocuments| == 0 ==>
      r.mostRelevantDocuments == s.mostRelevantDocuments
    ensures !iteration.evaluation.isSufficient && |iteration.mostRelevantDocuments| > 0 ==>
      && Elems(r.mostRelevantDocuments) == Elems(s.mostRelevantDocuments) + Elems(iteration.mostRelevantDocuments)
      && |s.mostRelevantDocuments| <= |r.mostRelevantDocuments|
      && r.mostRelevantDocuments[..|s.mostRelevantDocuments|] == s.mostRelevantDocuments
    ensures Consistent(s) ==> Consistent(r)
  {
    var flagged := iteration.mostRelevantDocuments;
    var updated := UpdateEvaluation(AddTriedQueries(IncrementAttempts(s), iteration.queries),
      WithDocuments(iteration.evaluation, flagged));
    SpreadFull(s.evaluation, iteration.evaluation, flagged);
    var updated := if |flagged| > 0 && !iteration.evaluation.isSufficient
      then updated.(mostRelevantDocuments := AddAll(updated.mostRelevantDocuments, flagged))
      else updated;
    if iteration.evaluation.isSufficient then
      var toAdd := NotIn(flagged, updated.foundDocuments);
      var found := AddAll(AddAll(updated.foundDocuments, toAdd), iteration.fusedResults);
      NotInRedundant(updated.foundDocuments, flagged, updated.foundDocuments);
      AddAllPrefix(updated.foundDocuments, flagged, iteration.fusedResults);
      updated.(foundDocuments := found)
    else updated
  }

  /** Adding twice keeps the original set as a prefix. */
  lemma AddAllPrefix<T>(s: seq<T>, xs: seq<T>, ys: seq<T>)
    ensures |s| <= |AddAll(AddAll(s, xs), ys)| && AddAll(AddAll(s, xs), ys)[..|s|] == s
  {
    var a := AddAll(s, xs);
    var b := AddAll(a, ys);
    assert b[..|s|] == b[..|a|][..|s|];
  }

  /** After the first iteration the original query is listed twice: once at creation and once as the iteration's query. */
  lemma FirstIterationRepeatsQuery(expander: QueryExpander.ExpansionModel, query: string, iteration: RetrievalIteration)
    requires iteration.queries == GetIterationQueries(expander, CreateRetrievalState(query), true)
    ensures UpdateStateFromIteration(CreateRetrievalState(query), iteration).triedQueries == [query, query]
  {
  }

  /** The three events of iteration `k` (0-based) sit at positions `3k`, `3k+1`, `3k+2`. */
  predicate IterationEvents(events: seq<Progress>, k: int)
  {
    && 0 <= k && 3 * k + 3 <= |events|
    && events[3 * k].IterationStart? && events[3 * k].attempt == k + 1
    && events[3 * k + 1].QueriesReady? && events[3 * k + 1].attempt == k + 1
    && events[3 * k + 2].IterationComplete? && events[3 * k + 2].attempt == k + 1
  }

  /** The verdict reported by iteration `k`. */
  predicate SufficientAt(events: seq<Progress>, k: int)
  {
    && 0 <= k && 3 * k + 3 <= |events|
    && events[3 * k + 2].IterationComplete? && events[3 * k + 2].isSufficient
  }

  /** The state's verdict is the one the last iteration reported. */
  predicate VerdictRecorded(s: RetrievalState, events: seq<Progress>)
  {
    s.retrievalAttempts > 0 ==> s.evaluation.isSufficient == Some(SufficientAt(events, s.retrievalAttempts - 1))
  }

  function StartMessage(attempt: int, maxIterations: int): string
  {
    "Starting retrieval attempt " + IntToString(attempt) + "/" + IntToString(maxIterations)
  }

  function QueriesMessage(queries: seq<string>): string
  {
    "Searching with " + NatToString(|queries|) + " query variation(s)"
  }

  function CompleteMessage(oracles: Oracles, e: Evaluation): string
  {
    if e.isSufficient then "Found sufficient information (confidence: " + oracles.formatNumber(e.confidence) + ")"
    else "Insufficient results (confidence: " + oracles.formatNumber(e.confidence) + "), will retry"
  }

  /** The events every run ends with, success or not, as reported for `n` finished iterations. */
  predicate Iterations(events: seq<Progress>, n: nat)
  {
    && (forall k :: 0 <= k < n ==> IterationEvents(events, k))
    && (forall k :: 0 <= k < n - 1 ==> !SufficientAt(events, k))
  }

  /** Appending one iteration's three events extends the record by one iteration. */
  lemma AppendIteration(events: seq<Progress>, n: nat, start: Progress, ready: Progress, done: Progress)
    requires |events| == 3 * n && Iterations(events, n)
    requires n > 0 ==> !SufficientAt(events, n - 1)
    requires start.IterationStart? && start.attempt == n + 1
    requires ready.QueriesReady? && ready.attempt == n + 1
    requires done.IterationComplete? && done.attempt == n + 1
    ensures var next := events + [start, ready, done];
      && Iterations(next, n + 1)
      && SufficientAt(next, n) == done.isSufficient
      && next[..3 * n] == events
  {
    var next := events + [start, ready, done];
    assert forall i :: 0 <= i < 3 * n ==> next[i] == events[i];
    forall k | 0 <= k < n ensures IterationEvents(next, k) && SufficientAt(next, k) == SufficientAt(events, k) {
      assert IterationEvents(events, k);
    }
    assert IterationEvents(next, n);
  }

  /** Appending events after the iterations keeps the iterations as they were. */
  lemma AppendAfter(events: seq<Progress>, n: nat, tail: seq<Progress>)
    requires |events| == 3 * n && Iterations(events, n)
    ensures Iterations(events + tail, n) && (events + tail)[..3 * n] == events
    ensures forall k :: 0 <= k < n ==> SufficientAt(events + tail, k) == SufficientAt(events, k)
  {
    var next := events + tail;
    assert forall i :: 0 <= i < 3 * n ==> next[i] == events[i];
    forall k | 0 <= k < n ensures IterationEvents(next, k) && SufficientAt(next, k) == SufficientAt(events, k) {
      assert IterationEvents(events, k);
    }
  }

  /** The queries of the iteration that follows state `s`. */
  function IterationQueries(oracles: Oracles, s: RetrievalState): seq<string>
  {
    GetIterationQueries(oracles.expanders(s.retrievalAttempts + 1), s, s.retrievalAttempts == 0)
  }

  function StartEvent(attempt: int, maxIterations: int): Progress
  {
    IterationStart(attempt, maxIterations, StartMessage(attempt, maxIterations))
  }

  function ReadyEvent(attempt: int, queries: seq<string>): Progress
  {
    QueriesReady(attempt, queries, QueriesMessage(queries))
  }

  /** The iteration-complete event: the fused count and the evaluator's confidence and verdict. */
  function CompleteEvent(oracles: Oracles, attempt: int, iteration: RetrievalIteration): Progress
  {
    IterationComplete(attempt, |iteration.fusedResults|, iteration.evaluation.confidence,
      iteration.evaluation.isSufficient, CompleteMessage(oracles, iteration.evaluation))
  }

  function CompleteText(n: int): string
  {
    "Retrieval complete after " + IntToString(n) + " attempt(s)"
  }

  /** The two events after the loop: "complete" and the final result, both read from the state. */
  function ClosingEvents(s: RetrievalState): seq<Progress>
  {
    [Complete(s.retrievalAttempts, |s.foundDocuments|, CompleteText(s.retrievalAttempts)),
     ResultEvent(s.foundDocuments, s.evaluation, s.retrievalAttempts, "Final retrieval result")]
  }

  /** One pass of the loop body: the queries-ready event, the iteration-complete event or the evaluator's error, and the next state. */
  datatype Pass = Pass(ready: Progress, outcome: Result<Progress>, next: RetrievalState)

  /**
   * What every pass from state `s` reports and how it moves the state on: the queries of the next
   * attempt (the original query alone on the first), then either the evaluator's error with the
   * state kept, or the iteration's verdict with one more attempt counted, that verdict recorded,
   * the original query kept, no documents found on an insufficient verdict, and the state's
   * sets still free of duplicates.
   */
  predicate Reports(s: RetrievalState, p: Pass)
  {
    && p.ready.QueriesReady? && p.ready.attempt == s.retrievalAttempts + 1
    && (s.retrievalAttempts == 0 ==> p.ready == ReadyEvent(1, [s.originalQuery]))
    && (p.outcome.Failure? ==> p.outcome.error == RetrievalEvaluator.INVALID_OUTPUT && p.next == s)
    && (p.outcome.Success? ==>
          && p.outcome.value.IterationComplete? && p.outcome.value.attempt == s.retrievalAttempts + 1
          && p.next.retrievalAttempts == s.retrievalAttempts + 1
          && p.next.originalQuery == s.originalQuery
          && p.next.evaluation.isSufficient == Some(p.outcome.value.isSufficient)
          && (!p.outcome.value.isSufficient ==> p.next.foundDocuments == s.foundDocuments)
          && (Consistent(s) ==> Consistent(p.next)))
  }

  /** A loop body, as a function of the state, that reports every pass as `Reports` says. */
  type LoopPass = pass: RetrievalState -> Pass | forall s :: Reports(s, pass(s))
    witness (s: RetrievalState) =>
      Pass(ReadyEvent(s.retrievalAttempts + 1, [s.originalQuery]), Failure(RetrievalEvaluator.INVALID_OUTPUT), s)

  /**
   * The pass from state `s`: the queries for the next attempt, the iteration over them, and on
   * success the iteration reported and folded into the state; on an evaluator error the state stays.
   */
  function PassFrom(oracles: Oracles, s: RetrievalState): (p: Pass)
    ensures Reports(s, p)
  {
    var attempt := s.retrievalAttempts + 1;
    var queries := IterationQueries(oracles, s);
    var iteration := IterationOutcome(oracles, attempt, s, queries);
    if iteration.Failure? then Pass(ReadyEvent(attempt, queries), Failure(iteration.error), s)
    else Pass(ReadyEvent(attempt, queries), Success(CompleteEvent(oracles, attempt, iteration.value)),
      UpdateStateFromIteration(s, iteration.value))
  }

  /** The pipeline's loop body over these oracles. */
  function Passes(oracles: Oracles): LoopPass
  {
    s => PassFrom(oracles, s)
  }

  /** The loop body over these oracles applied to a state is the pass from that state. */
  lemma PassesAt(oracles: Oracles, s: RetrievalState)
    ensures Passes(oracles)(s) == PassFrom(oracles, s)
  {
  }

  /** What a run yields: every event, the error that ended it if any, and the last state. */
  datatype PipelineRun = PipelineRun(events: seq<Progress>, failure: Option<string>, final: RetrievalState)

  /**
   * The run from state `s` on, after `events`: while the state says to continue, report the start
   * and the queries, then stop with the evaluator's error or report the verdict and go on from the
   * next state; once it says to stop, close with "complete" and the result.
   */
  function RunFrom(pass: LoopPass, max: int, s: RetrievalState, events: seq<Progress>): PipelineRun
    decreases max - s.retrievalAttempts
  {
    if !ShouldContinueIteration(s, max) then PipelineRun(events + ClosingEvents(s), None, s)
    else
      var start := StartEvent(s.retrievalAttempts + 1, max);
      var p := pass(s);
      if p.outcome.Failure? then PipelineRun(events + [start, p.ready], Some(p.outcome.error), s)
      else RunFrom(pass, max, p.next, events + [start, p.ready, p.outcome.value])
  }

  /** A run of `runRetrievalPipeline({ query, maxIterations })` with the given loop body. */
  function Run(pass: LoopPass, query: string, maxIterations: Option<int>): PipelineRun
  {
    RunFrom(pass, maxIterations.GetOr(DEFAULT_MAX_ITERATIONS), CreateRetrievalState(query), [])
  }

  /** The whole run of `runRetrievalPipeline({ query, maxIterations })` over these oracles. */
  function RetrievalRun(oracles: Oracles, query: string, maxIterations: Option<int>): PipelineRun
  {
    Run(Passes(oracles), query, maxIterations)
  }

  /** One pass of the loop body: choose the queries, run the iteration, report it and fold it into the state. */
  method LoopBody(oracles: Oracles, s: RetrievalState) returns (ready: Progress, outcome: Result<Progress>, next: RetrievalState)
    ensures Pass(ready, outcome, next) == PassFrom(oracles, s)
  {
    var attempt := s.retrievalAttempts + 1;
    var queries := IterationQueries(oracles, s);
    ready := ReadyEvent(attempt, queries);
    var iteration := ExecuteIteration(oracles, attempt, s, queries);
    PassFromCases(oracles, s, iteration);
    next := s;
    if iteration.Failure? {
      outcome := Failure(iteration.error);
      return;
    }
    outcome := Success(CompleteEvent(oracles, attempt, iteration.value));
    next := UpdateStateFromIteration(s, iteration.value);
  }

  /** The pass from `s` reports the queries, then the iteration's error or its verdict and the folded state. */
  lemma PassFromCases(oracles: Oracles, s: RetrievalState, iteration: Result<RetrievalIteration>)
    requires iteration == IterationOutcome(oracles, s.retrievalAttempts + 1, s, IterationQueries(oracles, s))
    ensures PassFrom(oracles, s).ready == ReadyEvent(s.retrievalAttempts + 1, IterationQueries(oracles, s))
    ensures iteration.Failure? ==> PassFrom(oracles, s).outcome == Failure(iteration.error) && PassFrom(oracles, s).next == s
    ensures iteration.Success? ==>
      && PassFrom(oracles, s).outcome == Success(CompleteEvent(oracles, s.retrievalAttempts + 1, iteration.value))
      && PassFrom(oracles, s).next == UpdateStateFromIteration(s, iteration.value)
  {
  }

  /**
   * `runRetrievalPipeline`: the events it yields, the error that ends it and the state it ends
   * in are those of `RetrievalRun`; `RunFacts` says what they are.
   */
  method RunRetrievalPipeline(oracles: Oracles, query: string, maxIterations: Option<int>)
    returns (events: seq<Progress>, failure: Option<string>, final: RetrievalState)
    ensures PipelineRun(events, failure, final) == RetrievalRun(oracles, query, maxIterations)
  {
    var max := maxIterations.GetOr(DEFAULT_MAX_ITERATIONS);
    var state := CreateRetrievalState(query);
    events := [];
    failure := None;
    ghost var pass: LoopPass := Passes(oracles);
    ghost var run := RetrievalRun(oracles, query, maxIterations);
    while ShouldContinueIteration(state, max)
      invariant RunFrom(pass, max, state, events) == run
      decreases max - state.retrievalAttempts
    {
      var start := StartEvent(state.retrievalAttempts + 1, max);
      var ready, outcome, next := LoopBody(oracles, state);
      PassesAt(oracles, state);
      LoopStep(pass, max, state, events, start, ready, outcome, next);
      if outcome.Failure? {
        events := events + [start, ready];
        failure := Some(outcome.error);
        final := state;
        return;
      }
      events := events + [start, ready, outcome.value];
      state := next;
    }
    RunFromCloses(pass, max, state, events);
    final := state;
    events := events + ClosingEvents(state);
  }

  /** A state that says to stop closes the run. */
  lemma RunFromCloses(pass: LoopPass, max: int, s: RetrievalState, events: seq<Progress>)
    requires !ShouldContinueIteration(s, max)
    ensures RunFrom(pass, max, s, events) == PipelineRun(events + ClosingEvents(s), None, s)
  {
  }

  /** A pass from a state that says to continue either ends the run with its error or moves it on. */
  lemma RunFromStep(pass: LoopPass, max: int, s: RetrievalState, events: seq<Progress>, p: Pass)
    requires ShouldContinueIteration(s, max) && p == pass(s)
    ensures var start := StartEvent(s.retrievalAttempts + 1, max);
      && (p.outcome.Failure? ==> RunFrom(pass, max, s, events) == PipelineRun(events + [start, p.ready], Some(p.outcome.error), s))
      && (p.outcome.Success? ==> RunFrom(pass, max, s, events) == RunFrom(pass, max, p.next, events + [start, p.ready, p.outcome.value]))
  {
  }

  /** One pass of the loop body, as the method sees it, moves the run one iteration on. */
  lemma LoopStep(pass: LoopPass, max: int, s: RetrievalState, events: seq<Progress>,
                 start: Progress, ready: Progress, outcome: Result<Progress>, next: RetrievalState)
    requires ShouldContinueIteration(s, max) && start == StartEvent(s.retrievalAttempts + 1, max)
    requires Pass(ready, outcome, next) == pass(s)
    ensures outcome.Failure? ==> RunFrom(pass, max, s, events) == PipelineRun(events + [start, ready], Some(outcome.error), s)
    ensures outcome.Success? ==> RunFrom(pass, max, s, events) == RunFrom(pass, max, next, events + [start, ready, outcome.value])
  {
    RunFromStep(pass, max, s, events, pass(s));
  }

  /** What holds of the state and the events at the head of every loop pass. */
  predicate Reported(max: int, s: RetrievalState, events: seq<Progress>)
  {
    && Consistent(s)
    && 0 <= s.retrievalAttempts <= Max0(max)
    && |events| == 3 * s.retrievalAttempts
    && Iterations(events, s.retrievalAttempts)
    && VerdictRecorded(s, events)
    && (s.evaluation.isSufficient == Some(true) ==> s.retrievalAttempts > 0)
    && (s.foundDocuments != [] ==> s.retrievalAttempts > 0 && SufficientAt(events, s.retrievalAttempts - 1))
  }

  /**
   * What run `r` from state `s`, after `events`, looks like: the events so far kept, one triple per
   * further iteration, the first iteration searching with the query alone, every state reported;
   * then the closing pair, or the evaluator's error right after the start and queries events.
   */
  predicate Closed(max: int, s: RetrievalState, events: seq<Progress>, r: PipelineRun)
  {
    var n := r.final.retrievalAttempts;
    && Consistent(r.final) && r.final.originalQuery == s.originalQuery
    && s.retrievalAttempts <= n <= Max0(max)
    && |r.events| == 3 * n + 2 && |events| <= |r.events| && r.events[..|events|] == events
    && Iterations(r.events, n)
    && VerdictRecorded(r.final, r.events)
    && (s.retrievalAttempts == 0 < n ==> r.events[1] == ReadyEvent(1, [s.originalQuery]))
    && (r.failure.None? ==>
          && !ShouldContinueIteration(r.final, max)
          && (n == 0 ==> Max0(max) == 0)
          && (r.final.foundDocuments != [] ==> n > 0 && SufficientAt(r.events, n - 1))
          && r.events[3 * n..] == ClosingEvents(r.final))
    && (r.failure.Some? ==>
          && r.failure.value == RetrievalEvaluator.INVALID_OUTPUT
          && n < Max0(max)
          && r.events[3 * n] == StartEvent(n + 1, max)
          && r.events[3 * n + 1].QueriesReady? && r.events[3 * n + 1].attempt == n + 1)
  }

  /** The run from every reported state is as `Closed` says. */
  lemma {:induction false} RunFromFacts(pass: LoopPass, max: int, s: RetrievalState, events: seq<Progress>)
    requires Reported(max, s, events)
    ensures Closed(max, s, events, RunFrom(pass, max, s, events))
    decreases max - s.retrievalAttempts
  {
    if !ShouldContinueIteration(s, max) {
      ClosesFacts(max, s, events);
    } else {
      var n := s.retrievalAttempts;
      var p := pass(s);
      if p.outcome.Failure? {
        FailsFacts(max, s, events, p.ready);
      } else {
        var nextEvents := events + [StartEvent(n + 1, max), p.ready, p.outcome.value];
        IterationFacts(max, s, events, p);
        RunFromFacts(pass, max, p.next, nextEvents);
        ContinuesFacts(max, s, events, p, RunFrom(pass, max, p.next, nextEvents));
      }
    }
  }

  /** Closing from a reported state that stops. */
  lemma ClosesFacts(max: int, s: RetrievalState, events: seq<Progress>)
    requires Reported(max, s, events) && !ShouldContinueIteration(s, max)
    ensures Closed(max, s, events, PipelineRun(events + ClosingEvents(s), None, s))
  {
    var n := s.retrievalAttempts;
    AppendAfter(events, n, ClosingEvents(s));
    assert (events + ClosingEvents(s))[3 * n..] == ClosingEvents(s);
  }

  /** Failing from a reported state that continues. */
  lemma FailsFacts(max: int, s: RetrievalState, events: seq<Progress>, ready: Progress)
    requires Reported(max, s, events) && ShouldContinueIteration(s, max)
    requires ready.QueriesReady? && ready.attempt == s.retrievalAttempts + 1
    ensures Closed(max, s, events, PipelineRun(events + [StartEvent(s.retrievalAttempts + 1, max), ready],
      Some(RetrievalEvaluator.INVALID_OUTPUT), s))
  {
    var n := s.retrievalAttempts;
    AppendAfter(events, n, [StartEvent(n + 1, max), ready]);
  }

  /** The run after one more iteration is as `Closed` says from the state before it too. */
  lemma ContinuesFacts(max: int, s: RetrievalState, events: seq<Progress>, p: Pass, r: PipelineRun)
    requires Reported(max, s, events) && ShouldContinueIteration(s, max)
    requires Reports(s, p) && p.outcome.Success?
    requires Closed(max, p.next, events + [StartEvent(s.retrievalAttempts + 1, max), p.ready, p.outcome.value], r)
    ensures Closed(max, s, events, r)
  {
    var nextEvents := events + [StartEvent(s.retrievalAttempts + 1, max), p.ready, p.outcome.value];
    assert r.events[..|events|] == r.events[..|nextEvents|][..|events|];
    assert r.events[1] == r.events[..|nextEvents|][1];
  }

  /** One successful pass from a reported state that continues leads to a reported state. */
  lemma IterationFacts(max: int, s: RetrievalState, events: seq<Progress>, p: Pass)
    requires Reported(max, s, events) && ShouldContinueIteration(s, max)
    requires Reports(s, p) && p.outcome.Success?
    ensures Reported(max, p.next, events + [StartEvent(s.retrievalAttempts + 1, max), p.ready, p.outcome.value])
  {
    var n := s.retrievalAttempts;
    assert n > 0 ==> !SufficientAt(events, n - 1);
    assert s.foundDocuments == [];
    AppendIteration(events, n, StartEvent(n + 1, max), p.ready, p.outcome.value);
  }

  /** What `Run` yields, read from its events and its last state. */
  predicate Finished(query: string, max: int, r: PipelineRun)
  {
    var n := r.final.retrievalAttempts;
    && 0 <= n <= Max0(max)
    && |r.events| == 3 * n + 2
    && Iterations(r.events, n)
    && VerdictRecorded(r.final, r.events)
    && r.final.originalQuery == query && Consistent(r.final)
    && (n > 0 ==> r.events[1] == QueriesReady(1, [query], QueriesMessage([query])))
    && (r.failure.None? ==>
          && !ShouldContinueIteration(r.final, max)
          && (n == 0 ==> Max0(max) == 0)
          && (r.final.foundDocuments != [] ==> n > 0 && SufficientAt(r.events, n - 1))
          && r.events[|r.events| - 2] == Complete(n, |r.final.foundDocuments|, CompleteText(n))
          && r.events[|r.events| - 1] == ResultEvent(r.final.foundDocuments, r.final.evaluation, n, "Final retrieval result"))
    && (r.failure.Some? ==>
          && r.failure.value == RetrievalEvaluator.INVALID_OUTPUT
          && n < Max0(max)
          && r.events[|r.events| - 2] == StartEvent(n + 1, max)
          && r.events[|r.events| - 1].QueriesReady? && r.events[|r.events| - 1].attempt == n + 1)
  }

  /**
   * The run `runRetrievalPipeline` yields, whatever the loop body's answers: one
   * start/queries/complete triple per iteration, the first iteration searching with the query
   * alone, no iteration but the last reporting "sufficient", the state's verdict the last one
   * reported, documents found only after a sufficient verdict; then "complete" and "result" once
   * the state says to stop, or, when an evaluation is rejected, the evaluator's error right after
   * that iteration's start and queries events.
   */
  lemma RunFacts(pass: LoopPass, query: string, maxIterations: Option<int>)
    ensures Finished(query, maxIterations.GetOr(DEFAULT_MAX_ITERATIONS), Run(pass, query, maxIterations))
  {
    var max := maxIterations.GetOr(DEFAULT_MAX_ITERATIONS);
    RunFromFacts(pass, max, CreateRetrievalState(query), []);
    var r := Run(pass, query, maxIterations);
    var n := r.final.retrievalAttempts;
    if r.failure.None? {
      assert r.events[|r.events| - 2] == r.events[3 * n..][0];
      assert r.events[|r.events| - 1] == r.events[3 * n..][1];
    }
  }

  /** The evaluator answers every prompt with a schema-valid verdict of "insufficient". */
  ghost predicate NeverSufficient(oracles: Oracles)
  {
    forall k: int, system: string, prompt: string ::
      var answer := oracles.evaluators(k)(system, prompt);
      answer.Some? && ValidEvaluation(answer.value) && !answer.value.isSufficient
  }

  /** Under such an evaluator every pass succeeds with an insufficient verdict. */
  lemma NeverSufficientPass(oracles: Oracles, s: RetrievalState)
    requires NeverSufficient(oracles)
    ensures PassFrom(oracles, s).outcome.Success? && !PassFrom(oracles, s).outcome.value.isSufficient
  {
    var queries := IterationQueries(oracles, s);
    var vector := PerformVectorSearch(oracles.store, SearchOptions(s, queries));
    var fused := Ranking.Fused(vector, PerformBm25Search(oracles.bm25, vector, s.originalQuery, None));
    var answer := oracles.evaluators(s.retrievalAttempts + 1)(RetrievalEvaluator.SYSTEM_PROMPT,
      RetrievalEvaluator.EvaluationPrompt(s.triedQueries, fused));
    assert answer.Some? && ValidEvaluation(answer.value) && !answer.value.isSufficient;
  }

  /** A loop body whose every pass succeeds with an insufficient verdict runs the loop to the limit. */
  lemma {:induction false} InsufficientFrom(pass: LoopPass, max: int, s: RetrievalState, events: seq<Progress>)
    requires forall t :: pass(t).outcome.Success? && !pass(t).outcome.value.isSufficient
    requires s.evaluation.isSufficient != Some(true) && s.foundDocuments == [] && 0 <= s.retrievalAttempts <= Max0(max)
    ensures var r := RunFrom(pass, max, s, events);
      r.failure.None? && r.final.retrievalAttempts == Max0(max) && r.final.foundDocuments == []
    decreases max - s.retrievalAttempts
  {
    if ShouldContinueIteration(s, max) {
      var p := pass(s);
      assert Reports(s, p);
      RunFromStep(pass, max, s, events, p);
      InsufficientFrom(pass, max, p.next, events + [StartEvent(s.retrievalAttempts + 1, max), p.ready, p.outcome.value]);
    } else {
      RunFromCloses(pass, max, s, events);
    }
  }

  /**
   * An evaluator that never answers "sufficient" makes the pipeline run every allowed iteration,
   * finish without error and find no documents.
   */
  lemma NeverSufficientRunsToLimit(oracles: Oracles, query: string, maxIterations: Option<int>)
    requires NeverSufficient(oracles)
    ensures var r := RetrievalRun(oracles, query, maxIterations);
      && r.failure.None?
      && r.final.retrievalAttempts == Max0(maxIterations.GetOr(DEFAULT_MAX_ITERATIONS))
      && r.final.foundDocuments == []
  {
    var pass := Passes(oracles);
    forall t ensures pass(t).outcome.Success? && !pass(t).outcome.value.isSufficient {
      NeverSufficientPass(oracles, t);
    }
    InsufficientFrom(pass, maxIterations.GetOr(DEFAULT_MAX_ITERATIONS), CreateRetrievalState(query), []);
  }

  /** A first pass with a sufficient verdict ends the run after it, in the state that pass leads to. */
  lemma SufficientFirstRun(pass: LoopPass, query: string, maxIterations: Option<int>)
    requires maxIterations.GetOr(DEFAULT_MAX_ITERATIONS) >= 1
    requires var p := pass(CreateRetrievalState(query)); p.outcome.Success? && p.outcome.value.isSufficient
    ensures var r := Run(pass, query, maxIterations);
      && r.failure.None? && r.final == pass(CreateRetrievalState(query)).next
      && r.final.retrievalAttempts == 1 && |r.events| == 5
  {
    var max := maxIterations.GetOr(DEFAULT_MAX_ITERATIONS);
    var s0 := CreateRetrievalState(query);
    var p := pass(s0);
    RunFromStep(pass, max, s0, [], p);
    RunFromCloses(pass, max, p.next, [StartEvent(1, max), p.ready, p.outcome.value]);
  }

  /**
   * When the first iteration's evaluation succeeds with a sufficient verdict, the run stops after
   * it: one attempt, and the final state is that iteration folded into the new state.
   */
  lemma SufficientFirstStops(oracles: Oracles, query: string, maxIterations: Option<int>)
    requires maxIterations.GetOr(DEFAULT_MAX_ITERATIONS) >= 1
    requires var first := IterationOutcome(oracles, 1, CreateRetrievalState(query), [query]);
      first.Success? && first.value.evaluation.isSufficient
    ensures var first := IterationOutcome(oracles, 1, CreateRetrievalState(query), [query]);
      var r := RetrievalRun(oracles, query, maxIterations);
      && r.failure.None?
      && r.final == UpdateStateFromIteration(CreateRetrievalState(query), first.value)
      && r.final.retrievalAttempts == 1
      && |r.events| == 5
  {
    var s0 := CreateRetrievalState(query);
    ghost var pass: LoopPass := Passes(oracles);
    FirstPass(oracles, query);
    PassesAt(oracles, s0);
    SufficientFirstRun(pass, query, maxIterations);
  }

  /** The first pass searches with the query alone, so it is the first iteration reported and folded in. */
  lemma FirstPass(oracles: Oracles, query: string)
    requires var first := IterationOutcome(oracles, 1, CreateRetrievalState(query), [query]);
      first.Success? && first.value.evaluation.isSufficient
    ensures var first := IterationOutcome(oracles, 1, CreateRetrievalState(query), [query]);
      var p := PassFrom(oracles, CreateRetrievalState(query));
      p.outcome.Success? && p.outcome.value.isSufficient
      && p.next == UpdateStateFromIteration(CreateRetrievalState(query), first.value)
  {
    assert IterationQueries(oracles, CreateRetrievalState(query)) == [query];
  }
}
