/**
 * The `getInformation` tool (my-ai-app/lib/ai/tools/get-information.ts): it runs the pipeline
 * with at most three iterations, forwards every progress event except the final result in a
 * simplified form, keeps the last result, and then asks the summarizing agent (an oracle).
 */
module GetInformation {
  import opened Wrappers
  import opened Strings
  import opened Documents
  import opened RagTypes
  import opened State
  import opened Pipeline
  import RetrievalEvaluator

  /** `{ step, message, iteration }` as streamed to the user interface. */
  datatype ToolProgressOutput = ToolProgressOutput(step: string, message: string, iteration: Option<int>)

  const NO_DOCUMENTS := "Pipeline completed without retrieving any documents"
  const TOOL_MAX_ITERATIONS := 3

  function StepName(p: Progress): string
  {
    match p
    case IterationStart(_, _, _) => "iteration-start"
    case QueriesReady(_, _, _) => "queries-ready"
    case IterationComplete(_, _, _, _, _) => "iteration-complete"
    case Complete(_, _, _) => "complete"
    case ResultEvent(_, _, _, _) => "result"
  }

  /** `attempt` when the event has one, else `totalAttempts` when it has that, else nothing. */
  function ForwardedIteration(p: Progress): (it: Option<int>)
    ensures (p.IterationStart? || p.QueriesReady? || p.IterationComplete?) ==> it == Some(p.attempt)
    ensures (p.Complete? || p.ResultEvent?) ==> it == Some(p.totalAttempts)
  {
    match p
    case IterationStart(attempt, _, _) => Some(attempt)
    case QueriesReady(attempt, _, _) => Some(attempt)
    case IterationComplete(attempt, _, _, _, _) => Some(attempt)
    case Complete(total, _, _) => Some(total)
    case ResultEvent(_, _, total, _) => Some(total)
  }

  function Forward(p: Progress): ToolProgressOutput
  {
    ToolProgressOutput(StepName(p), p.message, ForwardedIteration(p))
  }

  /** The outputs streamed while the pipeline runs: every non-result event, in order. */
  function Forwarded(events: seq<Progress>): (out: seq<ToolProgressOutput>)
    ensures |out| <= |events|
    ensures forall o :: o in out ==> o.step != "result"
  {
    if events == [] then []
    else
      var last := events[|events| - 1];
      Forwarded(events[..|events| - 1]) + (if last.ResultEvent? then [] else [Forward(last)])
  }

  lemma {:induction false} ForwardedConcat(a: seq<Progress>, b: seq<Progress>)
    ensures Forwarded(a + b) == Forwarded(a) + Forwarded(b)
    decreases |b|
  {
    if b == [] {
      assert a + b == a;
    } else {
      var n := |b|;
      var last := b[n - 1];
      assert (a + b)[..|a + b| - 1] == a + b[..n - 1];
      assert (a + b)[|a + b| - 1] == last;
      var tail := if last.ResultEvent? then [] else [Forward(last)];
      assert Forwarded(a + b) == Forwarded(a + b[..n - 1]) + tail;
      assert Forwarded(b) == Forwarded(b[..n - 1]) + tail;
      ForwardedConcat(a, b[..n - 1]);
    }
  }

  /** The last "result" event, if any. */
  function LastResult(events: seq<Progress>): (r: Option<Progress>)
    ensures r.Some? ==> r.value.ResultEvent? && r.value in events
    ensures r.None? ==> forall e :: e in events ==> !e.ResultEvent?
  {
    if events == [] then None
    else if events[|events| - 1].ResultEvent? then Some(events[|events| - 1])
    else
      var r := LastResult(events[..|events| - 1]);
      assert forall e :: e in events ==> e in events[..|events| - 1] || e == events[|events| - 1];
      r
  }

  /** "Source: s\ncontent" for each document, separated by a horizontal rule; a missing source prints as "undefined". */
  function SummaryDocuments(documents: seq<Document>): string
  {
    Join(seq(|documents|, i requires 0 <= i < |documents| =>
      "Source: " + documents[i].source.GetOr("undefined") + "\n" + documents[i].pageContent), "\n\n---\n\n")
  }

  function SummaryPrompt(documents: seq<Document>, evaluationJson: string): string
  {
    "\n        DOCUMENTS:\n        " + SummaryDocuments(documents) + "\n        =================\n        EVALUATION:\n        "
      + evaluationJson + "  \n      "
  }

  /** The evaluation handed to the summary: the five prompt fields of the last result's evaluation. */
  function SummaryEvaluation(documents: seq<Document>, evaluation: Option<PartialEvaluation>, attempts: int, query: string): PartialEvaluation
  {
    GetEvaluationForPrompt(RetrievalState(attempts, [], evaluation.GetOr(EmptyPartial), documents, [], query))
  }

  /**
   * The two outputs after the loop: the "generating-summary" notice with the document count, then
   * the summarizing agent's answer to the documents and the evaluation, both numbered with the attempts.
   */
  function SummaryOutputs(documents: seq<Document>, evaluation: Option<PartialEvaluation>, attempts: int, query: string,
                          summarize: string -> string, stringify: PartialEvaluation -> string): seq<ToolProgressOutput>
  {
    [ToolProgressOutput("generating-summary",
       "Generating summary from " + NatToString(|documents|) + " retrieved documents...", Some(attempts)),
     ToolProgressOutput("complete",
       summarize(SummaryPrompt(documents, stringify(SummaryEvaluation(documents, evaluation, attempts, query)))),
       Some(attempts))]
  }

  /**
   * The body of `execute` after the pipeline has produced `events`. Failure means the thrown
   * "no documents" error; `outputs` holds what was yielded before it.
   */
  method ExecuteTool(events: seq<Progress>, query: string, summarize: string -> string,
                     stringify: PartialEvaluation -> string)
    returns (outputs: seq<ToolProgressOutput>, failure: Option<string>)
    ensures var last := LastResult(events);
      var documents := if last.Some? then last.value.documents else [];
      var attempts := if last.Some? then last.value.totalAttempts else 0;
      && (failure.Some? <==> |documents| == 0)
      && (failure.Some? ==> failure.value == NO_DOCUMENTS && outputs == Forwarded(events))
      && (failure.None? ==> outputs == Forwarded(events) + SummaryOutputs(documents,
            if last.Some? then Some(last.value.evaluation) else None, attempts, query, summarize, stringify))
  {
    var documents: seq<Document> := [];
    var evaluation: Option<PartialEvaluation> := None;
    var attempts := 0;
    outputs := [];
    var i := 0;
    while i < |events|
      invariant 0 <= i <= |events|
      invariant outputs == Forwarded(events[..i])
      invariant var last := LastResult(events[..i]);
        && documents == (if last.Some? then last.value.documents else [])
        && evaluation == (if last.Some? then Some(last.value.evaluation) else None)
        && attempts == (if last.Some? then last.value.totalAttempts else 0)
    {
      var progress := events[i];
      assert events[..i + 1][..i] == events[..i];
      if progress.ResultEvent? {
        documents := progress.documents;
        evaluation := Some(progress.evaluation);
        attempts := progress.totalAttempts;
      } else {
        outputs := outputs + [Forward(progress)];
      }
      i := i + 1;
    }
    assert events[..i] == events;
    if |documents| == 0 {
      failure := Some(NO_DOCUMENTS);
      return;
    }
    failure := None;
    var toPrompt := SummaryEvaluation(documents, evaluation, attempts, query);
    outputs := outputs + [ToolProgressOutput("generating-summary",
      "Generating summary from " + NatToString(|documents|) + " retrieved documents...", Some(attempts))];
    var summary := summarize(SummaryPrompt(documents, stringify(toPrompt)));
    outputs := outputs + [ToolProgressOutput("complete", summary, Some(attempts))];
  }

  /**
   * Over a run that finished without error, the tool captures the run's final documents, evaluation
   * and attempt count, and the last output it forwards is the "complete" event with that count.
   */
  lemma ToolOverFinishedRun(query: string, max: int, run: PipelineRun)
    requires Finished(query, max, run) && run.failure.None?
    ensures var n := run.final.retrievalAttempts;
      LastResult(run.events) == Some(ResultEvent(run.final.foundDocuments, run.final.evaluation, n, "Final retrieval result"))
    ensures var out := Forwarded(run.events);
      |out| >= 1 && out[|out| - 1] == ToolProgressOutput("complete", CompleteText(run.final.retrievalAttempts),
        Some(run.final.retrievalAttempts))
  {
    var n := run.final.retrievalAttempts;
    assert run.events[|run.events| - 2] == Complete(n, |run.final.foundDocuments|, CompleteText(n));
    ForwardedEnding(run.events);
  }

  /**
   * Events ending with a non-result event and then a result event: that result is the last one,
   * and the non-result event is the last output forwarded.
   */
  lemma ForwardedEnding(events: seq<Progress>)
    requires |events| >= 2 && events[|events| - 1].ResultEvent? && !events[|events| - 2].ResultEvent?
    ensures LastResult(events) == Some(events[|events| - 1])
    ensures var out := Forwarded(events); |out| >= 1 && out[|out| - 1] == Forward(events[|events| - 2])
  {
    var prefix := events[..|events| - 1];
    assert prefix[|prefix| - 1] == events[|events| - 2];
    assert Forwarded(events) == Forwarded(prefix);
  }

  /**
   * What the tool streams over pipeline run `run`: after a pipeline error, the events forwarded
   * so far and that error; after a run that found no documents, the forwarded events and the
   * "no documents" error; otherwise the forwarded events followed by the summary of the run's
   * final documents and evaluation.
   */
  predicate ToolStreams(run: PipelineRun, query: string, summarize: string -> string, stringify: PartialEvaluation -> string,
                        outputs: seq<ToolProgressOutput>, failure: Option<string>)
  {
    && (run.failure.Some? ==> failure == run.failure && outputs == Forwarded(run.events))
    && (run.failure.None? ==> (failure.Some? <==> run.final.foundDocuments == []))
    && (run.failure.None? && failure.Some? ==> failure.value == NO_DOCUMENTS && outputs == Forwarded(run.events))
    && (run.failure.None? && failure.None? ==>
          outputs == Forwarded(run.events) + SummaryOutputs(run.final.foundDocuments, Some(run.final.evaluation),
            run.final.retrievalAttempts, query, summarize, stringify))
  }

  /** `execute`: run the pipeline with at most three iterations and stream as `ToolStreams` says. */
  method ExecuteGetInformation(oracles: Oracles, query: string, summarize: string -> string,
                               stringify: PartialEvaluation -> string)
    returns (outputs: seq<ToolProgressOutput>, failure: Option<string>)
    ensures ToolStreams(RetrievalRun(oracles, query, Some(TOOL_MAX_ITERATIONS)), query, summarize, stringify, outputs, failure)
  {
    var events, pipelineFailure, final := RunRetrievalPipeline(oracles, query, Some(TOOL_MAX_ITERATIONS));
    if pipelineFailure.Some? {
      outputs := Forwarded(events);
      failure := pipelineFailure;
      return;
    }
    RunFacts(Passes(oracles), query, Some(TOOL_MAX_ITERATIONS));
    ToolOverFinishedRun(query, TOOL_MAX_ITERATIONS, PipelineRun(events, pipelineFailure, final));
    outputs, failure := ExecuteTool(events, query, summarize, stringify);
  }

  /**
   * Over a finished run (`RunFacts` says every pipeline run is one), a tool run that ends without
   * error streams, third from last, the pipeline's "complete" event, then the summary notice and
   * the summary, all three numbered with the same attempt count; every error it ends with is the
   * evaluator's or "no documents".
   */
  lemma ToolOutputsShape(query: string, run: PipelineRun, summarize: string -> string,
                         stringify: PartialEvaluation -> string, outputs: seq<ToolProgressOutput>, failure: Option<string>)
    requires Finished(query, TOOL_MAX_ITERATIONS, run)
    requires ToolStreams(run, query, summarize, stringify, outputs, failure)
    ensures failure.Some? ==> failure.value in {NO_DOCUMENTS, RetrievalEvaluator.INVALID_OUTPUT}
    ensures failure.None? ==> |outputs| >= 3
    ensures failure.None? ==> outputs[|outputs| - 1].step == "complete" && outputs[|outputs| - 2].step == "generating-summary"
    ensures failure.None? ==>
      outputs[|outputs| - 3].step == "complete" && outputs[|outputs| - 3].iteration == outputs[|outputs| - 1].iteration
  {
    if run.failure.None? {
      ToolOverFinishedRun(query, TOOL_MAX_ITERATIONS, run);
    }
  }
}
