/**
 * The telemetry collector of the older workflow (my-ai-app/lib/ai/utils/telemetry.ts): an
 * append-only record of iterations and query expansions plus a few scalar fields. Timestamps
 * come from the caller as `now`, standing for `new Date()`.
 */
module Telemetry {
  import opened Wrappers
  import opened RagTypes

  datatype IterationRecord = IterationRecord(
    iterationNumber: int, query: string, evaluation: Evaluation, documentsRetrieved: int, timestamp: int)

  datatype ExpansionRecord = ExpansionRecord(fromQuery: string, toQuery: string, reason: string, timestamp: int)

  datatype TokenUsage = TokenUsage(input: int, output: int)

  /** A JavaScript array object that is only ever pushed to. */
  class RecordList<T> {
    var items: seq<T>

    constructor()
      ensures items == []
    {
      items := [];
    }

    method Push(x: T)
      modifies this
      ensures items == old(items) + [x]
    {
      items := items + [x];
    }
  }

  /**
   * What `finalize` returns: `{ ...telemetry }`, a new top-level object whose `iterations` and
   * `queryExpansions` are the collector's own arrays.
   */
  datatype RagTelemetry = RagTelemetry(
    queryId: string,
    originalQuery: string,
    startTime: int,
    iterations: RecordList<IterationRecord>,
    queryExpansions: RecordList<ExpansionRecord>,
    finalConfidence: real,
    totalTokens: Option<TokenUsage>,
    error: Option<string>,
    endTime: Option<int>)

  /** What `getCurrentState` returns: identity fields and copies of both arrays. */
  datatype TelemetrySnapshot = TelemetrySnapshot(
    queryId: string,
    originalQuery: string,
    iterations: seq<IterationRecord>,
    queryExpansions: seq<ExpansionRecord>)

  /** The logged duration: end minus start once an end time is set, else 0. */
  function Duration(t: RagTelemetry): (d: int)
    ensures t.endTime.None? ==> d == 0
    ensures t.endTime.Some? ==> t.startTime + d == t.endTime.value
  {
    if t.endTime.Some? then t.endTime.value - t.startTime else 0
  }

  class RagTelemetryCollector {
    const queryId: string
    const originalQuery: string
    const startTime: int
    const iterations: RecordList<IterationRecord>
    const queryExpansions: RecordList<ExpansionRecord>
    var finalConfidence: real
    var totalTokens: Option<TokenUsage>
    var error: Option<string>
    var endTime: Option<int>

    constructor(queryId: string, originalQuery: string, now: int)
      ensures this.queryId == queryId && this.originalQuery == originalQuery && startTime == now
      ensures fresh(iterations) && fresh(queryExpansions)
      ensures iterations.items == [] && queryExpansions.items == []
      ensures finalConfidence == 0.0 && totalTokens.None? && error.None? && endTime.None?
    {
      this.queryId := queryId;
      this.originalQuery := originalQuery;
      startTime := now;
      iterations := new RecordList();
      queryExpansions := new RecordList();
      finalConfidence := 0.0;
      totalTokens := None;
      error := None;
      endTime := None;
    }

    /** Appends one entry; earlier entries, the expansion list and the scalar fields stay as they were. */
    method RecordIteration(iterationNumber: int, query: string, evaluation: Evaluation, documentsRetrieved: int, now: int)
      modifies iterations
      ensures iterations.items == old(iterations.items) + [IterationRecord(iterationNumber, query, evaluation, documentsRetrieved, now)]
      ensures |iterations.items| == |old(iterations.items)| + 1
      ensures unchanged(queryExpansions)
    {
      iterations.Push(IterationRecord(iterationNumber, query, evaluation, documentsRetrieved, now));
    }

    /** Appends one entry; the iteration list and the scalar fields stay as they were. */
    method RecordQueryExpansion(fromQuery: string, toQuery: string, reason: string, now: int)
      modifies queryExpansions
      ensures queryExpansions.items == old(queryExpansions.items) + [ExpansionRecord(fromQuery, toQuery, reason, now)]
      ensures unchanged(iterations)
    {
      queryExpansions.Push(ExpansionRecord(fromQuery, toQuery, reason, now));
    }

    method SetFinalConfidence(confidence: real)
      modifies this
      ensures finalConfidence == confidence
      ensures totalTokens == old(totalTokens) && error == old(error) && endTime == old(endTime)
    {
      finalConfidence := confidence;
    }

    method SetTokenUsage(input: int, output: int)
      modifies this
      ensures totalTokens == Some(TokenUsage(input, output))
      ensures finalConfidence == old(finalConfidence) && error == old(error) && endTime == old(endTime)
    {
      totalTokens := Some(TokenUsage(input, output));
    }

    method RecordError(message: string)
      modifies this
      ensures error == Some(message)
      ensures finalConfidence == old(finalConfidence) && totalTokens == old(totalTokens) && endTime == old(endTime)
    {
      error := Some(message);
    }

    /** Sets the end time and returns a top-level copy that shares both arrays with the collector. */
    method Finalize(now: int) returns (t: RagTelemetry)
      modifies this
      ensures endTime == Some(now)
      ensures finalConfidence == old(finalConfidence) && totalTokens == old(totalTokens) && error == old(error)
      ensures t == RagTelemetry(queryId, originalQuery, startTime, iterations, queryExpansions,
        finalConfidence, totalTokens, error, endTime)
      ensures Duration(t) == now - startTime
    {
      endTime := Some(now);
      t := RagTelemetry(queryId, originalQuery, startTime, iterations, queryExpansions,
        finalConfidence, totalTokens, error, endTime);
    }

    /** Copies of both arrays together with the query id and the original query. */
    method GetCurrentState() returns (s: TelemetrySnapshot)
      ensures s.queryId == queryId && s.originalQuery == originalQuery
      ensures s.iterations == iterations.items && s.queryExpansions == queryExpansions.items
    {
      s := TelemetrySnapshot(queryId, originalQuery, iterations.items, queryExpansions.items);
    }
  }

  /**
   * A snapshot taken before a record keeps its old lists, while a finalized copy sees the new
   * entry through the array it shares with the collector.
   */
  method SnapshotAndAlias(c: RagTelemetryCollector, query: string, evaluation: Evaluation, now: int)
    returns (snapshot: TelemetrySnapshot, finalized: RagTelemetry)
    modifies c, c.iterations
    ensures snapshot.iterations == old(c.iterations.items)
    ensures finalized.iterations == c.iterations
    ensures finalized.iterations.items == old(c.iterations.items) + [IterationRecord(1, query, evaluation, 0, now)]
    ensures finalized.endTime == Some(now)
  {
    snapshot := c.GetCurrentState();
    finalized := c.Finalize(now);
    c.RecordIteration(1, query, evaluation, 0, now);
  }
}
