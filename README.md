# Personal-RAG retrieval core in Dafny

This project models the retrieval core of the Personal-RAG assistant (`my-ai-app/lib/ai`). It covers two loops and the helpers they share.

- **The retrieval pipeline** (`retrieval/pipeline.ts`) behind the `getInformation` tool (`tools/get-information.ts`). Each iteration does the following:
  1. Picks its queries: the original query first, the query expander's variations later.
  2. Runs a vector search. Once the evaluator has flagged documents, the search uses a source filter.
  3. Reranks the vector hits with BM25 and fuses the two lists with Reciprocal Rank Fusion (`utils/ranking.ts`).
  4. Asks the LLM evaluator (`evaluation/retrieval-evaluator.ts`) for a verdict.
  5. Folds the iteration into the retrieval state (`retrieval/state.ts`).

  The pipeline streams progress events. The tool forwards them and summarises the final documents.
- **The self-reflecting workflow** (`workflows/self-reflecting-rag.ts`). It keeps a mutable state object and loops as follows:
  1. Retrieves documents. On the first round, when multi-query retrieval is enabled, it also searches the original query plus two expansions and deduplicates the results by content.
  2. Evaluates the documents.
  3. Stops when the verdict is sufficient and confident.
  4. Otherwise it expands the query (`evaluation/query-expander.ts`) and records telemetry (`utils/telemetry.ts`).
- **Embedding and ingestion helpers.** Sentence chunking and the embedding calls (`embeddings.ts`), and manual PDF ingestion into the resources and embeddings tables (`ingestion/ingest.ts`).

Modelling choices:
- One Dafny module per source file. Four helper modules sit beside them:
  - `Wrappers`: `Option`, `Result`.
  - `Strings`: join, split, decimal rendering.
  - `OrderedSets`: a JavaScript `Set`, which iterates in insertion order. It is modelled as a duplicate-free sequence.
  - `Documents`: the LangChain document and its fusion key.
- Pure code becomes functions with lemmas. Loops become methods whose loop invariants prove them equal to those functions.
- Objects the source mutates are classes: the workflow's `RAGState`, the telemetry collector and its arrays, the database tables.
- Every external call is a parameter: LLMs, vector store, BM25 retriever, embedding model, PDF loader, text splitter, clock. Each model call is indexed by the attempt number, so a run can be given a prescribed answer per call.
- Scores and confidences are `real`.
- A thrown error is the `Failure` case of a `Result`, or an `Option<string>` error out-parameter of a method.
- Each loop is specified by a function over its inputs: `Pipeline.RetrievalRun` for the pipeline, `SelfReflectingRag.Workflow` for the workflow. The workflow's loop is stated over its three collaborators (retrieve, evaluate, expand). `SelfReflectingRag.Over` builds them from the oracles, and `SelfReflectingRag.Ties` states that a given set answers as they do.

## Model

| member | source | states |
|---|---|---|
| `Documents.FusionKey` | my-ai-app/lib/ai/utils/ranking.ts:23 | The merge key is the id when it is a non-empty string, else the page content. |
| `Ranking.Lookup` | my-ai-app/lib/ai/utils/ranking.ts:24 | `rrfScores.get(key)` finds an entry with that key exactly when the key is in the map. |
| `Ranking.ApplyHit` | my-ai-app/lib/ai/utils/ranking.ts:24-30 | One hit adds its score to the key's entry, or appends a new entry with the document and the score. |
| `Ranking.AddRankedHits` | my-ai-app/lib/ai/utils/ranking.ts:18-31 | The loop gives the document at index i the score 1/(60+i+1), updating the map in place. The result equals the specification `Accumulate`. |
| `Ranking.ReciprocalRankFusion` | my-ai-app/lib/ai/utils/ranking.ts:12-54 | The two loops, the sort, the slice and the map yield exactly `Fused`, the specification the lemmas below describe. |
| `Ranking.Fused` | my-ai-app/lib/ai/utils/ranking.ts:12-54 | The specification `ReciprocalRankFusion` is proved against: the documents of the stably score-sorted table, at most five, and nothing from two empty lists. |
| `Ranking.ScoreTableFacts` | my-ai-app/lib/ai/utils/ranking.ts:16-46 | After both loops the map has one entry per key, holding the key's first document. Entries are in first-occurrence order, and each score is the sum of that key's reciprocal ranks in both lists. |
| `Ranking.SortLexSorted` | my-ai-app/lib/ai/utils/ranking.ts:48-49 | The stable descending sort orders entries by score, with ties in insertion order. |
| `Ranking.SortedOrder` | my-ai-app/lib/ai/utils/ranking.ts:48-49 | The sorted map has distinct keys. It is ordered by descending fused score, with ties in the order the keys first occur across vector then BM25 results. |
| `Ranking.SortedEntries` | my-ai-app/lib/ai/utils/ranking.ts:16-49 | Every sorted entry has an input key, that key's first document and that key's fused score. |
| `Ranking.SortedLength` | my-ai-app/lib/ai/utils/ranking.ts:16-49 | There are as many sorted entries as distinct keys across both lists. |
| `Ranking.SortedCovers` | my-ai-app/lib/ai/utils/ranking.ts:16-49 | Every key of either list has a sorted entry. |
| `Ranking.FusedIsTop` | my-ai-app/lib/ai/utils/ranking.ts:48-51 | The output is the documents of the first min(5, n) sorted entries, in order. |
| `Ranking.FusedLength` | my-ai-app/lib/ai/utils/ranking.ts:48-51 | The output length is min(5, number of distinct keys across both lists). |
| `Ranking.FusedDistinctKeys` | my-ai-app/lib/ai/utils/ranking.ts:48-51 | No two output documents share a key. |
| `Ranking.FusedFirstOccurrence` | my-ai-app/lib/ai/utils/ranking.ts:26-29 | Each output document is the first document with its key (vector list first), so it is an element of one of the inputs. |
| `Ranking.FusedScoreOrder` | my-ai-app/lib/ai/utils/ranking.ts:48-51 | Output documents are in non-increasing fused score. Equal scores keep first-occurrence order. |
| `Ranking.FusedCutoff` | my-ai-app/lib/ai/utils/ranking.ts:48-51 | A key left out of the output scores no higher than the fifth kept document. Keys are left out only when five were kept. |
| `Ranking.FusedVectorOnly` | my-ai-app/lib/ai/utils/ranking.ts:12-54 | With distinct keys and no BM25 results, the output is the first five vector documents in their order. |
| `Ranking.RankScoreAntitone` | my-ai-app/lib/ai/utils/ranking.ts:20-21 | A later rank contributes no more than an earlier one. |
| `Ranking.RanksSorted` | my-ai-app/lib/ai/utils/ranking.ts:18-49 | A list with distinct keys is already in score order, so the sort leaves it unchanged. |
| `OrderedSets.AddAll` | my-ai-app/lib/ai/retrieval/state.ts:67-70 | Adding to an insertion-ordered set keeps the old members as a prefix, stays duplicate-free and yields the union. |
| `Strategies.BuildSourceFilter` | my-ai-app/lib/ai/retrieval/strategies.ts:73-85 | The filter lists exactly the given sources. |
| `Strategies.PerformVectorSearch` | my-ai-app/lib/ai/retrieval/strategies.ts:7-40 | With a filter, each query is searched with it and the results are concatenated in query order. Without a filter, only the first query is searched. The limit defaults to 5. |
| `Strategies.SearchEachConcat` | my-ai-app/lib/ai/retrieval/strategies.ts:19-25 | Searching two query lists one after the other concatenates their results. |
| `Strategies.UnfilteredUsesFirstQuery` | my-ai-app/lib/ai/retrieval/strategies.ts:36 | Without a filter, queries after the first are ignored. |
| `Strategies.FilteredAppendsQuery` | my-ai-app/lib/ai/retrieval/strategies.ts:19-28 | With a filter, one more query appends that query's results. |
| `Strategies.PerformBm25Search` | my-ai-app/lib/ai/retrieval/strategies.ts:42-57 | BM25 ranks the given documents for the query with k defaulting to 5. |
| `Strategies.FuseResults` | my-ai-app/lib/ai/retrieval/strategies.ts:59-71 | Returns the rank fusion of the two lists. |
| `State.CreateRetrievalState` | my-ai-app/lib/ai/retrieval/state.ts:5-22 | No attempts, the query as the only tried query, empty document sets and a not-sufficient placeholder evaluation. The state is consistent. |
| `State.PlaceholderInvalid` | my-ai-app/lib/ai/retrieval/state.ts:9-17 | The placeholder evaluation (relevance 0, coverage 0) violates the evaluation schema's ranges. |
| `State.ShouldContinueIteration` | my-ai-app/lib/ai/retrieval/state.ts:24-31 | Continue exactly when attempts are below the limit and the verdict is not sufficient. A missing verdict counts as not sufficient. |
| `State.IncrementAttempts` | my-ai-app/lib/ai/retrieval/state.ts:33-38 | One more attempt, nothing else changes, and consistency is kept. |
| `State.AddTriedQueries` | my-ai-app/lib/ai/retrieval/state.ts:40-48 | The old tried queries stay as a prefix, followed by the new ones, and nothing else changes. |
| `State.UpdateEvaluation` | my-ai-app/lib/ai/retrieval/state.ts:50-61 | The new evaluation is the old one spread with the new fields, and nothing else changes. |
| `State.AddMostRelevantDocuments` | my-ai-app/lib/ai/retrieval/state.ts:63-75 | The copy-and-add loop yields the set union in insertion order and leaves the rest of the state as it was. |
| `State.AddFoundDocuments` | my-ai-app/lib/ai/retrieval/state.ts:77-89 | The copy-and-add loop yields the set union in insertion order and leaves the rest of the state as it was. |
| `State.AddDocumentsConsistent` | my-ai-app/lib/ai/retrieval/state.ts:63-89 | Both additions keep the state consistent. |
| `State.GetSourceFilter` | my-ai-app/lib/ai/retrieval/state.ts:91-101 | `null` exactly when no document is flagged. Otherwise the distinct sources of the flagged documents, without duplicates. |
| `State.GetEvaluationForPrompt` | my-ai-app/lib/ai/retrieval/state.ts:103-113 | Exactly the five fields gaps, coverage, confidence, relevance and isSufficient; the others are absent. |
| `RagTypes.WithDocuments` | my-ai-app/lib/ai/evaluation/retrieval-evaluator.ts:82 | The evaluator's parsed fields plus the flagged documents. A schema-valid evaluation gives a valid partial. |
| `RagTypes.SpreadLaws` | my-ai-app/lib/ai/retrieval/state.ts:56-59 | Spreading `{}` changes nothing, and spreading the same object twice equals spreading it once. |
| `RagTypes.SpreadFull` | my-ai-app/lib/ai/retrieval/state.ts:56-59 | Spreading a complete evaluation replaces the old one entirely. |
| `RagTypes.SufficiencyNotTiedToConfidence` | my-ai-app/lib/ai/types/rag.ts:24-28 | The schema admits a sufficient verdict at confidence 0 and an insufficient one at confidence 1. |
| `Telemetry.RecordList.Push` | my-ai-app/lib/ai/utils/telemetry.ts:23 | `push` appends one element. |
| `Telemetry.RagTelemetryCollector.constructor` | my-ai-app/lib/ai/utils/telemetry.ts:6-15 | The collector starts with the ids, the start time, two fresh empty lists and confidence 0. |
| `Telemetry.RagTelemetryCollector.RecordIteration` | my-ai-app/lib/ai/utils/telemetry.ts:17-30 | Appends one iteration record stamped with the clock and leaves the expansions list alone. |
| `Telemetry.RagTelemetryCollector.RecordQueryExpansion` | my-ai-app/lib/ai/utils/telemetry.ts:32-43 | Appends one expansion record and leaves the iterations list alone. |
| `Telemetry.RagTelemetryCollector.SetFinalConfidence` | my-ai-app/lib/ai/utils/telemetry.ts:45-47 | Sets the confidence only. |
| `Telemetry.RagTelemetryCollector.SetTokenUsage` | my-ai-app/lib/ai/utils/telemetry.ts:49-51 | Sets the token usage only. |
| `Telemetry.RagTelemetryCollector.RecordError` | my-ai-app/lib/ai/utils/telemetry.ts:53-55 | Sets the error only. |
| `Telemetry.RagTelemetryCollector.Finalize` | my-ai-app/lib/ai/utils/telemetry.ts:57-60 | Sets the end time and returns a shallow copy that shares both lists. Its logged duration is end minus start. |
| `Telemetry.RagTelemetryCollector.GetCurrentState` | my-ai-app/lib/ai/utils/telemetry.ts:62-69 | Copies the ids and the contents of both lists. |
| `Telemetry.Duration` | my-ai-app/lib/ai/utils/telemetry.ts:77-79 | End minus start once ended, else 0. |
| `Telemetry.SnapshotAndAlias` | my-ai-app/lib/ai/utils/telemetry.ts:57-69 | A snapshot keeps the lists as they were. A finalized copy sees later records through the shared array. |
| `QueryExpander.NumberedGaps` | my-ai-app/lib/ai/evaluation/query-expander.ts:27 | Gap i is rendered as "i+1. gap", in order. |
| `QueryExpander.NumberedGapsLines` | my-ai-app/lib/ai/evaluation/query-expander.ts:27 | When no gap contains a line break, the gap listing splits back into one numbered line per gap. |
| `QueryExpander.ExpansionPrompt` | my-ai-app/lib/ai/evaluation/query-expander.ts:17-38 | The gap system prompt exactly when there is a gap, the strategy system prompt exactly when there is none, and a user prompt that opens by quoting the original query. |
| `QueryExpander.ExpansionPromptChoice` | my-ai-app/lib/ai/evaluation/query-expander.ts:17-38 | The gap prompts are used exactly when there is a gap, and the strategy prompts otherwise, with the user text each branch builds. |
| `QueryExpander.ExpandQuery` | my-ai-app/lib/ai/evaluation/query-expander.ts:13-58 | Missing or empty gaps send the model the strategy prompt for the query; otherwise it gets the gap prompt with the gaps numbered from 1. |
| `QueryExpander.ExpandQueryReadsQueryAndGaps` | my-ai-app/lib/ai/evaluation/query-expander.ts:13-16 | The expansion depends on the original query and the gaps only. Missing gaps act as none. |
| `QueryExpander.Rank` | my-ai-app/lib/ai/evaluation/query-expander.ts:76 | A strategy's index in the priority order, or 4 when it is not listed. |
| `QueryExpander.Untried` | my-ai-app/lib/ai/evaluation/query-expander.ts:66-68 | Keeps exactly the variations whose query was not tried. |
| `QueryExpander.UntriedConcat` | my-ai-app/lib/ai/evaluation/query-expander.ts:66-68 | The filter preserves order. |
| `QueryExpander.Find` | my-ai-app/lib/ai/evaluation/query-expander.ts:79 | `find` returns the earliest variation of the strategy, or nothing when there is none. |
| `QueryExpander.FirstByPriorityFacts` | my-ai-app/lib/ai/evaluation/query-expander.ts:78-83 | The loop finds nothing exactly when no candidate has a listed strategy. Otherwise it returns the earliest candidate of the first listed strategy present. |
| `QueryExpander.SelectBestQuery` | my-ai-app/lib/ai/evaluation/query-expander.ts:61-87 | Fails exactly when there are no variations, and then with the message of the TypeError that reading `.query` throws. |
| `QueryExpander.SelectBestQueryFacts` | my-ai-app/lib/ai/evaluation/query-expander.ts:61-87 | Selection throws exactly on an empty list. A result is always one of the variations. With all tried, it is the first variation; otherwise it is untried. |
| `QueryExpander.SelectBestQueryPick` | my-ai-app/lib/ai/evaluation/query-expander.ts:70-86 | With an untried variation, the pick is the priority loop's match or else the first untried one. |
| `QueryExpander.PickedRank` | my-ai-app/lib/ai/evaluation/query-expander.ts:76-83 | The loop's pick has the best rank present and strictly beats every earlier candidate. |
| `QueryExpander.SelectsHighestPriority` | my-ai-app/lib/ai/evaluation/query-expander.ts:75-83 | Among untried variations the pick has the highest-priority strategy present, and is the earliest of those. |
| `QueryExpander.FallbackUnreachable` | my-ai-app/lib/ai/evaluation/query-expander.ts:85-86 | When every strategy comes from the schema's enum, the fallback to the first untried query is never reached. |
| `RetrievalEvaluator.ChunkId` | my-ai-app/lib/ai/evaluation/retrieval-evaluator.ts:22 | A present id is kept even when empty. Otherwise the id is "doc-" followed by the 1-based position. |
| `RetrievalEvaluator.DefaultIdsDistinct` | my-ai-app/lib/ai/evaluation/retrieval-evaluator.ts:22 | Documents without ids at different positions get different chunk ids. |
| `RetrievalEvaluator.ChunkSource` | my-ai-app/lib/ai/evaluation/retrieval-evaluator.ts:23-27 | The source when truthy, else "unknown". |
| `RetrievalEvaluator.FormatChunkShape` | my-ai-app/lib/ai/evaluation/retrieval-evaluator.ts:28-34 | `FormatChunk` opens a chunk with its quoted chunk id and ends it with the document's content. |
| `RetrievalEvaluator.FormattedChunks` | my-ai-app/lib/ai/evaluation/retrieval-evaluator.ts:20-35 | One formatted chunk per document, numbered by position, in order. |
| `RetrievalEvaluator.FormatDocumentsAppend` | my-ai-app/lib/ai/evaluation/retrieval-evaluator.ts:36 | One more document appends a blank line and its chunk. |
| `RetrievalEvaluator.EvaluationPromptShape` | my-ai-app/lib/ai/evaluation/retrieval-evaluator.ts:45-60 | `EvaluationPrompt` opens with the tried queries, one per line, and closes with the evaluation instructions. |
| `RetrievalEvaluator.Flagged` | my-ai-app/lib/ai/evaluation/retrieval-evaluator.ts:77-79 | Keeps exactly the documents whose `id ?? ""` the model listed. |
| `RetrievalEvaluator.FlaggedConcat` | my-ai-app/lib/ai/evaluation/retrieval-evaluator.ts:77-79 | The filter preserves document order. |
| `RetrievalEvaluator.MostRelevantDocuments` | my-ai-app/lib/ai/evaluation/retrieval-evaluator.ts:75-80 | None when no id was listed, else the flagged documents. |
| `RetrievalEvaluator.LengthGuardRedundant` | my-ai-app/lib/ai/evaluation/retrieval-evaluator.ts:76 | The length guard does not change the result. |
| `RetrievalEvaluator.EvaluateRetrieval` | my-ai-app/lib/ai/evaluation/retrieval-evaluator.ts:14-83 | Fails with "Invalid retrieval evaluation output" exactly when the model's answer is missing or fails the schema. Otherwise it returns the answer unchanged together with the flagged documents. |
| `RetrievalEvaluator.EvaluateRetrievalAsWritten` | my-ai-app/lib/ai/evaluation/retrieval-evaluator.ts:61-76 | As written it never succeeds: a schema failure is "Invalid retrieval evaluation output", and every schema-valid answer throws when `.length` is read on the stripped `mostRelevantChunkIds`. |
| `RetrievalEvaluator.ChunkIdsDiscrepancy` | my-ai-app/lib/ai/evaluation/retrieval-evaluator.ts:61-80 | Where the model answers validly, the evaluator as written throws while the corrected one succeeds. |
| `Pipeline.VariationQueries` | my-ai-app/lib/ai/retrieval/pipeline.ts:75 | The variations' queries, in order. |
| `Pipeline.GetIterationQueries` | my-ai-app/lib/ai/retrieval/pipeline.ts:61-76 | The original query on the first iteration. After that, the expander's queries for the state's gaps. |
| `Pipeline.SearchOptions` | my-ai-app/lib/ai/retrieval/pipeline.ts:30-36 | Once documents are flagged: limit 5 and a filter over their sources. Before that: limit 20 and no filter. |
| `Pipeline.IterationOutcome` | my-ai-app/lib/ai/retrieval/pipeline.ts:26-59 | The vector results are the search under `SearchOptions` for the state and the queries. BM25 reranks them with the original query, and the fused list is their rank fusion. The iteration fails exactly when the evaluator rejects its answer on all tried queries and the fused list, with the evaluator's error. Otherwise its evaluation and flagged documents are the evaluator's. |
| `Pipeline.ExecuteIteration` | my-ai-app/lib/ai/retrieval/pipeline.ts:26-59 | The steps of `executeIteration` yield `IterationOutcome`. |
| `Pipeline.IterationSearchRouting` | my-ai-app/lib/ai/retrieval/pipeline.ts:30-41 | The search is filtered exactly when documents were flagged, and BM25 uses the original query. |
| `Pipeline.NotIn` | my-ai-app/lib/ai/retrieval/pipeline.ts:105-107 | Keeps exactly the documents not yet found. |
| `Pipeline.NotInRedundant` | my-ai-app/lib/ai/retrieval/pipeline.ts:104-114 | Filtering out found documents before adding them changes nothing. |
| `Pipeline.UpdateStateFromIteration` | my-ai-app/lib/ai/retrieval/pipeline.ts:78-118 | One more attempt, the queries appended and the evaluation replaced. On an insufficient verdict the flagged documents join the relevant set. On a sufficient one the flagged and fused documents join the found set. Consistency is kept. |
| `Pipeline.FirstIterationRepeatsQuery` | my-ai-app/lib/ai/retrieval/pipeline.ts:65-67 | After the first iteration the original query is listed twice among the tried queries. |
| `Pipeline.AppendIteration` | my-ai-app/lib/ai/retrieval/pipeline.ts:127-161 | Each iteration appends its start, queries-ready and complete events. |
| `Pipeline.PassFrom` | my-ai-app/lib/ai/retrieval/pipeline.ts:128-160 | A pass reports the next attempt's queries (the query alone on the first). On an evaluator error the state stays. Otherwise the verdict is reported and recorded, the attempt counted, the original query kept, nothing found on an insufficient verdict, and the state stays duplicate-free. |
| `Pipeline.LoopBody` | my-ai-app/lib/ai/retrieval/pipeline.ts:128-160 | The loop body's queries event, its outcome (the complete event or the evaluator's error) and the next state are exactly those of `PassFrom` over the oracles. |
| `Pipeline.RunRetrievalPipeline` | my-ai-app/lib/ai/retrieval/pipeline.ts:120-185 | The events it yields, the error that ends it and its final state are exactly those of `RetrievalRun` over the same oracles, query and limit. |
| `Pipeline.RunFrom` | my-ai-app/lib/ai/retrieval/pipeline.ts:127-185 | Definition, no contract of its own: the loop from a state on, whose properties `Pipeline.RunFromFacts` states. |
| `Pipeline.Run` | my-ai-app/lib/ai/retrieval/pipeline.ts:120-185 | Definition, no contract of its own: the loop from the initial state with the default limit of three, whose properties `Pipeline.RunFacts` states. |
| `Pipeline.RetrievalRun` | my-ai-app/lib/ai/retrieval/pipeline.ts:120-185 | Definition, no contract of its own: the run with the loop body over the oracles, which `Pipeline.RunRetrievalPipeline` is proved equal to and `Pipeline.NeverSufficientRunsToLimit` and `Pipeline.SufficientFirstStops` describe. |
| `Pipeline.RunFromFacts` | my-ai-app/lib/ai/retrieval/pipeline.ts:127-185 | From every reported state, the run keeps the events so far, adds one triple per iteration, and closes with "complete" and "result" or stops at the evaluator's error. |
| `Pipeline.RunFacts` | my-ai-app/lib/ai/retrieval/pipeline.ts:120-185 | Whatever the loop body answers: three events per iteration, at most the limit, the first iteration searching with the query alone, no iteration but the last reporting "sufficient", found documents only after a sufficient verdict. The run ends with "complete" and "result", or with the evaluator's error after that iteration's start and queries events. |
| `Pipeline.NeverSufficientPass` | my-ai-app/lib/ai/retrieval/pipeline.ts:147-158 | An evaluator that always answers "insufficient" makes every pass succeed with an insufficient verdict. |
| `Pipeline.InsufficientFrom` | my-ai-app/lib/ai/retrieval/pipeline.ts:127-161 | A loop body whose passes all report "insufficient" runs to the limit without error and finds nothing. |
| `Pipeline.NeverSufficientRunsToLimit` | my-ai-app/lib/ai/retrieval/pipeline.ts:120-185 | With such an evaluator the pipeline runs every allowed iteration, ends without error and finds no documents. |
| `Pipeline.SufficientFirstRun` | my-ai-app/lib/ai/retrieval/pipeline.ts:127-185 | A first pass with a sufficient verdict ends the run after it, in that pass's state, with five events. |
| `Pipeline.FirstPass` | my-ai-app/lib/ai/retrieval/pipeline.ts:137-160 | The first pass searches with the query alone, so it is the first iteration reported and folded into the state. |
| `Pipeline.SufficientFirstStops` | my-ai-app/lib/ai/retrieval/pipeline.ts:120-185 | When the first iteration is sufficient, the run stops after one attempt without error. Its final state is that iteration folded into the new state, and it yields five events. |
| `GetInformation.ForwardedIteration` | my-ai-app/lib/ai/tools/get-information.ts:37-43 | `attempt` when the event has one, else `totalAttempts`. |
| `GetInformation.Forwarded` | my-ai-app/lib/ai/tools/get-information.ts:29-53 | Every non-result event is forwarded, in order. |
| `GetInformation.ForwardedConcat` | my-ai-app/lib/ai/tools/get-information.ts:29-53 | Forwarding distributes over concatenation. |
| `GetInformation.LastResult` | my-ai-app/lib/ai/tools/get-information.ts:30-34 | The captured result is the last result event, or none. |
| `GetInformation.ExecuteTool` | my-ai-app/lib/ai/tools/get-information.ts:23-93 | Throws exactly when the captured documents are empty. Otherwise it yields the forwarded events, the summary notice and the summary. |
| `GetInformation.ToolOverFinishedRun` | my-ai-app/lib/ai/tools/get-information.ts:29-53 | Over a finished pipeline run, the tool captures the final result and forwards "complete" with the same attempt count. |
| `GetInformation.ExecuteGetInformation` | my-ai-app/lib/ai/tools/get-information.ts:23-93 | Over the pipeline run for these oracles (at most three iterations): an evaluator error is passed on after the forwarded events; no final documents is the no-documents error; otherwise the forwarded events are followed by the summary of the run's final documents and evaluation. |
| `GetInformation.ToolOutputsShape` | my-ai-app/lib/ai/tools/get-information.ts:23-93 | Over a finished run, a tool run without error ends with "complete", "generating-summary", "complete" numbered alike; every error is the evaluator's or the no-documents error. |
| `SelfReflectingRag.Clock.Now` | my-ai-app/lib/ai/utils/telemetry.ts:28 | Each `new Date()` is the clock's next reading. |
| `SelfReflectingRag.ToWorkflowDocuments` | my-ai-app/lib/ai/workflows/self-reflecting-rag.ts:65-68 | Each fused document becomes its content and metadata. |
| `SelfReflectingRag.RetrieveDocuments` | my-ai-app/lib/ai/workflows/self-reflecting-rag.ts:44-69 | Fuses the top 20 of a 40-wide search with BM25 over all 40, and returns at most 5 documents. |
| `SelfReflectingRag.Retrieved` | my-ai-app/lib/ai/workflows/self-reflecting-rag.ts:44-69 | The specification `RetrieveDocuments` is proved against; it holds at most five documents. |
| `SelfReflectingRag.DedupByContent` | my-ai-app/lib/ai/workflows/self-reflecting-rag.ts:96-109 | Keeps every content, and only documents of the input. |
| `SelfReflectingRag.DedupStep` | my-ai-app/lib/ai/workflows/self-reflecting-rag.ts:101-105 | A document is kept exactly when its content is new. |
| `SelfReflectingRag.DedupDistinct` | my-ai-app/lib/ai/workflows/self-reflecting-rag.ts:96-109 | Kept documents have distinct contents. |
| `SelfReflectingRag.DedupFirstOccurrence` | my-ai-app/lib/ai/workflows/self-reflecting-rag.ts:96-109 | Each kept document is the first with its content. |
| `SelfReflectingRag.DedupFirstOccurrenceOrder` | my-ai-app/lib/ai/workflows/self-reflecting-rag.ts:96-109 | Kept documents are in first-occurrence order. |
| `SelfReflectingRag.MultiQueries` | my-ai-app/lib/ai/workflows/self-reflecting-rag.ts:83-86 | The original query followed by at most the first two variations. |
| `SelfReflectingRag.RetrieveAll` | my-ai-app/lib/ai/workflows/self-reflecting-rag.ts:89-94 | One retrieval per query, in query order. |
| `SelfReflectingRag.DedupResults` | my-ai-app/lib/ai/workflows/self-reflecting-rag.ts:96-109 | The nested loop with a seen-set computes `DedupByContent` of the flattened lists. |
| `SelfReflectingRag.PerformMultiQueryRetrieval` | my-ai-app/lib/ai/workflows/self-reflecting-rag.ts:71-110 | Expands without gaps, retrieves for each query, then deduplicates by content. |
| `SelfReflectingRag.EvaluateAsWritten` | my-ai-app/lib/ai/workflows/self-reflecting-rag.ts:182-186 | Passing a string where a list is expected makes `query.join` throw on every call. |
| `SelfReflectingRag.AsEvaluatorDocuments` | my-ai-app/lib/ai/workflows/self-reflecting-rag.ts:184 | In the corrected call a workflow document reaches the evaluator as its content and source, without an id. As written, the object has no `pageContent`, so its text would not reach the prompt. |
| `SelfReflectingRag.EvaluateCorrected` | my-ai-app/lib/ai/workflows/self-reflecting-rag.ts:182-186 | With the query as a one-element list, the call succeeds exactly when the model answers validly. |
| `SelfReflectingRag.EvaluationDiscrepancy` | my-ai-app/lib/ai/workflows/self-reflecting-rag.ts:182-186 | The call as written fails where the corrected call succeeds. |
| `SelfReflectingRag.ShouldStopIteration` | my-ai-app/lib/ai/workflows/self-reflecting-rag.ts:162-169 | Stop exactly when the verdict is sufficient and the confidence reaches the threshold. |
| `SelfReflectingRag.SufficientBelowThresholdContinues` | my-ai-app/lib/ai/workflows/self-reflecting-rag.ts:166-168 | A sufficient verdict below the threshold does not stop the loop. |
| `SelfReflectingRag.RagState.constructor` | my-ai-app/lib/ai/workflows/self-reflecting-rag.ts:226-233 | The initial state: the query current and tried, nothing retrieved, no evaluation, iteration 0. |
| `SelfReflectingRag.RagState.Advance` | my-ai-app/lib/ai/workflows/self-reflecting-rag.ts:248 | `state.iteration++` changes nothing else. |
| `SelfReflectingRag.RagState.SetEvaluation` | my-ai-app/lib/ai/workflows/self-reflecting-rag.ts:182 | Stores the evaluation and changes nothing else. |
| `SelfReflectingRag.RagState.Expand` | my-ai-app/lib/ai/workflows/self-reflecting-rag.ts:146-148 | Appends the expansion, adds it to the tried set and makes it current. |
| `SelfReflectingRag.TriedAfterAddAll` | my-ai-app/lib/ai/workflows/self-reflecting-rag.ts:146-147 | Adding expansions one by one equals adding them all to the initial set. |
| `SelfReflectingRag.TriedAfterSet` | my-ai-app/lib/ai/workflows/self-reflecting-rag.ts:232 | Tried queries have no duplicates and are exactly the query and its expansions. |
| `SelfReflectingRag.NextQuery` | my-ai-app/lib/ai/workflows/self-reflecting-rag.ts:130-136 | Expands from the current query and the gaps, then selects against the tried queries. Its only error is the expander's "no variations". |
| `SelfReflectingRag.RecordExpansion` | my-ai-app/lib/ai/workflows/self-reflecting-rag.ts:138-144 | With a collector, exactly one expansion record is added. |
| `SelfReflectingRag.ExpandAndSelectQuery` | my-ai-app/lib/ai/workflows/self-reflecting-rag.ts:121-149 | Does nothing without an evaluation or on the last allowed iteration. Otherwise it expands exactly when the expander's pick succeeds: the pick is appended, marked tried, made current and logged once. When the pick fails, its error is returned and the state is unchanged. |
| `SelfReflectingRag.PerformRetrieval` | my-ai-app/lib/ai/workflows/self-reflecting-rag.ts:151-160 | Multi-query retrieval on iteration 0 when enabled, single-query retrieval otherwise. Only the documents change. |
| `SelfReflectingRag.Retrieval` | my-ai-app/lib/ai/workflows/self-reflecting-rag.ts:151-160 | Definition, no contract of its own: what `PerformRetrieval` stores, described by `SelfReflectingRag.RetrievalFacts`. |
| `SelfReflectingRag.RetrievalFacts` | my-ai-app/lib/ai/workflows/self-reflecting-rag.ts:70-160 | The multi-query retrieval of iteration 0 holds no two documents with the same content; the single-query retrieval holds at most five documents. |
| `SelfReflectingRag.EvaluateState` | my-ai-app/lib/ai/workflows/self-reflecting-rag.ts:181-196 | Stores the evaluator's verdict, or passes its error on. A verdict logs exactly one iteration record. |
| `SelfReflectingRag.Verdict` | my-ai-app/lib/ai/workflows/self-reflecting-rag.ts:182-186 | The evaluation the corrected evaluator call returns, schema-valid, or its "Invalid retrieval evaluation output" error. |
| `SelfReflectingRag.OverTies` | my-ai-app/lib/ai/workflows/self-reflecting-rag.ts:151-160 | The loop's three collaborators (retrieve, evaluate, expand) over the oracles answer as `Retrieval`, `Verdict` and `NextQuery` do. |
| `SelfReflectingRag.RetrieveAndEvaluate` | my-ai-app/lib/ai/workflows/self-reflecting-rag.ts:178-196 | The documents become those retrieved for the current query and iteration, and the evaluation the evaluator's verdict on them; a rejected verdict is passed on as the error. One iteration record is logged. |
| `SelfReflectingRag.PerformIteration` | my-ai-app/lib/ai/workflows/self-reflecting-rag.ts:171-207 | The stop flag, the new state and any error are those of `Iteration` over the oracles. It logs one iteration record, and one expansion record exactly when the query was expanded. |
| `SelfReflectingRag.Iteration` | my-ai-app/lib/ai/workflows/self-reflecting-rag.ts:171-207 | Definition, no contract of its own: retrieve and evaluate, stop on a sufficient and confident verdict, otherwise expand; `IterationKeeps`, `IterationEvaluates` and `IterationErrors` state its properties. |
| `SelfReflectingRag.IterationKeeps` | my-ai-app/lib/ai/workflows/self-reflecting-rag.ts:171-207 | A successful iteration keeps the counter, stores an evaluation, stops exactly on a sufficient and confident verdict, and otherwise expands exactly when it was not the last allowed iteration. |
| `SelfReflectingRag.IterationEvaluates` | my-ai-app/lib/ai/workflows/self-reflecting-rag.ts:178-186 | The documents and evaluation an iteration leaves are its own retrieval and the evaluator's accepted verdict on them. A rejected verdict ends the iteration with the evaluator's error. |
| `SelfReflectingRag.IterationErrors` | my-ai-app/lib/ai/workflows/self-reflecting-rag.ts:171-207 | An iteration fails only with the evaluator's or the expander's error. |
| `SelfReflectingRag.IterationsPerformed` | my-ai-app/lib/ai/workflows/self-reflecting-rag.ts:260 | The number of iterations that ran: the counter plus one only when the loop stopped. |
| `SelfReflectingRag.IterationCountDiscrepancy` | my-ai-app/lib/ai/workflows/self-reflecting-rag.ts:260 | When the loop runs out, the as-written count is one more than the iterations run (4 after the default 3). |
| `SelfReflectingRag.IterationsPerformedAsWritten` | my-ai-app/lib/ai/workflows/self-reflecting-rag.ts:260 | Definition, no contract of its own: the count as written, `iteration + 1`, which `IterationCountDiscrepancy` compares with the iterations run. |
| `SelfReflectingRag.Step` | my-ai-app/lib/ai/workflows/self-reflecting-rag.ts:236-248 | One pass does what `Iteration` over the oracles does, then advances the counter unless it stopped or failed. Telemetry gains one iteration record and as many expansion records as the state gained expansions. |
| `SelfReflectingRag.RunIterations` | my-ai-app/lib/ai/workflows/self-reflecting-rag.ts:235-249 | The loop ends as `Loop` over the oracles says: the same error, or the same stop flag and final state. The collector holds one record per iteration run and one per expansion. |
| `SelfReflectingRag.LoopFrom` | my-ai-app/lib/ai/workflows/self-reflecting-rag.ts:235-249 | Definition, no contract of its own: the loop from a top-of-loop state, whose properties `SelfReflectingRag.LoopFromTop` states. |
| `SelfReflectingRag.Loop` | my-ai-app/lib/ai/workflows/self-reflecting-rag.ts:226-249 | Definition, no contract of its own: the loop from the initial state, which `RunIterations` is proved equal to and `SelfReflectingRag.LoopEnds` describes. |
| `SelfReflectingRag.LoopFromTop` | my-ai-app/lib/ai/workflows/self-reflecting-rag.ts:235-249 | From any state at the top of the loop, the loop fails only with a collaborator's error and otherwise ends as `LoopEnded` says. |
| `SelfReflectingRag.LoopEnds` | my-ai-app/lib/ai/workflows/self-reflecting-rag.ts:226-249 | From the initial state: at most the limit of iterations, one expansion per iteration but the last, the final query the last expansion, a stop only on a sufficient and confident verdict and otherwise the limit reached. The documents and verdict are the last iteration's own. |
| `SelfReflectingRag.FinishTelemetry` | my-ai-app/lib/ai/workflows/self-reflecting-rag.ts:252-255 | Finalizes the collector when there is one. |
| `SelfReflectingRag.RunSelfReflectingRAG` | my-ai-app/lib/ai/workflows/self-reflecting-rag.ts:209-275 | The result, or the error thrown, is exactly `Workflow` over the oracles: documents, final query, iteration count, confidence, verdict, expansions and reasoning. When telemetry is on, the collector counts the iterations and expansions, carries the final confidence or the error, and is finalized. |
| `SelfReflectingRag.RunWith` | my-ai-app/lib/ai/workflows/self-reflecting-rag.ts:209-275 | The result is `WorkflowWith` over collaborators that answer as the oracles do. A collector exists exactly when telemetry is on; it holds the error on failure, and otherwise one record per iteration and per expansion and the final confidence. |
| `SelfReflectingRag.Workflow` | my-ai-app/lib/ai/workflows/self-reflecting-rag.ts:209-275 | Definition, no contract of its own: the workflow over the oracles, which `RunSelfReflectingRAG` is proved equal to and `WorkflowShape`, `WorkflowLastEvaluation`, `WorkflowNeverSufficient` and `WorkflowSufficientFirst` describe. |
| `SelfReflectingRag.WorkflowWith` | my-ai-app/lib/ai/workflows/self-reflecting-rag.ts:209-275 | Definition, no contract of its own: the loop's error, or its final state turned into the result. |
| `SelfReflectingRag.WorkflowShape` | my-ai-app/lib/ai/workflows/self-reflecting-rag.ts:209-275 | An error is the evaluator's or the expander's. Otherwise: at most the limit of iterations, one expansion per iteration but the last, the final query the last expansion, fewer iterations than the limit only after a sufficient and confident verdict, and the defaults when no iteration ran. |
| `SelfReflectingRag.WorkflowLastEvaluation` | my-ai-app/lib/ai/workflows/self-reflecting-rag.ts:257-265 | After at least one iteration, the documents are those retrieved for the final query in the last iteration. The confidence, verdict and reasoning are the evaluator's on them. |
| `SelfReflectingRag.WorkflowNeverSufficient` | my-ai-app/lib/ai/workflows/self-reflecting-rag.ts:235-265 | With an evaluator that never answers "sufficient", a run without error uses every allowed iteration, expands after every one but the last, and reports insufficiency. |
| `SelfReflectingRag.WorkflowSufficientFirst` | my-ai-app/lib/ai/workflows/self-reflecting-rag.ts:235-265 | When the first evaluation is sufficient and confident, the result is that retrieval and evaluation, with the original query, one iteration and no expansion. |
| `Embeddings.Trim` | my-ai-app/lib/ai/embeddings.ts:7 | `trim` returns the slice left after removing ECMAScript whitespace at both ends, and that slice starts and ends with non-whitespace. |
| `Embeddings.TrimIdempotent` | my-ai-app/lib/ai/embeddings.ts:7 | Trimming twice equals trimming once. |
| `Embeddings.NonEmpty` | my-ai-app/lib/ai/embeddings.ts:9 | Keeps exactly the non-empty pieces, never more than it was given, and returns a list without empty pieces unchanged. |
| `Embeddings.NonEmptyConcat` | my-ai-app/lib/ai/embeddings.ts:9 | The filter distributes over concatenation, so the kept pieces stay in their order, each once. |
| `Embeddings.GenerateChunks` | my-ai-app/lib/ai/embeddings.ts:5-9 | No chunk is empty and no chunk contains a dot. |
| `Embeddings.ChunksCoverInput` | my-ai-app/lib/ai/embeddings.ts:5-9 | Concatenated in order, the chunks give the trimmed input without its dots. |
| `Embeddings.ChunksRoundTrip` | my-ai-app/lib/ai/embeddings.ts:5-9 | Dot-free, non-empty sentences joined with dots come back as the same chunks when the text has no surrounding whitespace. |
| `Embeddings.SpaceLedSegmentKept` | my-ai-app/lib/ai/embeddings.ts:9 | "a. b" gives "a" and " b": a segment that starts with a space keeps its space. |
| `Embeddings.BlankSegmentKept` | my-ai-app/lib/ai/embeddings.ts:9 | "a. .b" gives "a", " " and "b": a whitespace-only segment is a chunk. |
| `Embeddings.Pair` | my-ai-app/lib/ai/embeddings.ts:31-34 | One row per embedding, holding that embedding and the chunk at the same index, or nothing past the last chunk. |
| `Embeddings.PairRoundTrip` | my-ai-app/lib/ai/embeddings.ts:31-34 | With one vector per chunk, every row carries its chunk, in order. |
| `Embeddings.EmbeddContent` | my-ai-app/lib/ai/embeddings.ts:23-35 | One row per vector the model returns, each carrying the chunk at its index, and no content past the last chunk. |
| `Embeddings.GenerateEmbeddingsFromChunks` | my-ai-app/lib/ai/embeddings.ts:11-14 | The given contents are embedded as they are: one row per vector, each with the content at its index. |
| `Embeddings.GenerateEmbeddings` | my-ai-app/lib/ai/embeddings.ts:16-21 | The chunks of the value are embedded: one row per vector, each with the chunk at its index, and no content past the last chunk. |
| `Embeddings.GenerateEmbeddingsRows` | my-ai-app/lib/ai/embeddings.ts:11-21 | `generateEmbeddings(v)` is `generateEmbeddingsFromChunks` of the chunks of v, and every row's content is a non-empty chunk without a dot. |
| `Embeddings.ReplaceEscapedNewlines` | my-ai-app/lib/ai/embeddings.ts:38 | No backslash-n pair survives, real line breaks are all kept, and a string without such a pair is returned unchanged. |
| `Embeddings.ReplaceEscapedNewlinesUnits` | my-ai-app/lib/ai/embeddings.ts:38 | A backslash-n pair alone becomes one space, and any single character is kept. |
| `Embeddings.ReplaceEscapedNewlinesAppend` | my-ai-app/lib/ai/embeddings.ts:38 | Replacing two pieces is replacing their concatenation, unless a pair straddles the cut. With the units, each pair scanned left to right becomes one space and every other character stays in place. |
| `Embeddings.GenerateEmbedding` | my-ai-app/lib/ai/embeddings.ts:37-44 | The model embeds the value with its pairs replaced, so a value without a backslash-n pair is embedded as it is. |
| `Embeddings.EscapedNewlineIsSpace` | my-ai-app/lib/ai/embeddings.ts:37-44 | A literal backslash-n embeds like a space, and a real line break is passed through. |
| `Ingest.LastSegment` | my-ai-app/lib/ai/ingestion/ingest.ts:36 | `split(c).pop()` is the suffix after the last c, or the whole string when there is no c. |
| `Ingest.FileNameAsWritten` | my-ai-app/lib/ai/ingestion/ingest.ts:35-37 | A path without backslashes comes back whole; the slash split is used only when the path ends in a backslash. |
| `Ingest.FileNameAsWrittenFacts` | my-ai-app/lib/ai/ingestion/ingest.ts:35-37 | The backslash piece wins whenever it is non-empty, so a path without backslashes comes back whole. |
| `Ingest.FileName` | my-ai-app/lib/ai/ingestion/ingest.ts:34-37 | The suffix after the last separator of either kind. |
| `Ingest.FileNamesAgree` | my-ai-app/lib/ai/ingestion/ingest.ts:35-37 | On Windows paths whose last piece has no slash, the as-written and corrected names agree. |
| `Ingest.PosixPathFinding` | my-ai-app/lib/ai/ingestion/ingest.ts:35-37 | For "dir/name" without backslashes, the name as written is the whole path, while the corrected name is "name". |
| `Ingest.OrNull` | my-ai-app/lib/ai/ingestion/ingest.ts:42 | `v \|\| null` is null exactly when v is missing or empty. |
| `Ingest.ResourceValues` | my-ai-app/lib/ai/ingestion/ingest.ts:39-46 | The content is the file name, or "unknown" when it is empty. Author, title, subject and keywords are kept when non-empty, else null. |
| `Ingest.Enrich` | my-ai-app/lib/ai/ingestion/ingest.ts:29-32 | Throws exactly when there are more embeddings than split pages. Otherwise it has the same length and fields, plus the page number of the split page at the same index. |
| `Ingest.EnrichAligned` | my-ai-app/lib/ai/ingestion/ingest.ts:26-32 | With one vector per page, each row carries the text and page number of the same split page. |
| `Ingest.BatchError` | my-ai-app/lib/db/schema/embeddings.ts:18-20 | The embeddings table refuses a batch exactly when some row lacks content or a page number, or has a vector that is not 2000-dimensional. |
| `Ingest.Database.InsertResource` | my-ai-app/lib/ai/ingestion/ingest.ts:48-57 | Appends one resource row with the given id and values. |
| `Ingest.Database.InsertEmbeddings` | my-ai-app/lib/ai/ingestion/ingest.ts:59-66 | Appends every row of the batch, or none when the batch is refused. |
| `Ingest.LoaderPath` | my-ai-app/lib/ai/ingestion/ingest.ts:10 | The configured path when non-empty, else "". |
| `Ingest.PlanIngestFacts` | my-ai-app/lib/ai/ingestion/ingest.ts:8-46 | A loader error is passed on, and no pages is an error. The resource is the file name of the first page's source (or "unknown") with its PDF info, missing fields null. The batch has one row per vector the model returned, carrying that vector, the split page's text and its page number. |
| `Ingest.PlanIngest` | my-ai-app/lib/ai/ingestion/ingest.ts:8-46 | A loader error is passed on unchanged. After loading, more vectors than split pages throws reading the missing page, then no pages throws, then a first page without a source throws. The plan succeeds exactly when none of these happens. |
| `Ingest.ManualIngest` | my-ai-app/lib/ai/ingestion/ingest.ts:8-70 | Never fails: any error is returned as the logged message. Nothing is written before the plan succeeds. The resource row is written first and stays when the embeddings are refused. |

## Left out

- Logging (`console.log`, `console.error`, `logTelemetry`'s output) is not modelled. The logged duration is modelled by `Telemetry.Duration`. `ManualIngest` returns its logged error message instead of printing it.
- The LLMs, the pgvector store, the BM25 retriever, the embedding models, the PDF loader and the text splitter are parameters (oracles). Their own ranking, parsing and splitting are not modelled.
- `generateQueryId` depends on the clock and on `Math.random`. The query id is a parameter. `new Date()` is a `Clock` object with prescribed readings.
- The random UUID of a new resource row is a parameter of `Ingest.ManualIngest`.
- `Promise.all` runs its searches concurrently. The model runs them one after the other, in query order, which is the order of the results.
- Floating-point arithmetic: scores, confidences and vectors are exact `real`s, so ties and sums are exact.
- JavaScript `Set` and `Map` are modelled by value as insertion-ordered sequences. Object identity of documents is a reference tag in `Documents.Document`.
- RetrievalEvaluator.EvaluateRetrieval: keeps `mostRelevantChunkIds` in the parsed answer. The evaluation schema does not declare it, so zod strips it and reading its `.length` throws on every schema-valid answer. As written, no pipeline iteration completes and `getInformation` always fails (see Findings). The rest of the model uses the corrected evaluator.
- Ingest.ManualIngest: names the resource with the corrected `Ingest.FileName`, not the file-name expression as written (see Findings).
- Ingest.PlanIngest: uses the corrected `Ingest.FileName` (see Findings).
- Ingest.PlanIngestFacts: states the resource name as the corrected `Ingest.FileName` of the first page's source (see Findings).
- SelfReflectingRag.RunSelfReflectingRAG: reports the corrected iteration count `SelfReflectingRag.IterationsPerformed`, not `state.iteration + 1` as written (see Findings). `SelfReflectingRag.IterationsPerformedAsWritten` and `SelfReflectingRag.IterationCountDiscrepancy` give the count as written.
- The vector store's `similaritySearch`, the BM25 retriever's `invoke`, the expander's `model.respond` (my-ai-app/lib/ai/evaluation/query-expander.ts:40-58), the evaluator's `generateText` (my-ai-app/lib/ai/evaluation/retrieval-evaluator.ts:38) and the summarizing agent's `generate` (my-ai-app/lib/ai/tools/get-information.ts:75) are total oracles here: they always answer and never reject. In the source a rejection from any of them propagates out of the core, and the workflow's catch records its message (my-ai-app/lib/ai/workflows/self-reflecting-rag.ts:266-270). So the lemmas that list the possible errors (`SelfReflectingRag.IterationErrors`, `SelfReflectingRag.WorkflowShape`, `SelfReflectingRag.LoopFromTop`, `SelfReflectingRag.LoopEnds`, `Pipeline.RunFacts` with `Pipeline.Finished`, `GetInformation.ToolOutputsShape`) cover only the errors the core raises itself, not the collaborators' own failures.
- `insertResourceSchema.parse` is treated as accepting. The object it receives always has a string content and string-or-null optional fields, which the schema allows.
- The query builder's handling of an empty embeddings batch is not modelled: an empty batch inserts nothing here.
- The resource and embedding inserts are not wrapped in a transaction in the source, and the model keeps it that way. The foreign-key type of `resource_id` and the cascade on delete are not modelled.
- Embedding-model and loader failures other than a loader `Result` failure are not modelled: `embedMany` and `embed` are total functions here.
- The workflow's expander receives `iterationCount` and the evaluator an unused `iterationCount`. Both are ignored, as in the source.
- `Telemetry.RagTelemetryCollector.RecordIteration` and `SelfReflectingRag.RecordExpansion` record each call's timestamp from the clock. The telemetry lists are compared by length in the loop invariants, not record by record.
- The workflow's `SelfReflectingRag.EvaluateState` uses the corrected evaluator call (see Findings). As written, every run would end in its first evaluation.

## Findings

| source | as written | input that shows it | evidently intended | confidence | as-written member | corrected member |
|---|---|---|---|---|---|---|
| my-ai-app/lib/ai/workflows/self-reflecting-rag.ts:260 | `iterationsPerformed: state.iteration + 1` counts one iteration too many when the loop ends by reaching `maxIterations`, because the counter was already advanced past the last iteration. | Default options, with an evaluator that never returns a sufficient and confident verdict: 3 iterations run and the result reports 4. | The number of iterations that ran: the counter plus one only when the loop stopped early. | not executed | `SelfReflectingRag.IterationCountDiscrepancy` | `SelfReflectingRag.IterationsPerformed` |
| my-ai-app/lib/ai/workflows/self-reflecting-rag.ts:182-186 | The workflow passes `state.currentQuery`, a string, as `query`. The evaluator calls `query.join("\n")`, which a string does not have, so every evaluation throws a TypeError. | Any query, for example "What is RRF?", on the first iteration. | Pass the current query as a one-element list of tried queries, and each document's content as its page content. | not executed | `SelfReflectingRag.EvaluationDiscrepancy` | `SelfReflectingRag.EvaluateCorrected` |
| my-ai-app/lib/ai/evaluation/retrieval-evaluator.ts:76 | The evaluation schema (my-ai-app/lib/ai/types/rag.ts:4-37) does not declare `mostRelevantChunkIds`, so parsing strips it. Reading `evaluationData.mostRelevantChunkIds.length` then throws a TypeError on every schema-valid answer. | Any schema-valid answer, for example relevance 8, coverage 8, confidence 0.9, sufficient, no gaps, reasoning "ok". | Declare the field in the schema, so the flagged documents are selected and the parsed answer is returned. | not executed | `RetrievalEvaluator.ChunkIdsDiscrepancy` | `RetrievalEvaluator.EvaluateRetrieval` |
| my-ai-app/lib/ai/ingestion/ingest.ts:35-37 | The slash split is reached only when the backslash piece is empty. A path without backslashes yields the whole path as the file name. | The source "/docs/manual.pdf" names the resource "/docs/manual.pdf". | "manual.pdf": the piece after the last separator of either kind. | not executed | `Ingest.PosixPathFinding` | `Ingest.FileName` |
