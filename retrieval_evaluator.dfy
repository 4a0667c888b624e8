/**
 * Post-processing around the retrieval evaluator (my-ai-app/lib/ai/evaluation/retrieval-evaluator.ts):
 * how chunks are shown to the language model, the schema check on its answer, and the selection
 * of the documents it flagged. The model call itself is an oracle.
 */
module RetrievalEvaluator {
  import opened Wrappers
  import opened Strings
  import opened Documents
  import opened RagTypes

  /** What the language model answers: `None` when its output is not even an evaluation-shaped object. */
  type EvaluatorModel = (string, string) -> Option<Evaluation>

  /** The parsed evaluation together with the documents whose ids it flagged. */
  datatype EvaluatedRetrieval = EvaluatedRetrieval(evaluation: Evaluation, mostRelevantDocuments: seq<Document>)

  const SYSTEM_PROMPT :=
    "You are an expert at evaluating the quality of "
    + "information retrieval results. "
    + "Analyze the retrieved documents and assess how well "
    + "they answer the query. "
    + "Be critical and thorough in your evaluation."
  const INVALID_OUTPUT := "Invalid retrieval evaluation output"
  const QUERIES_OPEN := "Tried querys: \""
  const COUNT_OPEN := "\"\n\n    Retrieved Documents ("
  const COUNT_CLOSE := " documents):\n\n    "
  const INSTRUCTIONS :=
    "\n"
    + "\n    Evaluate these documents on:"
    + "\n    1. Relevance (1-10): "
    + "How relevant are they to the query?"
    + "\n    2. Coverage (1-10): "
    + "Do they cover all aspects/aspects of the query?"
    + "\n    3. Confidence (0-1): "
    + "Overall confidence that these documents sufficiently "
    + "answer the query"
    + "\n    4. Gaps: Specific information that is missing or "
    + "unclear"
    + "\n    5. Reasoning: Detailed explanation of your evaluation"
    + "\n    6. IsSufficient: Based on the above, "
    + "determine if the retrieved documents are sufficient to "
    + "answer the query."
    + "\n    7. Most Relevant documents: "
    + "if there is a source that you consider is extremely "
    + "relevant to the query, "
    + "list it here for future searches using the source as "
    + "filter, "
    + "if you consider this source is worth querying againts. "
    + "when listing a source, do not modify it."
    + "\n"
    + "\n    Set isSufficient to true only if confidence >= 0.7."

  /** `doc.id ?? `doc-${index + 1}``: a present id is kept even when empty. */
  function ChunkId(d: Document, index: nat): (id: string)
    ensures d.id.Some? ==> id == d.id.value
    ensures d.id.None? ==> id == "doc-" + NatToString(index + 1)
  {
    match d.id
    case Some(id) => id
    case None => "doc-" + NatToString(index + 1)
  }

  /** Documents without an id at different positions get different chunk ids. */
  lemma DefaultIdsDistinct(d1: Document, i1: nat, d2: Document, i2: nat)
    requires d1.id.None? && d2.id.None? && i1 != i2
    ensures ChunkId(d1, i1) != ChunkId(d2, i2)
  {
    var p := "doc-";
    if ChunkId(d1, i1) == ChunkId(d2, i2) {
      assert (p + NatToString(i1 + 1))[|p|..] == NatToString(i1 + 1);
      assert (p + NatToString(i2 + 1))[|p|..] == NatToString(i2 + 1);
      NatToStringInjective(i1 + 1, i2 + 1);
    }
  }

  /** `"unknown"` unless `metadata.source` is truthy. */
  function ChunkSource(d: Document): (s: string)
    ensures Truthy(d.source) ==> s == d.source.value
    ensures !Truthy(d.source) ==> s == "unknown"
  {
    if Truthy(d.source) then d.source.value else "unknown"
  }

  /** One chunk as the prompt shows it: id, source and content on indented lines. */
  function FormatChunk(d: Document, index: nat): string
  {
    "\n      Chunk id: \"" + ChunkId(d, index) + "\"\n\n      Source: \"" + ChunkSource(d)
      + "\"\n\n      Content:\n      " + d.pageContent
  }

  /** A formatted chunk opens with its quoted chunk id and ends with the document's content. */
  lemma FormatChunkShape(d: Document, index: nat)
    ensures var chunk, head := FormatChunk(d, index), "\n      Chunk id: \"" + ChunkId(d, index) + "\"";
      && |head| <= |chunk| && chunk[..|head|] == head
      && |d.pageContent| <= |chunk| && chunk[|chunk| - |d.pageContent|..] == d.pageContent
  {
  }

  /** Every chunk formatted with its 1-based position, in document order. */
  function FormattedChunks(documents: seq<Document>): (chunks: seq<string>)
    ensures |chunks| == |documents|
    ensures forall i :: 0 <= i < |documents| ==> chunks[i] == FormatChunk(documents[i], i)
  {
    seq(|documents|, i requires 0 <= i < |documents| => FormatChunk(documents[i], i))
  }

  /** The chunks separated by a blank line. */
  function FormatDocuments(documents: seq<Document>): string
  {
    Join(FormattedChunks(documents), "\n\n")
  }

  /** Formatting one more document appends a blank line and that document's chunk, numbered next. */
  lemma FormatDocumentsAppend(documents: seq<Document>, d: Document)
    requires |documents| >= 1
    ensures FormatDocuments(documents + [d]) == FormatDocuments(documents) + "\n\n" + FormatChunk(d, |documents|)
  {
    assert FormattedChunks(documents + [d]) == FormattedChunks(documents) + [FormatChunk(d, |documents|)];
    JoinAppend(FormattedChunks(documents), "\n\n", FormatChunk(d, |documents|));
  }

  /** The user prompt: the tried queries one per line, the document count, the chunks, the instructions. */
  function EvaluationPrompt(queries: seq<string>, documents: seq<Document>): string
  {
    QUERIES_OPEN + Join(queries, "\n") + COUNT_OPEN + NatToString(|documents|) + COUNT_CLOSE
      + FormatDocuments(documents) + INSTRUCTIONS
  }

  /** The prompt opens with the tried queries and closes with the instructions. */
  lemma EvaluationPromptShape(queries: seq<string>, documents: seq<Document>)
    ensures var prompt, head := EvaluationPrompt(queries, documents), QUERIES_OPEN + Join(queries, "\n");
      && |head| <= |prompt| && prompt[..|head|] == head
      && |INSTRUCTIONS| <= |prompt| && prompt[|prompt| - |INSTRUCTIONS|..] == INSTRUCTIONS
  {
    var head := QUERIES_OPEN + Join(queries, "\n");
    var s1 := head + COUNT_OPEN;
    var s2 := s1 + NatToString(|documents|);
    var s3 := s2 + COUNT_CLOSE;
    var s4 := s3 + FormatDocuments(documents);
    PrefixKept(head, head, COUNT_OPEN);
    PrefixKept(head, s1, NatToString(|documents|));
    PrefixKept(head, s2, COUNT_CLOSE);
    PrefixKept(head, s3, FormatDocuments(documents));
    PrefixKept(head, s4, INSTRUCTIONS);
  }

  /** Appending to a sequence keeps its prefixes. */
  lemma PrefixKept(p: string, s: string, t: string)
    requires |p| <= |s| && s[..|p|] == p
    ensures |p| <= |s + t| && (s + t)[..|p|] == p
  {
    assert (s + t)[..|p|] == s[..|p|];
  }

  /** The id a flagged document is matched on: `doc.id ?? ""`. */
  function MatchId(d: Document): string
  {
    d.id.GetOr("")
  }

  /** `documents.filter((doc) => ids.includes(doc.id ?? ""))` */
  function Flagged(documents: seq<Document>, ids: seq<string>): (r: seq<Document>)
    ensures forall d :: d in r <==> d in documents && MatchId(d) in ids
    ensures |r| <= |documents|
  {
    if documents == [] then []
    else (if MatchId(documents[0]) in ids then [documents[0]] else []) + Flagged(documents[1..], ids)
  }

  /** The filter keeps document order. */
  lemma {:induction false} FlaggedConcat(d1: seq<Document>, d2: seq<Document>, ids: seq<string>)
    ensures Flagged(d1 + d2, ids) == Flagged(d1, ids) + Flagged(d2, ids)
  {
    if d1 == [] {
      assert d1 + d2 == d2;
    } else {
      assert (d1 + d2)[0] == d1[0];
      assert (d1 + d2)[1..] == d1[1..] + d2;
      FlaggedConcat(d1[1..], d2, ids);
    }
  }

  /** The flagged documents: none when no id was listed, else the order-preserving filter. */
  function MostRelevantDocuments(documents: seq<Document>, ids: seq<string>): (r: seq<Document>)
    ensures |ids| == 0 ==> r == []
    ensures forall d :: d in r <==> d in documents && MatchId(d) in ids
  {
    if |ids| > 0 then Flagged(documents, ids) else []
  }

  /** The length guard changes nothing: filtering against no ids keeps nothing either. */
  lemma LengthGuardRedundant(documents: seq<Document>, ids: seq<string>)
    ensures MostRelevantDocuments(documents, ids) == Flagged(documents, ids)
  {
    if |ids| == 0 {
      assert forall d :: d !in Flagged(documents, ids);
    }
  }

  /** What reading `.length` of a missing property throws. */
  const CHUNK_IDS_TYPE_ERROR := "Cannot read properties of undefined (reading 'length')"

  /**
   * `evaluateRetrieval` as written: the schema does not declare `mostRelevantChunkIds`, so parsing
   * strips it and reading its length throws on every answer that passes the schema.
   */
  function EvaluateRetrievalAsWritten(model: EvaluatorModel, query: seq<string>, documents: seq<Document>): (r: Result<EvaluatedRetrieval>)
    ensures r.Failure?
    ensures var output := model(SYSTEM_PROMPT, EvaluationPrompt(query, documents));
      r.error == INVALID_OUTPUT <==> !(output.Some? && ValidEvaluation(output.value))
  {
    var output := model(SYSTEM_PROMPT, EvaluationPrompt(query, documents));
    if output.Some? && ValidEvaluation(output.value) then Failure(CHUNK_IDS_TYPE_ERROR)
    else Failure(INVALID_OUTPUT)
  }

  /** Where the model answers validly, the evaluator as written throws and the corrected one succeeds. */
  lemma ChunkIdsDiscrepancy(model: EvaluatorModel, query: seq<string>, documents: seq<Document>)
    requires var output := model(SYSTEM_PROMPT, EvaluationPrompt(query, documents));
      output.Some? && ValidEvaluation(output.value)
    ensures EvaluateRetrievalAsWritten(model, query, documents) == Failure(CHUNK_IDS_TYPE_ERROR)
    ensures EvaluateRetrieval(model, query, documents).Success?
  {
  }

  /**
   * `evaluateRetrieval`: ask the model, reject an answer that fails the schema, and return the
   * parsed fields unchanged together with the flagged documents.
   */
  function EvaluateRetrieval(model: EvaluatorModel, query: seq<string>, documents: seq<Document>): (r: Result<EvaluatedRetrieval>)
    ensures var output := model(SYSTEM_PROMPT, EvaluationPrompt(query, documents));
      && (r.Failure? <==> !(output.Some? && ValidEvaluation(output.value)))
      && (r.Failure? ==> r.error == INVALID_OUTPUT)
      && (r.Success? ==> r.value.evaluation == output.value && ValidEvaluation(r.value.evaluation))
      && (r.Success? ==>
            r.value.mostRelevantDocuments == MostRelevantDocuments(documents, output.value.mostRelevantChunkIds))
  {
    var output := model(SYSTEM_PROMPT, EvaluationPrompt(query, documents));
    if output.Some? && ValidEvaluation(output.value) then
      Success(EvaluatedRetrieval(output.value, MostRelevantDocuments(documents, output.value.mostRelevantChunkIds)))
    else
      Failure(INVALID_OUTPUT)
  }
}
