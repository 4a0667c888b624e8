/**
 * The structured records the language model is asked to produce, and the validity their
 * schemas impose (my-ai-app/lib/ai/types/rag.ts).
 */
module RagTypes {
  import opened Wrappers
  import opened Documents

  /**
   * A retrieval evaluation. `mostRelevantChunkIds` is read by the evaluator and the state
   * module although the schema does not declare it; the model carries it explicitly.
   */
  datatype Evaluation = Evaluation(
    relevance: real,
    coverage: real,
    confidence: real,
    isSufficient: bool,
    gaps: seq<string>,
    reasoning: string,
    mostRelevantChunkIds: seq<string>)

  /** The range constraints of the evaluation schema; `isSufficient` is a free boolean. */
  predicate ValidEvaluation(e: Evaluation)
  {
    && 1.0 <= e.relevance <= 10.0
    && 1.0 <= e.coverage <= 10.0
    && 0.0 <= e.confidence <= 1.0
  }

  /**
   * `Partial<RetrievalEvaluation>` as the retrieval state holds it: every key may be missing.
   * `mostRelevantDocuments` is the extra key the evaluator's result carries and that an
   * object spread copies along.
   */
  datatype PartialEvaluation = PartialEvaluation(
    relevance: Option<real>,
    coverage: Option<real>,
    confidence: Option<real>,
    isSufficient: Option<bool>,
    gaps: Option<seq<string>>,
    reasoning: Option<string>,
    mostRelevantChunkIds: Option<seq<string>>,
    mostRelevantDocuments: Option<seq<Document>>)

  /** `{}` */
  const EmptyPartial := PartialEvaluation(None, None, None, None, None, None, None, None)

  /** The evaluator's parsed result plus its flagged documents, as an object with every key present. */
  function WithDocuments(e: Evaluation, documents: seq<Document>): (p: PartialEvaluation)
    ensures ValidEvaluation(e) ==> ValidPartial(p)
    ensures p.isSufficient == Some(e.isSufficient) && p.confidence == Some(e.confidence)
    ensures p.gaps == Some(e.gaps) && p.mostRelevantDocuments == Some(documents)
  {
    PartialEvaluation(Some(e.relevance), Some(e.coverage), Some(e.confidence), Some(e.isSufficient),
      Some(e.gaps), Some(e.reasoning), Some(e.mostRelevantChunkIds), Some(documents))
  }

  /** A partial evaluation that holds every schema field, each within the schema's range. */
  predicate ValidPartial(p: PartialEvaluation)
  {
    && p.relevance.Some? && p.coverage.Some? && p.confidence.Some?
    && p.isSufficient.Some? && p.gaps.Some? && p.reasoning.Some?
    && ValidEvaluation(Evaluation(p.relevance.value, p.coverage.value, p.confidence.value,
         p.isSufficient.value, p.gaps.value, p.reasoning.value, []))
  }

  /** `{ ...older, ...newer }`: a key `newer` supplies wins, a key it omits keeps its older value. */
  function Spread(older: PartialEvaluation, newer: PartialEvaluation): PartialEvaluation
  {
    PartialEvaluation(
      if newer.relevance.Some? then newer.relevance else older.relevance,
      if newer.coverage.Some? then newer.coverage else older.coverage,
      if newer.confidence.Some? then newer.confidence else older.confidence,
      if newer.isSufficient.Some? then newer.isSufficient else older.isSufficient,
      if newer.gaps.Some? then newer.gaps else older.gaps,
      if newer.reasoning.Some? then newer.reasoning else older.reasoning,
      if newer.mostRelevantChunkIds.Some? then newer.mostRelevantChunkIds else older.mostRelevantChunkIds,
      if newer.mostRelevantDocuments.Some? then newer.mostRelevantDocuments else older.mostRelevantDocuments)
  }

  /** Spreading `{}` changes nothing, and spreading the same object twice is spreading it once. */
  lemma SpreadLaws(older: PartialEvaluation, newer: PartialEvaluation)
    ensures Spread(older, EmptyPartial) == older
    ensures Spread(Spread(older, newer), newer) == Spread(older, newer)
  {
  }

  /** Spreading a full evaluation replaces whatever was there, so a valid one makes the state's evaluation valid. */
  lemma SpreadFull(older: PartialEvaluation, e: Evaluation, documents: seq<Document>)
    ensures Spread(older, WithDocuments(e, documents)) == WithDocuments(e, documents)
  {
  }

  /** The strategies the expansion schema's enum admits. */
  const Strategies: seq<string> := ["broader", "narrower", "semantic", "gap_based"]

  datatype Variation = Variation(query: string, strategy: string, rationale: string)

  datatype ExpandedQueries = ExpandedQueries(variations: seq<Variation>)

  predicate ValidStrategy(s: string)
  {
    s in Strategies
  }

  /** The expansion schema: one to five variations, each with a strategy from the enum. */
  predicate ValidExpansion(x: ExpandedQueries)
  {
    && 1 <= |x.variations| <= 5
    && forall v :: v in x.variations ==> ValidStrategy(v.strategy)
  }

  /** The schema does not tie `isSufficient` to `confidence`: a sufficient verdict with confidence 0 is valid. */
  lemma SufficiencyNotTiedToConfidence(e: Evaluation)
    requires 1.0 <= e.relevance <= 10.0 && 1.0 <= e.coverage <= 10.0
    ensures ValidEvaluation(e.(isSufficient := true, confidence := 0.0))
    ensures ValidEvaluation(e.(isSufficient := false, confidence := 1.0))
  {
  }
}
