/**
 * The retrieval state of the iterative pipeline (my-ai-app/lib/ai/retrieval/state.ts) and its
 * functional-update transitions: every transition returns a new record and leaves its input alone.
 */
module State {
  import opened Wrappers
  import opened OrderedSets
  import opened Documents
  import opened RagTypes

  /**
   * `foundDocuments` and `mostRelevantDocuments` are JavaScript `Set`s of document objects,
   * modelled as duplicate-free sequences in insertion order.
   */
  datatype RetrievalState = RetrievalState(
    retrievalAttempts: int,
    triedQueries: seq<string>,
    evaluation: PartialEvaluation,
    foundDocuments: seq<Document>,
    mostRelevantDocuments: seq<Document>,
    originalQuery: string)

  /** What every state the transitions reach satisfies. */
  predicate Consistent(s: RetrievalState)
  {
    && |s.triedQueries| >= 1
    && s.triedQueries[0] == s.originalQuery
    && s.retrievalAttempts >= 0
    && NoDup(s.foundDocuments)
    && NoDup(s.mostRelevantDocuments)
  }

  /** The placeholder evaluation a new state starts from. */
  const Placeholder := PartialEvaluation(
    Some(0.0), Some(0.0), Some(0.0), Some(false), Some([]), Some(""), Some([]), None)

  function CreateRetrievalState(query: string): (s: RetrievalState)
    ensures s.retrievalAttempts == 0
    ensures s.triedQueries == [query] && s.originalQuery == query
    ensures s.foundDocuments == [] && s.mostRelevantDocuments == []
    ensures s.evaluation.isSufficient == Some(false)
    ensures Consistent(s)
  {
    RetrievalState(0, [query], Placeholder, [], [], query)
  }

  /** The placeholder fails the evaluation schema, so schema validity is not a state invariant. */
  lemma PlaceholderInvalid(query: string)
    ensures !ValidPartial(CreateRetrievalState(query).evaluation)
  {
  }

  /** The number of iterations a loop bounded by `maxIterations` can run: the limit, or 0 when it is not positive. */
  function Max0(n: int): nat
  {
    if n > 0 then n else 0
  }

  /** `!state.evaluation.isSufficient`: a missing verdict counts as insufficient. */
  function ShouldContinueIteration(s: RetrievalState, maxIterations: int): (r: bool)
    ensures r <==> s.retrievalAttempts < maxIterations && s.evaluation.isSufficient != Some(true)
  {
    s.retrievalAttempts < maxIterations && !s.evaluation.isSufficient.GetOr(false)
  }

  function IncrementAttempts(s: RetrievalState): (r: RetrievalState)
    ensures r.retrievalAttempts == s.retrievalAttempts + 1
    ensures r == s.(retrievalAttempts := r.retrievalAttempts)
    ensures Consistent(s) ==> Consistent(r)
  {
    s.(retrievalAttempts := s.retrievalAttempts + 1)
  }

  function AddTriedQueries(s: RetrievalState, queries: seq<string>): (r: RetrievalState)
    ensures |r.triedQueries| == |s.triedQueries| + |queries|
    ensures r.triedQueries[..|s.triedQueries|] == s.triedQueries
    ensures r.triedQueries[|s.triedQueries|..] == queries
    ensures r == s.(triedQueries := r.triedQueries)
    ensures Consistent(s) ==> Consistent(r)
  {
    s.(triedQueries := s.triedQueries + queries)
  }

  function UpdateEvaluation(s: RetrievalState, evaluation: PartialEvaluation): (r: RetrievalState)
    ensures r.evaluation == Spread(s.evaluation, evaluation)
    ensures r == s.(evaluation := r.evaluation)
    ensures Consistent(s) ==> Consistent(r)
  {
    s.(evaluation := Spread(s.evaluation, evaluation))
  }

  /** The copy-and-add loop of `addMostRelevantDocuments`, on a fresh set. */
  method AddMostRelevantDocuments(s: RetrievalState, documents: seq<Document>) returns (r: RetrievalState)
    ensures r == s.(mostRelevantDocuments := AddAll(s.mostRelevantDocuments, documents))
  {
    var updated := s.mostRelevantDocuments;
    var i := 0;
    while i < |documents|
      invariant 0 <= i <= |documents|
      invariant AddAll(updated, documents[i..]) == AddAll(s.mostRelevantDocuments, documents)
    {
      assert documents[i..][1..] == documents[i + 1..];
      updated := Add(updated, documents[i]);
      i := i + 1;
    }
    r := s.(mostRelevantDocuments := updated);
  }

  /** The copy-and-add loop of `addFoundDocuments`, on a fresh set. */
  method AddFoundDocuments(s: RetrievalState, documents: seq<Document>) returns (r: RetrievalState)
    ensures r == s.(foundDocuments := AddAll(s.foundDocuments, documents))
  {
    var updated := s.foundDocuments;
    var i := 0;
    while i < |documents|
      invariant 0 <= i <= |documents|
      invariant AddAll(updated, documents[i..]) == AddAll(s.foundDocuments, documents)
    {
      assert documents[i..][1..] == documents[i + 1..];
      updated := Add(updated, documents[i]);
      i := i + 1;
    }
    r := s.(foundDocuments := updated);
  }

  /** The set union both loops compute keeps the state consistent. */
  lemma AddDocumentsConsistent(s: RetrievalState, documents: seq<Document>)
    requires Consistent(s)
    ensures Consistent(s.(mostRelevantDocuments := AddAll(s.mostRelevantDocuments, documents)))
    ensures Consistent(s.(foundDocuments := AddAll(s.foundDocuments, documents)))
  {
  }

  /** `doc.metadata.source` of each document, in order. */
  function Sources(documents: seq<Document>): (r: seq<Option<string>>)
    ensures |r| == |documents|
    ensures forall i :: 0 <= i < |r| ==> r[i] == documents[i].source
  {
    seq(|documents|, i requires 0 <= i < |documents| => documents[i].source)
  }

  /** `null` when no document was flagged, else the flagged documents' distinct sources in first-seen order. */
  function GetSourceFilter(s: RetrievalState): (r: Option<seq<Option<string>>>)
    ensures r.None? <==> |s.mostRelevantDocuments| == 0
    ensures r.Some? ==> NoDup(r.value)
    ensures r.Some? ==> Elems(r.value) == set d | d in s.mostRelevantDocuments :: d.source
    ensures r.Some? ==> |r.value| >= 1
  {
    if |s.mostRelevantDocuments| == 0 then None
    else
      var sources := Sources(s.mostRelevantDocuments);
      assert Elems(sources) == set d | d in s.mostRelevantDocuments :: d.source by {
        forall x | x in Elems(sources) ensures x in set d | d in s.mostRelevantDocuments :: d.source {
          var i :| 0 <= i < |sources| && sources[i] == x;
          assert s.mostRelevantDocuments[i] in s.mostRelevantDocuments;
        }
        forall d | d in s.mostRelevantDocuments ensures d.source in Elems(sources) {
          var i :| 0 <= i < |s.mostRelevantDocuments| && s.mostRelevantDocuments[i] == d;
          assert sources[i] == d.source;
        }
      }
      assert sources[0] in Elems(sources);
      var r := Dedup(sources);
      assert r != [] by { assert sources[0] in Elems(r); }
      Some(r)
  }

  /** The five fields the expander and summary see: exactly gaps, coverage, confidence, relevance, isSufficient. */
  function GetEvaluationForPrompt(s: RetrievalState): (r: PartialEvaluation)
    ensures r.gaps == s.evaluation.gaps && r.coverage == s.evaluation.coverage
    ensures r.confidence == s.evaluation.confidence && r.relevance == s.evaluation.relevance
    ensures r.isSufficient == s.evaluation.isSufficient
    ensures r.reasoning.None? && r.mostRelevantChunkIds.None? && r.mostRelevantDocuments.None?
  {
    EmptyPartial.(
      gaps := s.evaluation.gaps,
      coverage := s.evaluation.coverage,
      confidence := s.evaluation.confidence,
      relevance := s.evaluation.relevance,
      isSufficient := s.evaluation.isSufficient)
  }
}
