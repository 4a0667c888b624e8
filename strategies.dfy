/**
 * Query routing for the hybrid search (my-ai-app/lib/ai/retrieval/strategies.ts). The vector
 * store and the BM25 retriever are oracles: plain functions from their arguments to a ranked list.
 */
module Strategies {
  import opened Wrappers
  import opened Documents
  import Ranking

  /** `{ source: { in: sources } }`: restricts a vector search to documents whose source is listed. */
  datatype SourceFilter = SourceFilter(sourceIn: seq<Option<string>>)

  /** `similaritySearch(query, limit, filter?)`; an absent query stands for `queries[0]` of an empty list. */
  type VectorStore = (Option<string>, int, Option<SourceFilter>) -> seq<Document>

  /** A BM25 retriever built over `documents` with top `k`, asked `query`. */
  type Bm25 = (seq<Document>, string, int) -> seq<Document>

  datatype VectorSearchOptions = VectorSearchOptions(
    queries: seq<string>, limit: Option<int>, filter: Option<SourceFilter>)

  const DEFAULT_VECTOR_LIMIT := 5
  const DEFAULT_BM25_K := 5

  function BuildSourceFilter(sources: seq<Option<string>>): (f: SourceFilter)
    ensures f.sourceIn == sources
  {
    SourceFilter(sources)
  }

  /** One filtered search per query, in query order, concatenated. */
  function SearchEach(store: VectorStore, queries: seq<string>, limit: int, filter: SourceFilter): (r: seq<Document>)
    ensures queries == [] ==> r == []
    decreases |queries|
  {
    if queries == [] then []
    else
      var last := queries[|queries| - 1];
      SearchEach(store, queries[..|queries| - 1], limit, filter) + store(Some(last), limit, Some(filter))
  }

  /** Searching two query lists one after the other gives the two result lists one after the other. */
  lemma {:induction false} SearchEachConcat(store: VectorStore, q1: seq<string>, q2: seq<string>, limit: int, filter: SourceFilter)
    ensures SearchEach(store, q1 + q2, limit, filter) == SearchEach(store, q1, limit, filter) + SearchEach(store, q2, limit, filter)
    decreases |q2|
  {
    if q2 == [] {
      assert q1 + q2 == q1;
    } else {
      var n := |q2|;
      assert (q1 + q2)[..|q1 + q2| - 1] == q1 + q2[..n - 1];
      SearchEachConcat(store, q1, q2[..n - 1], limit, filter);
    }
  }

  /** The result of each single query, at the position of that query. */
  lemma {:induction false} SearchEachSingle(store: VectorStore, q: string, limit: int, filter: SourceFilter)
    ensures SearchEach(store, [q], limit, filter) == store(Some(q), limit, Some(filter))
  {
    assert [q][..0] == [];
  }

  function PerformVectorSearch(store: VectorStore, options: VectorSearchOptions): (r: seq<Document>)
    ensures options.filter.Some? ==>
      r == SearchEach(store, options.queries, options.limit.GetOr(DEFAULT_VECTOR_LIMIT), options.filter.value)
    ensures options.filter.None? && options.queries != [] ==>
      r == store(Some(options.queries[0]), options.limit.GetOr(DEFAULT_VECTOR_LIMIT), None)
    ensures options.filter.None? && options.queries == [] ==>
      r == store(None, options.limit.GetOr(DEFAULT_VECTOR_LIMIT), None)
  {
    var limit := options.limit.GetOr(DEFAULT_VECTOR_LIMIT);
    if options.filter.Some? then
      SearchEach(store, options.queries, limit, options.filter.value)
    else
      store(if options.queries != [] then Some(options.queries[0]) else None, limit, None)
  }

  /** Without a filter every query after the first is dropped. */
  lemma UnfilteredUsesFirstQuery(store: VectorStore, q: string, rest: seq<string>, limit: Option<int>)
    ensures PerformVectorSearch(store, VectorSearchOptions([q] + rest, limit, None))
         == PerformVectorSearch(store, VectorSearchOptions([q], limit, None))
  {
  }

  /** With a filter, adding one more query appends that query's results. */
  lemma FilteredAppendsQuery(store: VectorStore, queries: seq<string>, q: string, limit: Option<int>, filter: SourceFilter)
    ensures PerformVectorSearch(store, VectorSearchOptions(queries + [q], limit, Some(filter)))
         == PerformVectorSearch(store, VectorSearchOptions(queries, limit, Some(filter)))
            + store(Some(q), limit.GetOr(DEFAULT_VECTOR_LIMIT), Some(filter))
  {
    SearchEachConcat(store, queries, [q], limit.GetOr(DEFAULT_VECTOR_LIMIT), filter);
    SearchEachSingle(store, q, limit.GetOr(DEFAULT_VECTOR_LIMIT), filter);
  }

  function PerformBm25Search(bm25: Bm25, documents: seq<Document>, query: string, k: Option<int>): (r: seq<Document>)
    ensures k.None? ==> r == bm25(documents, query, DEFAULT_BM25_K)
    ensures k.Some? ==> r == bm25(documents, query, k.value)
  {
    bm25(documents, query, k.GetOr(DEFAULT_BM25_K))
  }

  method FuseResults(vectorResults: seq<Document>, bm25Results: seq<Document>) returns (fused: seq<Document>)
    ensures fused == Ranking.Fused(vectorResults, bm25Results)
  {
    fused := Ranking.ReciprocalRankFusion(vectorResults, bm25Results);
  }
}
