/**
 * Manual ingestion of one PDF (my-ai-app/lib/ai/ingestion/ingest.ts): load and split the pages,
 * embed the chunks, attach page numbers, derive the resource row from the first page's metadata,
 * and insert one resource followed by its embeddings. The loader, splitter and embedding model
 * are oracles; the two tables are the fields of a `Database` object.
 */
module Ingest {
  import opened Wrappers
  import opened Strings
  import opened Documents
  import opened Embeddings

  // ---------------------------------------------------------------------------------------------
  // File name

  /** `s.split(c).pop()`: the last piece of the split. */
  function LastSegment(s: string, c: char): (r: string)
    ensures c !in r
    ensures |r| <= |s| && r == s[|s| - |r|..]
    ensures |r| < |s| ==> s[|s| - |r| - 1] == c
    ensures c !in s ==> r == s
  {
    var pieces := Split(s, c);
    LastPieceFollowsSeparator(pieces, c);
    pieces[|pieces| - 1]
  }

  /** The last of the pieces ends their join, right after the final separator. */
  lemma LastPieceFollowsSeparator(pieces: seq<string>, c: char)
    requires |pieces| >= 1
    requires forall p :: p in pieces ==> c !in p
    ensures var s, last := Join(pieces, [c]), pieces[|pieces| - 1];
      && c !in last && |last| <= |s| && last == s[|s| - |last|..]
      && (|pieces| > 1 ==> |last| < |s| && s[|s| - |last| - 1] == c)
  {
    var last := pieces[|pieces| - 1];
    assert last in pieces;
    if |pieces| > 1 {
      var init := pieces[..|pieces| - 1];
      assert pieces == init + [last];
      JoinAppend(init, [c], last);
    }
  }

  /**
   * The file name as ingest.ts computes it: the piece after the last backslash, and the piece
   * after the last slash only when the former is empty.
   */
  function FileNameAsWritten(source: string): (name: string)
    ensures '\\' !in source ==> name == source
    ensures '\\' in source && LastSegment(source, '\\') == "" ==> name == LastSegment(source, '/')
  {
    var windows := LastSegment(source, '\\');
    if windows != "" then windows else LastSegment(source, '/')
  }

  /** The slash split is reached only when the backslash piece is empty; a path without backslashes comes back whole. */
  lemma FileNameAsWrittenFacts(source: string)
    ensures LastSegment(source, '\\') != "" ==> FileNameAsWritten(source) == LastSegment(source, '\\')
    ensures '\\' !in source ==> FileNameAsWritten(source) == source
  {
  }

  /** A suffix of a suffix is a suffix, and the character before it is the same in both. */
  lemma SuffixOfSuffix(s: string, t: string, r: string)
    requires |t| <= |s| && t == s[|s| - |t|..]
    requires |r| <= |t| && r == t[|t| - |r|..]
    ensures r == s[|s| - |r|..]
    ensures |r| < |t| ==> t[|t| - |r| - 1] == s[|s| - |r| - 1]
  {
  }

  /** The file name the comment asks for: what follows the last separator of either kind. */
  function FileName(source: string): (r: string)
    ensures '\\' !in r && '/' !in r
    ensures |r| <= |source| && r == source[|source| - |r|..]
    ensures |r| < |source| ==> source[|source| - |r| - 1] == '\\' || source[|source| - |r| - 1] == '/'
  {
    var windows := LastSegment(source, '\\');
    var r := LastSegment(windows, '/');
    SuffixOfSuffix(source, windows, r);
    r
  }

  /** On a path whose last backslash piece is a non-empty name without slashes, both agree. */
  lemma FileNamesAgree(source: string)
    requires LastSegment(source, '\\') != "" && '/' !in LastSegment(source, '\\')
    ensures FileNameAsWritten(source) == FileName(source)
  {
  }

  /** The piece after a final separator is the last segment. */
  lemma LastSegmentAfter(dir: string, c: char, name: string)
    requires c !in name
    ensures LastSegment(dir + [c] + name, c) == name
  {
    var s := dir + [c] + name;
    var r := LastSegment(s, c);
    assert s[|s| - |name|..] == name;
    assert s[|s| - |name| - 1] == c;
    assert forall k :: |s| - |r| <= k < |s| ==> s[k] in r;
    assert forall k :: |s| - |name| <= k < |s| ==> s[k] in name;
  }

  /**
   * A POSIX path such as "/docs/manual.pdf": as written the whole path becomes the resource's
   * name, where the bare file name was meant.
   */
  lemma PosixPathFinding(dir: string, name: string)
    requires '\\' !in dir && '\\' !in name && '/' !in name
    ensures FileNameAsWritten(dir + "/" + name) == dir + "/" + name
    ensures FileName(dir + "/" + name) == name
    ensures FileNameAsWritten(dir + "/" + name) != FileName(dir + "/" + name)
  {
    var source := dir + "/" + name;
    assert '\\' !in source;
    FileNameAsWrittenFacts(source);
    LastSegmentAfter(dir, '/', name);
  }

  // ---------------------------------------------------------------------------------------------
  // Resource values

  /** `metadata.pdf.info`; a field the PDF lacks is `None`. */
  datatype PdfInfo = PdfInfo(author: Option<string>, title: Option<string>, subject: Option<string>, keywords: Option<string>)

  /** A loaded or split page: its text, `metadata.source`, `metadata.pdf.info` and `metadata.loc.pageNumber`. */
  datatype PdfPage = PdfPage(pageContent: string, source: Option<string>, info: PdfInfo, pageNumber: Option<int>)

  /** The values of the resource row; `None` stands for SQL null. */
  datatype NewResource = NewResource(
    content: string, author: Option<string>, title: Option<string>, subject: Option<string>, keywords: Option<string>)

  /** `v || null` */
  function OrNull(v: Option<string>): (r: Option<string>)
    ensures r.None? <==> !Truthy(v)
    ensures r.Some? ==> r == v && r.value != ""
  {
    if Truthy(v) then v else None
  }

  const UNKNOWN := "unknown"

  /** The object handed to `insertResourceSchema.parse`, which accepts it as it is. */
  function ResourceValues(fileName: string, info: PdfInfo): (r: NewResource)
    ensures r.content != ""
    ensures fileName != "" ==> r.content == fileName
    ensures fileName == "" ==> r.content == UNKNOWN
    ensures r.author.None? <==> !Truthy(info.author)
    ensures r.title.None? <==> !Truthy(info.title)
    ensures r.subject.None? <==> !Truthy(info.subject)
    ensures r.keywords.None? <==> !Truthy(info.keywords)
    ensures r.author.Some? ==> r.author == info.author
    ensures r.title.Some? ==> r.title == info.title
    ensures r.subject.Some? ==> r.subject == info.subject
    ensures r.keywords.Some? ==> r.keywords == info.keywords
  {
    NewResource(
      if fileName != "" then fileName else UNKNOWN,
      OrNull(info.author), OrNull(info.title), OrNull(info.subject), OrNull(info.keywords))
  }

  // ---------------------------------------------------------------------------------------------
  // Page-number enrichment

  /** An embedded chunk with the page number of the split page at the same index. */
  datatype EnrichedEmbedding = EnrichedEmbedding(content: Option<string>, embedding: Embedding, pageNumber: Option<int>)

  /** Reading `.metadata` of the missing split page past the end throws. */
  const MISSING_SPLIT_PAGE := "TypeError: Cannot read properties of undefined (reading 'metadata')"

  /** `dbEmbeddings.map((embedding, index) => ({ ...embedding, pageNumber: splitDocs[index].metadata?.loc?.pageNumber }))` */
  function Enrich(rows: seq<EmbeddedChunk>, splitDocs: seq<PdfPage>): (r: Result<seq<EnrichedEmbedding>>)
    ensures r.Failure? <==> |rows| > |splitDocs|
    ensures r.Failure? ==> r.error == MISSING_SPLIT_PAGE
    ensures r.Success? ==> |r.value| == |rows|
    ensures r.Success? ==> forall i :: 0 <= i < |rows| ==>
      r.value[i].content == rows[i].content && r.value[i].embedding == rows[i].embedding
    ensures r.Success? ==> forall i :: 0 <= i < |rows| ==> r.value[i].pageNumber == splitDocs[i].pageNumber
  {
    if |rows| > |splitDocs| then Failure(MISSING_SPLIT_PAGE)
    else Success(seq(|rows|, i requires 0 <= i < |rows| =>
      EnrichedEmbedding(rows[i].content, rows[i].embedding, splitDocs[i].pageNumber)))
  }

  /** `splitDocs.map((doc) => doc.pageContent)` */
  function Contents(splitDocs: seq<PdfPage>): (r: seq<string>)
    ensures |r| == |splitDocs|
    ensures forall i :: 0 <= i < |r| ==> r[i] == splitDocs[i].pageContent
  {
    seq(|splitDocs|, i requires 0 <= i < |splitDocs| => splitDocs[i].pageContent)
  }

  /**
   * With one vector per split page, every enriched row carries the text and the page number of
   * the same split page.
   */
  lemma EnrichAligned(model: EmbedManyModel, splitDocs: seq<PdfPage>)
    requires |model(Contents(splitDocs))| == |splitDocs|
    ensures var r := Enrich(GenerateEmbeddingsFromChunks(model, Contents(splitDocs)), splitDocs);
      && r.Success? && |r.value| == |splitDocs|
      && forall i :: 0 <= i < |splitDocs| ==>
           r.value[i].content == Some(splitDocs[i].pageContent) && r.value[i].pageNumber == splitDocs[i].pageNumber
  {
    var rows := GenerateEmbeddingsFromChunks(model, Contents(splitDocs));
    assert |EmbeddingsOf(rows)| == |splitDocs|;
  }

  // ---------------------------------------------------------------------------------------------
  // Database

  /** `vector("embedding", { dimensions: 2000 })` */
  const EMBEDDING_DIMENSIONS := 2000

  const NULL_VIOLATION := "null value violates not-null constraint"
  const DIMENSION_MISMATCH := "expected 2000 dimensions"

  datatype ResourceRow = ResourceRow(id: string, values: NewResource)

  datatype EmbeddingRow = EmbeddingRow(resourceId: string, content: string, embedding: Embedding, pageNumber: int)

  /** The embeddings table takes a row only with a content, a page number and a 2000-dimension vector. */
  predicate Insertable(e: EnrichedEmbedding)
  {
    e.content.Some? && e.pageNumber.Some? && |e.embedding| == EMBEDDING_DIMENSIONS
  }

  /** Why the database refuses a batch, if it does. */
  function BatchError(batch: seq<EnrichedEmbedding>): (r: Option<string>)
    ensures r.None? <==> forall e :: e in batch ==> Insertable(e)
  {
    if exists e :: e in batch && (e.content.None? || e.pageNumber.None?) then Some(NULL_VIOLATION)
    else if exists e :: e in batch && !Insertable(e) then Some(DIMENSION_MISMATCH)
    else None
  }

  function Rows(resourceId: string, batch: seq<EnrichedEmbedding>): (r: seq<EmbeddingRow>)
    requires forall e :: e in batch ==> Insertable(e)
    ensures |r| == |batch|
    ensures forall i :: 0 <= i < |r| ==>
      && r[i].resourceId == resourceId && Some(r[i].content) == batch[i].content
      && r[i].embedding == batch[i].embedding && Some(r[i].pageNumber) == batch[i].pageNumber
  {
    assert forall i :: 0 <= i < |batch| ==> batch[i] in batch;
    seq(|batch|, i requires 0 <= i < |batch| && Insertable(batch[i]) =>
      EmbeddingRow(resourceId, batch[i].content.value, batch[i].embedding, batch[i].pageNumber.value))
  }

  /** The two tables ingestion writes to. */
  class Database {
    var resources: seq<ResourceRow>
    var embeddings: seq<EmbeddingRow>

    constructor()
      ensures resources == [] && embeddings == []
    {
      resources := [];
      embeddings := [];
    }

    /** `db.insert(resources).values(values).returning()`; `id` is the generated primary key. */
    method InsertResource(id: string, values: NewResource) returns (row: ResourceRow)
      modifies this
      ensures row.id == id && row.values == values
      ensures resources == old(resources) + [row]
      ensures embeddings == old(embeddings)
    {
      row := ResourceRow(id, values);
      resources := resources + [row];
    }

    /** `db.insert(embeddingsTable).values(batch)`: one statement, so either every row or none is stored. */
    method InsertEmbeddings(resourceId: string, batch: seq<EnrichedEmbedding>) returns (error: Option<string>)
      modifies this
      ensures error == BatchError(batch)
      ensures error.None? ==> embeddings == old(embeddings) + Rows(resourceId, batch)
      ensures error.Some? ==> embeddings == old(embeddings)
      ensures resources == old(resources)
    {
      error := BatchError(batch);
      if error.None? {
        embeddings := embeddings + Rows(resourceId, batch);
      }
    }
  }

  // ---------------------------------------------------------------------------------------------
  // `ManualIngest`

  /** The PDF loader (which may throw), the text splitter and the embedding model. */
  datatype IngestOracles = IngestOracles(
    load: string -> Result<seq<PdfPage>>,
    split: seq<PdfPage> -> seq<PdfPage>,
    embedMany: EmbedManyModel)

  /** The resource and the embedding rows ingestion is about to insert. */
  datatype IngestPlan = IngestPlan(resource: NewResource, batch: seq<EnrichedEmbedding>)

  const NO_FIRST_PAGE := "TypeError: Cannot read properties of undefined (reading 'metadata')"
  const NO_SOURCE := "TypeError: Cannot read properties of undefined (reading 'split')"

  /** `process.env.MANUAL_INGESTION_PATH || ""` */
  function LoaderPath(env: Option<string>): (path: string)
    ensures Truthy(env) ==> path == env.value
    ensures !Truthy(env) ==> path == ""
  {
    if Truthy(env) then env.value else ""
  }

  /** Everything `ManualIngest` computes before its first insert, or the error thrown on the way. */
  function PlanIngest(env: Option<string>, oracles: IngestOracles): (plan: Result<IngestPlan>)
    ensures var loaded := oracles.load(LoaderPath(env));
      && (loaded.Failure? ==> plan == Failure(loaded.error))
      && (plan.Success? ==> loaded.Success? && loaded.value != [] && loaded.value[0].source.Some?)
    ensures var loaded := oracles.load(LoaderPath(env));
      loaded.Success? ==>
        var docs, splitDocs := loaded.value, oracles.split(loaded.value);
        var vectors := oracles.embedMany(Contents(splitDocs));
        && (|vectors| > |splitDocs| ==> plan == Failure(MISSING_SPLIT_PAGE))
        && (|vectors| <= |splitDocs| && docs == [] ==> plan == Failure(NO_FIRST_PAGE))
        && (|vectors| <= |splitDocs| && docs != [] && docs[0].source.None? ==> plan == Failure(NO_SOURCE))
        && (plan.Success? <==> |vectors| <= |splitDocs| && docs != [] && docs[0].source.Some?)
  {
    var loaded := oracles.load(LoaderPath(env));
    if loaded.Failure? then Failure(loaded.error)
    else
      var docs := loaded.value;
      var splitDocs := oracles.split(docs);
      var enriched := Enrich(GenerateEmbeddingsFromChunks(oracles.embedMany, Contents(splitDocs)), splitDocs);
      if enriched.Failure? then Failure(enriched.error)
      else if docs == [] then Failure(NO_FIRST_PAGE)
      else if docs[0].source.None? then Failure(NO_SOURCE)
      else Success(IngestPlan(ResourceValues(FileName(docs[0].source.value), docs[0].info), enriched.value))
  }

  /**
   * What a plan holds: the resource is named after the first page's source file (or "unknown")
   * and takes its PDF info, and the batch pairs each split page's text with its page number.
   */
  lemma PlanIngestFacts(env: Option<string>, oracles: IngestOracles)
    ensures var loaded := oracles.load(LoaderPath(env));
      loaded.Failure? ==> PlanIngest(env, oracles) == Failure(loaded.error)
    ensures var loaded := oracles.load(LoaderPath(env));
      loaded.Success? && loaded.value == [] ==> PlanIngest(env, oracles).Failure?
    ensures var plan, loaded := PlanIngest(env, oracles), oracles.load(LoaderPath(env));
      plan.Success? ==>
        && loaded.Success? && loaded.value != [] && loaded.value[0].source.Some?
        && var name := FileName(loaded.value[0].source.value);
           plan.value.resource.content == (if name != "" then name else UNKNOWN)
    ensures var plan, loaded := PlanIngest(env, oracles), oracles.load(LoaderPath(env));
      plan.Success? ==>
        var splitDocs := oracles.split(loaded.value);
        |plan.value.batch| <= |splitDocs| &&
        forall i :: 0 <= i < |plan.value.batch| ==>
          plan.value.batch[i].content == Some(splitDocs[i].pageContent) &&
          plan.value.batch[i].pageNumber == splitDocs[i].pageNumber
    ensures var plan, loaded := PlanIngest(env, oracles), oracles.load(LoaderPath(env));
      plan.Success? ==>
        plan.value.resource == ResourceValues(FileName(loaded.value[0].source.value), loaded.value[0].info)
    ensures var plan, loaded := PlanIngest(env, oracles), oracles.load(LoaderPath(env));
      plan.Success? ==>
        var vectors := oracles.embedMany(Contents(oracles.split(loaded.value)));
        |plan.value.batch| == |vectors| && forall i :: 0 <= i < |vectors| ==> plan.value.batch[i].embedding == vectors[i]
  {
  }

  /**
   * `ManualIngest`: every error is caught and returned as the logged message, so the call itself
   * never fails. Nothing is written unless the plan succeeds; the resource row is written before
   * the embeddings and stays when the embeddings are refused.
   */
  method ManualIngest(db: Database, env: Option<string>, oracles: IngestOracles, resourceId: string)
    returns (logged: Option<string>)
    modifies db
    ensures var plan := PlanIngest(env, oracles);
      plan.Failure? ==> logged == Some(plan.error) && db.resources == old(db.resources) && db.embeddings == old(db.embeddings)
    ensures var plan := PlanIngest(env, oracles);
      plan.Success? ==> db.resources == old(db.resources) + [ResourceRow(resourceId, plan.value.resource)]
    ensures var plan := PlanIngest(env, oracles);
      plan.Success? ==> logged == BatchError(plan.value.batch)
    ensures var plan := PlanIngest(env, oracles);
      plan.Success? && logged.None? ==> db.embeddings == old(db.embeddings) + Rows(resourceId, plan.value.batch)
    ensures var plan := PlanIngest(env, oracles);
      plan.Success? && logged.Some? ==> db.embeddings == old(db.embeddings)
  {
    var loaded := oracles.load(LoaderPath(env));
    if loaded.Failure? {
      return Some(loaded.error);
    }
    var docs := loaded.value;
    var splitDocs := oracles.split(docs);
    var dbEmbeddings := GenerateEmbeddingsFromChunks(oracles.embedMany, Contents(splitDocs));
    var enriched := Enrich(dbEmbeddings, splitDocs);
    if enriched.Failure? {
      return Some(enriched.error);
    }
    if docs == [] {
      return Some(NO_FIRST_PAGE);
    }
    if docs[0].source.None? {
      return Some(NO_SOURCE);
    }
    var fileName := FileName(docs[0].source.value);
    var values := ResourceValues(fileName, docs[0].info);
    var resource := db.InsertResource(resourceId, values);
    logged := db.InsertEmbeddings(resource.id, enriched.value);
  }
}
