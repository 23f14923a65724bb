/** The retrieval service of api/rag_service.py (class RAGService): document formatting,
    metadata coercion, batched indexing, semantic search and RAG query assembly.

    The embedding APIs, the local model, Qdrant and the chat model are oracles bundled in
    `Backends`; a call that raises is an oracle answer of None or Err. */
module RagService {
  import opened Wrappers
  import opened Text
  import opened Frames

  type Vector = seq<real>

  const CollectionName := "web_contracts"
  const OpenaiVectorSize := 1536
  const LocalVectorSize := 384
  const BatchSize := 100
  const QueryLimit := 5
  const ScoreKey := "similarity_score"
  const NoEmbeddingModel := "No embedding model available"
  const NoVectorDb := "Vector database not available"
  const NoMatchAnswer := "I couldn't find any relevant contracts for your question."
  const NoContractsAnswer := "I found no relevant contracts for your question. Please try a different query."
  const ErrorAnswerPrefix := "An error occurred: "

  /** What `RAGService.__init__` ended up with: whether OpenAI is in use and its client
      exists, whether the local sentence-transformer loaded, whether Qdrant is reachable. */
  datatype Service = Service(useOpenai: bool, hasOpenaiClient: bool, hasLocalModel: bool, hasQdrant: bool)

  /** `RAGService(openai_api_key)`: the key is the argument or else the OPENAI_API_KEY
      environment variable; OpenAI is used exactly when that key is non-empty. */
  function NewService(apiKey: Option<string>, envKey: Option<string>, localModelLoads: bool, qdrantConnects: bool): (svc: Service)
    ensures svc.useOpenai <==> Truthy(apiKey) || Truthy(envKey)
    ensures svc.hasOpenaiClient == svc.useOpenai
    ensures svc.hasLocalModel == localModelLoads && svc.hasQdrant == qdrantConnects
  {
    var key := if Truthy(apiKey) then apiKey else envKey;
    Service(Truthy(key), Truthy(key), localModelLoads, qdrantConnects)
  }

  datatype CreateCollection = CreateCollection(name: string, size: nat)

  /** `init_vector_storage`: the collection it creates, if any, given the names of the
      existing collections (None when listing them raises). */
  function InitVectorStorage(svc: Service, existing: Option<seq<string>>): (r: Option<CreateCollection>)
    ensures r.Some? <==> svc.hasQdrant && existing.Some? && CollectionName !in existing.value
    ensures r.Some? ==> r.value.name == CollectionName
    ensures r.Some? ==> r.value.size == if svc.useOpenai then OpenaiVectorSize else LocalVectorSize
  {
    if !svc.hasQdrant || existing.None? || CollectionName in existing.value then None
    else Some(CreateCollection(CollectionName, if svc.useOpenai then OpenaiVectorSize else LocalVectorSize))
  }

  /** Once the collection exists, initialising again creates nothing. */
  lemma InitVectorStorageIdempotent(svc: Service, names: seq<string>)
    ensures InitVectorStorage(svc, Some(names + [CollectionName])) == None
  {
    assert (names + [CollectionName])[|names|] == CollectionName;
  }

  /** A search hit: the stored payload and its similarity score (opaque float). */
  datatype Hit = Hit(payload: Record, score: Value)

  /** A point to upsert; its uuid is not modelled. */
  datatype Point = Point(vector: Vector, payload: Record)

  /** The external services, as functions of their inputs. */
  datatype Backends = Backends(
    openaiEmbed: seq<string> -> Option<seq<Vector>>,   // embeddings.create; None: it raised
    localEncode: seq<string> -> Result<seq<Vector>>,   // SentenceTransformer.encode; Err(str(e)): it raised
    search: (Vector, int) -> Option<seq<Hit>>,         // Qdrant search; None: it raised
    upsert: seq<Point> -> Option<string>,              // Qdrant upsert; Some(message): it raised
    chat: (string, string) -> Option<string>,          // chat completion for (question, context)
    summary: seq<Record> -> Result<string>)            // generate_fallback_response on a non-empty list

  // ---------------------------------------------------------------- embeddings

  /** `get_embeddings`: OpenAI when both `use_openai` and the client are set and the call
      succeeds; otherwise the local model, whose own exception is not caught here and so
      reaches the caller; otherwise "No embedding model available". The two ensures are
      the promised dispatch; `EmbeddingFailure` states when it fails. */
  function GetEmbeddings(svc: Service, b: Backends, texts: seq<string>): (r: Result<seq<Vector>>)
    ensures svc.useOpenai && svc.hasOpenaiClient && b.openaiEmbed(texts).Some? ==>
              r == Ok(b.openaiEmbed(texts).value)
    ensures !(svc.useOpenai && svc.hasOpenaiClient) || b.openaiEmbed(texts).None? ==>
              r == if svc.hasLocalModel then b.localEncode(texts) else Err(NoEmbeddingModel)
  {
    if svc.useOpenai && svc.hasOpenaiClient && b.openaiEmbed(texts).Some? then
      Ok(b.openaiEmbed(texts).value)
    else if svc.hasLocalModel then b.localEncode(texts)
    else Err(NoEmbeddingModel)
  }

  /** Embedding fails exactly when OpenAI did not answer and the local model is either
      missing or raises. */
  lemma EmbeddingFailure(svc: Service, b: Backends, texts: seq<string>)
    ensures GetEmbeddings(svc, b, texts).Err? <==>
              !(svc.useOpenai && svc.hasOpenaiClient && b.openaiEmbed(texts).Some?) &&
              (!svc.hasLocalModel || b.localEncode(texts).Err?)
  {
  }

  // ---------------------------------------------------------------- document text

  /** The labels of the thirteen lines of a contract document, in order. */
  const Labels: seq<string> := ["Contract ID", "Client", "Project", "Description", "Scope",
    "Technologies", "Industry", "Contract Type", "Complexity", "Value", "Status", "Location", "Notes"]

  /** The text of field `key`, or "" when the record lacks it. */
  function Field(d: Record, key: string): string {
    Get(d, key, Str("")).text
  }

  /** What each line shows after its label and ": ". */
  function LineValues(d: Record): (vs: seq<string>)
    ensures |vs| == |Labels|
  {
    [Field(d, "contract_id"),
     Field(d, "client_name") + " at " + Field(d, "client_company"),
     Field(d, "project_title"),
     Field(d, "project_description"),
     Field(d, "project_scope"),
     Field(d, "technologies"),
     Field(d, "client_industry"),
     Field(d, "contract_type"),
     Field(d, "project_complexity"),
     "$" + Get(d, "contract_value", Value("0", false, None)).text,
     Field(d, "status"),
     Field(d, "client_location"),
     Field(d, "notes")]
  }

  /** The list `text_parts` of `prepare_document_text`. */
  function Lines(d: Record): (ls: seq<string>)
    ensures |ls| == |Labels|
    ensures forall i :: 0 <= i < |Labels| ==> ls[i] == Labels[i] + ": " + LineValues(d)[i]
  {
    var vs := LineValues(d);
    seq(|Labels|, i requires 0 <= i < |Labels| => Labels[i] + ": " + vs[i])
  }

  /** The text after the first ": " of `part`; None when there is none (Python would raise). */
  function AfterFirstSep(part: string): Option<string> {
    var i := Find(part, ": ", 0);
    if i == -1 then None else Some(part[i + 2..])
  }

  predicate KeepLine(part: string) {
    var rest := AfterFirstSep(part);
    rest.Some? && rest.value != ""
  }

  /** The filter of `prepare_document_text`: the lines whose text after the first ": " is
      non-empty, in order. */
  function KeptLines(lines: seq<string>): (r: seq<string>)
    ensures |r| <= |lines|
    ensures forall x :: x in r ==> x in lines && KeepLine(x)
    ensures forall x :: x in lines && KeepLine(x) ==> x in r
  {
    if lines == [] then []
    else (if KeepLine(lines[0]) then [lines[0]] else []) + KeptLines(lines[1..])
  }

  /** `prepare_document_text`. */
  function PrepareDocumentText(d: Record): string {
    Join(KeptLines(Lines(d)), "\n")
  }

  /** `a` is `b` with some elements left out, order kept. */
  predicate IsSubsequence(a: seq<string>, b: seq<string>)
    decreases |b|
  {
    if a == [] then true
    else if b == [] then false
    else if a[0] == b[0] then IsSubsequence(a[1..], b[1..])
    else IsSubsequence(a, b[1..])
  }

  /** The document keeps the lines in their fixed order. */
  lemma {:induction false} KeptLinesInOrder(lines: seq<string>)
    ensures IsSubsequence(KeptLines(lines), lines)
  {
    if lines != [] {
      KeptLinesInOrder(lines[1..]);
      if KeepLine(lines[0]) {
        assert KeptLines(lines) == [lines[0]] + KeptLines(lines[1..]);
        assert ([lines[0]] + KeptLines(lines[1..]))[1..] == KeptLines(lines[1..]);
      } else {
        assert KeptLines(lines) == KeptLines(lines[1..]);
        SubsequenceOfTail(KeptLines(lines[1..]), lines);
      }
    }
  }

  lemma {:induction false} SubsequenceOfTail(a: seq<string>, b: seq<string>)
    requires b != [] && IsSubsequence(a, b[1..])
    ensures IsSubsequence(a, b)
    decreases |a| + |b|
  {
    if a != [] && a[0] == b[0] {
      SubsequenceDropHead(a, b[1..]);
    }
  }

  lemma {:induction false} SubsequenceDropHead(a: seq<string>, b: seq<string>)
    requires a != [] && IsSubsequence(a, b)
    ensures IsSubsequence(a[1..], b)
    decreases |a| + |b|
  {
    if a[0] == b[0] {
      SubsequenceOfTail(a[1..], b);
    } else {
      SubsequenceDropHead(a, b[1..]);
      SubsequenceOfTail(a[1..], b);
    }
  }

  predicate NoColon(s: string) {
    forall j :: 0 <= j < |s| ==> s[j] != ':'
  }

  /** For a label without ':', the text after the first ": " is exactly the value. */
  lemma SplitAfterLabel(name: string, v: string)
    requires NoColon(name)
    ensures AfterFirstSep(name + ": " + v) == Some(v)
  {
    var s := name + ": " + v;
    assert s[|name|..|name| + 2] == ": ";
    assert OccursAt(s, ": ", |name|);
    forall j: nat | j < |name| ensures !OccursAt(s, ": ", j) {
      assert s[j] == name[j];
    }
    assert Find(s, ": ", 0) == |name|;
    assert s[|name| + 2..] == v;
  }

  lemma LabelsHaveNoColon(i: nat)
    requires i < |Labels|
    ensures NoColon(Labels[i])
  {
  }

  /** A line is kept exactly when its value is non-empty. */
  lemma LineKeptIffValue(d: Record, i: nat)
    requires i < |Labels|
    ensures AfterFirstSep(Lines(d)[i]) == Some(LineValues(d)[i])
    ensures KeepLine(Lines(d)[i]) <==> LineValues(d)[i] != ""
  {
    LabelsHaveNoColon(i);
    SplitAfterLabel(Labels[i], LineValues(d)[i]);
  }

  lemma {:induction false} KeptTwo(lines: seq<string>, i: nat, j: nat)
    requires i < j < |lines| && KeepLine(lines[i]) && KeepLine(lines[j])
    ensures |KeptLines(lines)| >= 2
    decreases j
  {
    if i == 0 {
      assert lines[1..][j - 1] == lines[j];
      assert lines[j] in KeptLines(lines[1..]);
    } else {
      assert lines[1..][i - 1] == lines[i] && lines[1..][j - 1] == lines[j];
      KeptTwo(lines[1..], i - 1, j - 1);
    }
  }

  /** Two kept lines make a document with a line break in it. */
  lemma {:induction false} TwoKeptLinesMakeTwoLines(lines: seq<string>, i: nat, j: nat)
    requires i < j < |lines| && KeepLine(lines[i]) && KeepLine(lines[j])
    ensures |KeptLines(lines)| >= 2
    ensures Join(KeptLines(lines), "\n") != ""
    ensures Contains(Join(KeptLines(lines), "\n"), "\n")
  {
    KeptTwo(lines, i, j);
    var kept := KeptLines(lines);
    JoinContainsSep(kept, "\n");
    assert OccursAt(Join(kept, "\n"), "\n", |kept[0]|);
  }

  lemma ClientAndValueNonEmpty(d: Record)
    ensures LineValues(d)[1] != "" && LineValues(d)[9] != ""
  {
    var vs := LineValues(d);
    assert |vs[1]| >= |" at "|;
    assert vs[9][0] == '$';
  }

  /** The "Client: … at …" and "Value: $…" lines always survive, so a document is never
      empty and has at least two lines. */
  lemma DocumentAlwaysHasClientAndValue(d: Record)
    ensures Lines(d)[1] in KeptLines(Lines(d)) && Lines(d)[9] in KeptLines(Lines(d))
    ensures |KeptLines(Lines(d))| >= 2
    ensures PrepareDocumentText(d) != ""
    ensures Contains(PrepareDocumentText(d), "\n")
  {
    var lines := Lines(d);
    ClientAndValueNonEmpty(d);
    LineKeptIffValue(d, 1);
    LineKeptIffValue(d, 9);
    TwoKeptLinesMakeTwoLines(lines, 1, 9);
  }

  // ---------------------------------------------------------------- metadata

  /** The value a payload field takes: "" for NaN, the ISO string when the value has
      `isoformat`, `str(value)` otherwise. */
  function Coerce(v: Value): string {
    if v.isNa then "" else if v.iso.Some? then v.iso.value else v.text
  }

  /** The payload made from a row: same keys, every value a plain string. */
  function CoerceRecord(meta: Record): (out: Record)
    ensures out.Keys == meta.Keys
    ensures forall k :: k in meta ==> !out[k].isNa && out[k].iso.None?
    ensures forall k :: k in meta ==> out[k].text == if meta[k].isNa then ""
                                                     else if meta[k].iso.Some? then meta[k].iso.value
                                                     else meta[k].text
  {
    map k | k in meta :: Str(Coerce(meta[k]))
  }

  /** The loop of `index_contracts` that overwrites every payload value in place. */
  method CoerceMetadata(meta: Record) returns (out: Record)
    ensures out == CoerceRecord(meta)
  {
    out := meta;
    var todo := meta.Keys;
    while todo != {}
      invariant todo <= meta.Keys && out.Keys == meta.Keys
      invariant forall k :: k in todo ==> out[k] == meta[k]
      invariant forall k :: k in meta.Keys - todo ==> out[k] == Str(Coerce(meta[k]))
      decreases |todo|
    {
      var k :| k in todo;
      out := out[k := Str(Coerce(out[k]))];
      todo := todo - {k};
    }
  }

  // ---------------------------------------------------------------- batching

  /** The consecutive slices of length `k` that cover `s`, the last one possibly shorter. */
  function Chunks<T>(s: seq<T>, k: nat): seq<seq<T>>
    requires k > 0
    decreases |s|
  {
    if s == [] then [] else if |s| <= k then [s] else [s[..k]] + Chunks(s[k..], k)
  }

  function Flatten<T>(cs: seq<seq<T>>): seq<T> {
    if cs == [] then [] else cs[0] + Flatten(cs[1..])
  }

  /** Batches are non-empty, hold at most k items and concatenate back to the input. */
  lemma {:induction false} ChunksProperties<T>(s: seq<T>, k: nat)
    requires k > 0
    ensures Flatten(Chunks(s, k)) == s
    ensures forall c :: c in Chunks(s, k) ==> 0 < |c| <= k
    decreases |s|
  {
    if s != [] && |s| > k {
      ChunksProperties(s[k..], k);
      assert Chunks(s, k) == [s[..k]] + Chunks(s[k..], k);
      assert ([s[..k]] + Chunks(s[k..], k))[1..] == Chunks(s[k..], k);
      assert s[..k] + s[k..] == s;
    }
  }

  /** There are ceil(n / 100) batches of 100. */
  lemma {:induction false} ChunksCount<T>(s: seq<T>)
    ensures |Chunks(s, BatchSize)| == (|s| + BatchSize - 1) / BatchSize
    decreases |s|
  {
    if |s| > BatchSize {
      ChunksCount(s[BatchSize..]);
    }
  }

  function Min(a: int, b: int): int {
    if a < b then a else b
  }

  /** The first batch of a sequence, and what follows it. */
  lemma ChunksHead<T>(s: seq<T>, k: nat)
    requires k > 0 && s != []
    ensures Chunks(s, k) == [s[..Min(k, |s|)]] + Chunks(s[Min(k, |s|)..], k)
  {
    if |s| <= k {
      assert s[..|s|] == s && s[|s|..] == [];
    }
  }

  /** The embedding calls of the batch loop over `docs` and what they produce: the calls up
      to and including the first that raises, and all vectors or that error. */
  datatype Embedded = Embedded(calls: seq<seq<string>>, vectors: Result<seq<Vector>>)

  function EmbedFrom(svc: Service, b: Backends, docs: seq<string>): Embedded
    decreases |docs|
  {
    if docs == [] then Embedded([], Ok([]))
    else
      var batch := docs[..Min(BatchSize, |docs|)];
      match GetEmbeddings(svc, b, batch)
      case Err(m) => Embedded([batch], Err(m))
      case Ok(v) =>
        var rest := EmbedFrom(svc, b, docs[Min(BatchSize, |docs|)..]);
        Embedded([batch] + rest.calls, if rest.vectors.Ok? then Ok(v + rest.vectors.value) else rest.vectors)
  }

  /** The embedding calls are the batches of the documents, in order, stopping at the first
      failing batch; when none fails they are all the batches. */
  lemma {:induction false} EmbedFromBatches(svc: Service, b: Backends, docs: seq<string>)
    ensures EmbedFrom(svc, b, docs).calls <= Chunks(docs, BatchSize)
    ensures EmbedFrom(svc, b, docs).vectors.Ok? ==> EmbedFrom(svc, b, docs).calls == Chunks(docs, BatchSize)
    decreases |docs|
  {
    if docs != [] {
      ChunksHead(docs, BatchSize);
      EmbedFromBatches(svc, b, docs[Min(BatchSize, |docs|)..]);
    }
  }

  /** The upsert calls of the batch loop over `points`, up to and including the first that
      raises, and that error. */
  datatype Upserted = Upserted(calls: seq<seq<Point>>, error: Option<string>)

  function UpsertFrom(b: Backends, points: seq<Point>): Upserted
    decreases |points|
  {
    if points == [] then Upserted([], None)
    else
      var batch := points[..Min(BatchSize, |points|)];
      match b.upsert(batch)
      case Some(m) => Upserted([batch], Some(m))
      case None =>
        var rest := UpsertFrom(b, points[Min(BatchSize, |points|)..]);
        Upserted([batch] + rest.calls, rest.error)
  }

  lemma {:induction false} UpsertFromBatches(b: Backends, points: seq<Point>)
    ensures UpsertFrom(b, points).calls <= Chunks(points, BatchSize)
    ensures UpsertFrom(b, points).error.None? ==> UpsertFrom(b, points).calls == Chunks(points, BatchSize)
    decreases |points|
  {
    if points != [] {
      ChunksHead(points, BatchSize);
      UpsertFromBatches(b, points[Min(BatchSize, |points|)..]);
    }
  }

  // ---------------------------------------------------------------- indexing

  function RowDocument(row: Row): string {
    PrepareDocumentText(ToDict(row))
  }

  function RowPayload(row: Row): Record {
    CoerceRecord(ToDict(row))
  }

  /** `f` applied to every element, in order. */
  function MapSeq<A, B>(xs: seq<A>, f: A -> B): (ys: seq<B>)
    ensures |ys| == |xs|
  {
    seq(|xs|, i requires 0 <= i < |xs| => f(xs[i]))
  }

  lemma MapSeqSnoc<A, B>(xs: seq<A>, f: A -> B, r: nat)
    requires r < |xs|
    ensures MapSeq(xs[..r + 1], f) == MapSeq(xs[..r], f) + [f(xs[r])]
  {
    var lhs, rhs := MapSeq(xs[..r + 1], f), MapSeq(xs[..r], f) + [f(xs[r])];
    forall i | 0 <= i < |lhs| ensures lhs[i] == rhs[i] {
      if i < r {
        assert xs[..r + 1][i] == xs[..r][i];
      }
    }
  }

  function Documents(f: Frame): (docs: seq<string>)
    ensures |docs| == |f.rows|
  {
    MapSeq(f.rows, RowDocument)
  }

  function Metadata(f: Frame): (metas: seq<Record>)
    ensures |metas| == |f.rows|
  {
    MapSeq(f.rows, RowPayload)
  }

  /** `zip(all_embeddings, metadata)`: stops at the shorter list. */
  function Zip(vs: seq<Vector>, metas: seq<Record>): (ps: seq<Point>)
    ensures |ps| == Min(|vs|, |metas|)
  {
    seq(Min(|vs|, |metas|), i requires 0 <= i < Min(|vs|, |metas|) => Point(vs[i], metas[i]))
  }

  /** The dict `index_contracts` returns (its timestamp is not modelled). */
  datatype IndexResult = Indexed(indexedCount: nat, collectionName: string) | IndexError(msg: string)

  datatype Indexing = Indexing(result: IndexResult, embedCalls: seq<seq<string>>, upserts: seq<seq<Point>>)

  /** What `index_contracts(df)` returns and which embedding and upsert calls it makes. */
  function IndexOutcome(svc: Service, b: Backends, df: Frame): Indexing {
    if !svc.hasQdrant then Indexing(IndexError(NoVectorDb), [], [])
    else
      var e := EmbedFrom(svc, b, Documents(df));
      if e.vectors.Err? then Indexing(IndexError(e.vectors.msg), e.calls, [])
      else
        var u := UpsertFrom(b, Zip(e.vectors.value, Metadata(df)));
        Indexing(if u.error.Some? then IndexError(u.error.value) else Indexed(|df.rows|, CollectionName),
                 e.calls, u.calls)
  }

  /** An empty frame makes no embedding call and no upsert, yet reports success with
      `indexed_count` 0. */
  lemma IndexEmptyFrame(svc: Service, b: Backends, df: Frame)
    requires svc.hasQdrant && df.rows == []
    ensures IndexOutcome(svc, b, df) == Indexing(Indexed(0, CollectionName), [], [])
  {
    assert Documents(df) == [];
    assert Zip([], Metadata(df)) == [];
  }

  /** On success every row is counted, the embedding calls are the documents cut into
      ceil(n/100) batches of at most 100, and the upserts are the points, the vectors
      zipped with the payloads, cut the same way. */
  lemma IndexSuccess(svc: Service, b: Backends, df: Frame)
    requires IndexOutcome(svc, b, df).result.Indexed?
    ensures IndexOutcome(svc, b, df).result.indexedCount == |df.rows|
    ensures Flatten(IndexOutcome(svc, b, df).embedCalls) == Documents(df)
    ensures |IndexOutcome(svc, b, df).embedCalls| == (|df.rows| + BatchSize - 1) / BatchSize
    ensures forall c :: c in IndexOutcome(svc, b, df).embedCalls ==> 0 < |c| <= BatchSize
    ensures forall c :: c in IndexOutcome(svc, b, df).upserts ==> 0 < |c| <= BatchSize
    ensures |Flatten(IndexOutcome(svc, b, df).upserts)| <= |df.rows|
    ensures IndexOutcome(svc, b, df).embedCalls == Chunks(Documents(df), BatchSize)
    ensures IndexOutcome(svc, b, df).upserts ==
              Chunks(Zip(EmbedFrom(svc, b, Documents(df)).vectors.value, Metadata(df)), BatchSize)
    ensures Flatten(IndexOutcome(svc, b, df).upserts) ==
              Zip(EmbedFrom(svc, b, Documents(df)).vectors.value, Metadata(df))
  {
    var docs := Documents(df);
    EmbedFromBatches(svc, b, docs);
    ChunksProperties(docs, BatchSize);
    ChunksCount(docs);
    var e := EmbedFrom(svc, b, docs);
    var points := Zip(e.vectors.value, Metadata(df));
    UpsertFromBatches(b, points);
    ChunksProperties(points, BatchSize);
  }

  /** Whatever happens, each call carries between 1 and 100 items, and the embedding calls
      are the leading batches of the documents. */
  lemma IndexBatchesBounded(svc: Service, b: Backends, df: Frame)
    ensures IndexOutcome(svc, b, df).embedCalls <= Chunks(Documents(df), BatchSize)
    ensures forall c :: c in IndexOutcome(svc, b, df).embedCalls ==> 0 < |c| <= BatchSize
    ensures forall c :: c in IndexOutcome(svc, b, df).upserts ==> 0 < |c| <= BatchSize
  {
    var docs := Documents(df);
    EmbedFromBatches(svc, b, docs);
    var e := EmbedFrom(svc, b, docs);
    LeadingChunksBounded(e.calls, docs);
    if svc.hasQdrant && e.vectors.Ok? {
      var points := Zip(e.vectors.value, Metadata(df));
      UpsertFromBatches(b, points);
      LeadingChunksBounded(UpsertFrom(b, points).calls, points);
    }
  }

  lemma LeadingChunksBounded<T>(calls: seq<seq<T>>, s: seq<T>)
    requires calls <= Chunks(s, BatchSize)
    ensures forall c :: c in calls ==> 0 < |c| <= BatchSize
  {
    ChunksProperties(s, BatchSize);
    assert forall c :: c in calls ==> c in Chunks(s, BatchSize);
  }

  /** The body of the row loop of `index_contracts`, for one row. */
  method PrepareRow(row: Row) returns (doc: string, meta: Record)
    ensures doc == RowDocument(row) && meta == RowPayload(row)
  {
    var contract := ToDict(row);
    doc := PrepareDocumentText(contract);
    meta := CoerceMetadata(contract);
  }

  /** The row loop of `index_contracts`: one document and one coerced payload per row. */
  method PrepareRows(df: Frame) returns (documents: seq<string>, metadata: seq<Record>)
    ensures documents == Documents(df) && metadata == Metadata(df)
  {
    documents, metadata := [], [];
    var r := 0;
    while r < |df.rows|
      invariant 0 <= r <= |df.rows|
      invariant documents == MapSeq(df.rows[..r], RowDocument)
      invariant metadata == MapSeq(df.rows[..r], RowPayload)
    {
      var doc, meta := PrepareRow(df.rows[r]);
      MapSeqSnoc(df.rows, RowDocument, r);
      MapSeqSnoc(df.rows, RowPayload, r);
      documents, metadata := documents + [doc], metadata + [meta];
      r := r + 1;
    }
    assert df.rows[..r] == df.rows;
  }

  /** `rest`, the outcome of the remaining batches, after `calls` have been made and have
      returned `vectors`. */
  function After(calls: seq<seq<string>>, vectors: seq<Vector>, rest: Embedded): Embedded {
    Embedded(calls + rest.calls, if rest.vectors.Ok? then Ok(vectors + rest.vectors.value) else rest.vectors)
  }

  /** One step of `EmbedFrom` from offset `i`: the next batch, then the rest. */
  lemma EmbedStep(svc: Service, b: Backends, docs: seq<string>, i: nat)
    requires i < |docs|
    ensures var end := Min(i + BatchSize, |docs|);
            var batch := docs[i..end];
            EmbedFrom(svc, b, docs[i..]) ==
              match GetEmbeddings(svc, b, batch)
              case Err(m) => Embedded([batch], Err(m))
              case Ok(v) => After([batch], v, EmbedFrom(svc, b, docs[end..]))
  {
    var end := Min(i + BatchSize, |docs|);
    assert docs[i..][..Min(BatchSize, |docs| - i)] == docs[i..end];
    assert docs[i..][Min(BatchSize, |docs| - i)..] == docs[end..];
  }

  lemma AfterAfter(calls: seq<seq<string>>, vectors: seq<Vector>, calls2: seq<seq<string>>,
                   vectors2: seq<Vector>, rest: Embedded)
    ensures After(calls, vectors, After(calls2, vectors2, rest)) == After(calls + calls2, vectors + vectors2, rest)
  {
    assert calls + (calls2 + rest.calls) == calls + calls2 + rest.calls;
    if rest.vectors.Ok? {
      assert vectors + (vectors2 + rest.vectors.value) == vectors + vectors2 + rest.vectors.value;
    }
  }

  /** The embedding loop of `index_contracts`: `get_embeddings` on each batch of 100 in
      turn, extending `all_embeddings`, until a batch raises. */
  method EmbedInBatches(svc: Service, b: Backends, documents: seq<string>)
    returns (embedCalls: seq<seq<string>>, allEmbeddings: Result<seq<Vector>>)
    ensures Embedded(embedCalls, allEmbeddings) == EmbedFrom(svc, b, documents)
  {
    embedCalls := [];
    var all: seq<Vector> := [];
    var i := 0;
    assert documents[i..] == documents;
    ghost var start := EmbedFrom(svc, b, documents);
    assert start == After([], [], start) by {
      assert [] + start.calls == start.calls;
      if start.vectors.Ok? { assert [] + start.vectors.value == start.vectors.value; }
    }
    while i < |documents|
      invariant 0 <= i <= |documents|
      invariant EmbedFrom(svc, b, documents) == After(embedCalls, all, EmbedFrom(svc, b, documents[i..]))
    {
      var end := Min(i + BatchSize, |documents|);
      var batch := documents[i..end];
      EmbedStep(svc, b, documents, i);
      var embedded := GetEmbeddings(svc, b, batch);
      if embedded.Err? {
        return embedCalls + [batch], Err(embedded.msg);
      }
      AfterAfter(embedCalls, all, [batch], embedded.value, EmbedFrom(svc, b, documents[end..]));
      embedCalls := embedCalls + [batch];
      all := all + embedded.value;
      i := end;
    }
    assert documents[i..] == [];
    assert embedCalls + [] == embedCalls && all + [] == all;
    allEmbeddings := Ok(all);
  }

  /** The point loop of `index_contracts`, over `zip(all_embeddings, metadata)`. */
  method ZipPoints(allEmbeddings: seq<Vector>, metadata: seq<Record>) returns (points: seq<Point>)
    ensures points == Zip(allEmbeddings, metadata)
  {
    points := [];
    var n := Min(|allEmbeddings|, |metadata|);
    var j := 0;
    while j < n
      invariant 0 <= j <= n
      invariant points == Zip(allEmbeddings, metadata)[..j]
    {
      points := points + [Point(allEmbeddings[j], metadata[j])];
      j := j + 1;
    }
  }

  /** The upload loop of `index_contracts`: `upsert` on each batch of 100 in turn, until
      one raises. */
  method UpsertInBatches(b: Backends, points: seq<Point>) returns (upserts: seq<seq<Point>>, error: Option<string>)
    ensures Upserted(upserts, error) == UpsertFrom(b, points)
  {
    upserts := [];
    var k := 0;
    while k < |points|
      invariant 0 <= k <= |points|
      invariant var rest := UpsertFrom(b, points[k..]);
        UpsertFrom(b, points) == Upserted(upserts + rest.calls, rest.error)
    {
      var end := Min(k + BatchSize, |points|);
      var batch := points[k..end];
      assert points[k..][..Min(BatchSize, |points| - k)] == batch;
      assert points[k..][Min(BatchSize, |points| - k)..] == points[end..];
      var failure := b.upsert(batch);
      upserts := upserts + [batch];
      if failure.Some? {
        return upserts, failure;
      }
      k := end;
    }
    assert points[k..] == [];
    error := None;
  }

  /** `index_contracts`. */
  method IndexContracts(svc: Service, b: Backends, df: Frame)
    returns (res: IndexResult, embedCalls: seq<seq<string>>, upserts: seq<seq<Point>>)
    ensures Indexing(res, embedCalls, upserts) == IndexOutcome(svc, b, df)
  {
    if !svc.hasQdrant {
      return IndexError(NoVectorDb), [], [];
    }
    var documents, metadata := PrepareRows(df);
    var allEmbeddings;
    embedCalls, allEmbeddings := EmbedInBatches(svc, b, documents);
    if allEmbeddings.Err? {
      return IndexError(allEmbeddings.msg), embedCalls, [];
    }
    var points := ZipPoints(allEmbeddings.value, metadata);
    var error;
    upserts, error := UpsertInBatches(b, points);
    if error.Some? {
      return IndexError(error.value), embedCalls, upserts;
    }
    res := Indexed(|df.rows|, CollectionName);
  }

  // ---------------------------------------------------------------- search

  /** The store's hits for `query`, or None when search degrades: no Qdrant client, the
      embedding raises or yields no vector, or the search raises. */
  function SearchHits(svc: Service, b: Backends, query: string, limit: int): Option<seq<Hit>> {
    if !svc.hasQdrant then None
    else match GetEmbeddings(svc, b, [query])
      case Err(_) => None
      case Ok(vs) => if vs == [] then None else b.search(vs[0], limit)
  }

  /** The payload with `similarity_score` set to the hit's score. */
  function Scored(h: Hit): Record {
    h.payload[ScoreKey := h.score]
  }

  function SearchResults(svc: Service, b: Backends, query: string, limit: int): seq<Record> {
    match SearchHits(svc, b, query, limit)
    case None => []
    case Some(hs) => seq(|hs|, i requires 0 <= i < |hs| => Scored(hs[i]))
  }

  /** `semantic_search`: one result per hit, in the store's order, each the payload with
      the hit's score under `similarity_score`; [] when search degrades. */
  method SemanticSearch(svc: Service, b: Backends, query: string, limit: int) returns (results: seq<Record>)
    ensures results == SearchResults(svc, b, query, limit)
    ensures SearchHits(svc, b, query, limit).None? ==> results == []
    ensures SearchHits(svc, b, query, limit).Some? ==>
              var hs := SearchHits(svc, b, query, limit).value;
              |results| == |hs| &&
              forall i :: 0 <= i < |hs| ==>
                results[i].Keys == hs[i].payload.Keys + {ScoreKey} && results[i][ScoreKey] == hs[i].score &&
                forall k :: k in hs[i].payload && k != ScoreKey ==> results[i][k] == hs[i].payload[k]
  {
    results := [];
    if !svc.hasQdrant {
      return;
    }
    var embedded := GetEmbeddings(svc, b, [query]);
    if embedded.Err? || embedded.value == [] {
      return;
    }
    var found := b.search(embedded.value[0], limit);
    if found.None? {
      return;
    }
    var hits := found.value;
    var i := 0;
    while i < |hits|
      invariant 0 <= i <= |hits|
      invariant |results| == i
      invariant forall j :: 0 <= j < i ==> results[j] == Scored(hits[j])
    {
      var contract := hits[i].payload;
      contract := contract[ScoreKey := hits[i].score];
      results := results + [contract];
      i := i + 1;
    }
  }

  // ---------------------------------------------------------------- RAG query

  /** One entry of `sources`. */
  datatype Source = Source(contractId: Option<Value>, clientCompany: Option<Value>,
                           projectTitle: Option<Value>, similarityScore: Value)

  /** `context_length` and `contracts_found`, present on an answered query. */
  datatype ContextInfo = ContextInfo(contextLength: nat, contractsFound: nat)

  /** The dict `rag_query` returns. */
  datatype RagAnswer = RagAnswer(answer: string, sources: seq<Source>, query: string, info: Option<ContextInfo>)

  function SourceOf(c: Record): Source {
    Source(Lookup(c, "contract_id"), Lookup(c, "client_company"), Lookup(c, "project_title"),
           Get(c, ScoreKey, Value("0", false, None)))
  }

  /** The context entry of a contract: a "Contract <id>:" header line ("Unknown" when the
      id is missing) followed by its document text. */
  function ContextPart(c: Record): string {
    "Contract " + Get(c, "contract_id", Str("Unknown")).text + ":\n" + PrepareDocumentText(c)
  }

  function ContextParts(cs: seq<Record>): (parts: seq<string>)
    ensures |parts| == |cs|
  {
    MapSeq(cs, ContextPart)
  }

  /** The hard cut of an over-long context: its first `max` characters and "...". */
  function Truncate(context: string, max: int): (r: string)
    ensures 0 <= max ==> |r| <= max + 3
    ensures |context| <= max ==> r == context
    ensures 0 <= max < |context| ==> r == context[..max] + "..."
  {
    if |context| > max then PyPrefix(context, max) + "..." else context
  }

  /** `generate_fallback_response`; for a non-empty list its float summary is an oracle,
      which may raise (e.g. on a `contract_value` that `float()` rejects). */
  function FallbackResponse(b: Backends, contracts: seq<Record>): (r: Result<string>)
    ensures contracts == [] ==> r == Ok(NoContractsAnswer)
    ensures contracts != [] ==> r == b.summary(contracts)
  {
    if contracts == [] then Ok(NoContractsAnswer) else b.summary(contracts)
  }

  /** `generate_openai_response`: on a failed chat call it falls back with an empty list. */
  function OpenaiResponse(b: Backends, question: string, context: string): (r: string)
    ensures b.chat(question, context).None? ==> r == NoContractsAnswer
    ensures b.chat(question, context).Some? ==>
              |r| <= |b.chat(question, context).value| && r == Strip(b.chat(question, context).value)
  {
    match b.chat(question, context)
    case Some(a) => Strip(a)
    case None => FallbackResponse(b, []).value
  }

  /** What `rag_query(question, max_context_length)` returns. */
  function RagQueryOutcome(svc: Service, b: Backends, question: string, maxContextLength: int): RagAnswer {
    var found := SearchResults(svc, b, question, QueryLimit);
    if found == [] then RagAnswer(NoMatchAnswer, [], question, None)
    else
      var context := Truncate(Join(ContextParts(found), "\n\n"), maxContextLength);
      var answer := if svc.useOpenai && svc.hasOpenaiClient then Ok(OpenaiResponse(b, question, context))
                    else FallbackResponse(b, found);
      match answer
      case Err(m) => RagAnswer(ErrorAnswerPrefix + m, [], question, None)
      case Ok(a) =>
        RagAnswer(a, MapSeq(found, SourceOf), question,
                  Some(ContextInfo(|context|, |found|)))
  }

  /** The loop of `rag_query` that builds `context_parts` and `sources`. */
  method ContextAndSources(relevant: seq<Record>) returns (contextParts: seq<string>, sources: seq<Source>)
    ensures contextParts == ContextParts(relevant) && sources == MapSeq(relevant, SourceOf)
  {
    contextParts, sources := [], [];
    var i := 0;
    while i < |relevant|
      invariant 0 <= i <= |relevant|
      invariant contextParts == MapSeq(relevant[..i], ContextPart)
      invariant sources == MapSeq(relevant[..i], SourceOf)
    {
      var contract := relevant[i];
      MapSeqSnoc(relevant, ContextPart, i);
      MapSeqSnoc(relevant, SourceOf, i);
      contextParts := contextParts + [ContextPart(contract)];
      sources := sources + [Source(Lookup(contract, "contract_id"), Lookup(contract, "client_company"),
                                   Lookup(contract, "project_title"), Get(contract, ScoreKey, Value("0", false, None)))];
      i := i + 1;
    }
    assert relevant[..i] == relevant;
  }

  /** `rag_query`. */
  method RagQuery(svc: Service, b: Backends, question: string, maxContextLength: int) returns (r: RagAnswer)
    ensures r == RagQueryOutcome(svc, b, question, maxContextLength)
  {
    var relevant := SemanticSearch(svc, b, question, QueryLimit);
    if relevant == [] {
      return RagAnswer(NoMatchAnswer, [], question, None);
    }
    var contextParts, sources := ContextAndSources(relevant);
    var context := Join(contextParts, "\n\n");
    if |context| > maxContextLength {
      context := PyPrefix(context, maxContextLength) + "...";
    }
    var answer: Result<string>;
    if svc.useOpenai && svc.hasOpenaiClient {
      answer := Ok(OpenaiResponse(b, question, context));
    } else {
      answer := FallbackResponse(b, relevant);
    }
    if answer.Err? {
      return RagAnswer(ErrorAnswerPrefix + answer.msg, [], question, None);
    }
    r := RagAnswer(answer.value, sources, question, Some(ContextInfo(|context|, |relevant|)));
  }

  /** No match: the fixed answer, no sources. */
  lemma RagNoMatch(svc: Service, b: Backends, question: string, max: int)
    requires SearchResults(svc, b, question, QueryLimit) == []
    ensures RagQueryOutcome(svc, b, question, max) == RagAnswer(NoMatchAnswer, [], question, None)
  {
  }

  /** An answered query has one source per retrieved contract, in order, `contracts_found`
      equal to their number, and a context of at most `max_context_length + 3` characters
      that is untruncated when it fits. */
  lemma RagAnswered(svc: Service, b: Backends, question: string, max: int)
    requires RagQueryOutcome(svc, b, question, max).info.Some?
    ensures var found := SearchResults(svc, b, question, QueryLimit);
            var r := RagQueryOutcome(svc, b, question, max);
            var full := Join(ContextParts(found), "\n\n");
            found != [] &&
            |r.sources| == |found| == r.info.value.contractsFound &&
            (forall i :: 0 <= i < |found| ==>
               r.sources[i].contractId == Lookup(found[i], "contract_id") &&
               r.sources[i].similarityScore == Get(found[i], ScoreKey, Value("0", false, None))) &&
            (0 <= max ==> r.info.value.contextLength <= max + 3) &&
            (|full| <= max ==> r.info.value.contextLength == |full|)
  {
    var found := SearchResults(svc, b, question, QueryLimit);
    var sources := RagQueryOutcome(svc, b, question, max).sources;
    assert sources == MapSeq(found, SourceOf);
    forall i | 0 <= i < |found| ensures sources[i] == SourceOf(found[i]) {
    }
  }

  /** When the chat call fails, the user is told no contracts were found although some
      were retrieved: the fallback is called with an empty list. */
  lemma ChatFailureSaysNoContracts(svc: Service, b: Backends, question: string, max: int)
    requires svc.useOpenai && svc.hasOpenaiClient
    requires SearchResults(svc, b, question, QueryLimit) != []
    requires b.chat(question, Truncate(Join(ContextParts(SearchResults(svc, b, question, QueryLimit)), "\n\n"), max)).None?
    ensures RagQueryOutcome(svc, b, question, max).answer == NoContractsAnswer
    ensures RagQueryOutcome(svc, b, question, max).info.value.contractsFound > 0
  {
  }

  // ---------------------------------------------------------------- stats

  datatype CollectionInfo = CollectionInfo(collectionName: string, pointsCount: nat, vectorSize: nat, distanceMetric: string)

  /** `get_collection_stats`, given what Qdrant's `get_collection` answers. The ensures are
      the promised dispatch: the guard, then the lookup's answer or its caught error. */
  function CollectionStats(svc: Service, info: Result<CollectionInfo>): (r: Result<CollectionInfo>)
    ensures !svc.hasQdrant ==> r == Err(NoVectorDb)
    ensures svc.hasQdrant ==> r == info
  {
    if !svc.hasQdrant then Err(NoVectorDb) else info
  }
}
