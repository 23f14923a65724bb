/** The CSV ingestion service of fix_csv_processing.py: row flattening, the guard chain of
    `RAGSystem.process_csv` with its bounded store retry, `RAGSystem.query`, and the
    validation in front of the `/api/set-openai-key` and `/api/upload-csv` endpoints.

    LangChain, Chroma, OpenAI and `pd.read_csv` are oracles bundled in `Langchain`. An
    embeddings object, a vector store and a QA chain are represented by what they were
    built from. */
module CsvIngest {
  import opened Wrappers
  import opened Text
  import opened Frames

  type Bytes = seq<bv8>

  const MaxRetries := 3
  const ChunkCap := 50
  const RetrieverK := 3
  const PieceSep := " | "
  const UploadDir := "data/uploads/"
  const NotInitialized := "RAG system not initialized. Please upload data and set OpenAI key."
  const QueryErrorPrefix := "Error processing query: "

  /** The foreign calls, as functions of their inputs. */
  datatype Langchain = Langchain(
    makeEmbeddings: string -> bool,              // OpenAIEmbeddings(api_key); false: it raised
    embedTest: string -> bool,                   // embed_query("test") with that key; false: it raised
    readCsv: Bytes -> Option<Frame>,             // pd.read_csv of the saved bytes; None: it raised
    split: string -> Option<seq<string>>,        // RecursiveCharacterTextSplitter(500, 50).split_text; None: it raised
    fromTexts: (string, seq<string>, nat) -> bool,  // Chroma.from_texts(key, texts) on attempt n; false: it raised
    makeChain: Option<string> -> bool,           // OpenAI(api_key) and RetrievalQA.from_chain_type; false: it raised
    run: (Chain, string) -> Result<string>)      // qa_chain.run(question)

  /** A RetrievalQA chain: the key its LLM was built with, the texts of its store and the
      retriever's `k`. */
  datatype Chain = Chain(apiKey: Option<string>, store: seq<string>, k: nat)

  // ---------------------------------------------------------------- row flattening

  /** The piece a cell contributes: `col: value` with the value stripped, or nothing for a
      NaN cell or one whose text is blank. */
  function Piece(col: string, v: Value): Option<string> {
    if !v.isNa && Strip(v.text) != "" then Some(col + ": " + Strip(v.text)) else None
  }

  /** The values `f` keeps over `xs`, in order: how both `text_parts` (over the cells of a
      row) and `documents` (over the rows) are built. */
  function Kept<C>(xs: seq<C>, f: C -> Option<string>): (r: seq<string>)
    ensures |r| <= |xs|
  {
    if xs == [] then []
    else
      var x := xs[|xs| - 1];
      Kept(xs[..|xs| - 1], f) + (if f(x).Some? then [f(x).value] else [])
  }

  /** Extending the input by one element extends the kept values by what `f` gives it. */
  lemma KeptSnoc<C>(xs: seq<C>, f: C -> Option<string>, i: nat)
    requires i < |xs|
    ensures Kept(xs[..i + 1], f) == Kept(xs[..i], f) + (if f(xs[i]).Some? then [f(xs[i]).value] else [])
  {
    assert xs[..i + 1][..i] == xs[..i];
  }

  /** Nothing is kept exactly when `f` keeps no element. */
  lemma {:induction false} KeptEmpty<C>(xs: seq<C>, f: C -> Option<string>)
    ensures Kept(xs, f) == [] <==> forall i :: 0 <= i < |xs| ==> f(xs[i]).None?
  {
    if xs != [] {
      var init := xs[..|xs| - 1];
      KeptEmpty(init, f);
      assert forall i :: 0 <= i < |init| ==> init[i] == xs[i];
    }
  }

  /** Every kept value is what `f` gave some element. */
  lemma {:induction false} KeptFrom<C>(xs: seq<C>, f: C -> Option<string>)
    ensures forall p :: p in Kept(xs, f) ==> exists i :: 0 <= i < |xs| && f(xs[i]) == Some(p)
  {
    if xs != [] {
      var init := xs[..|xs| - 1];
      KeptFrom(init, f);
      forall p | p in Kept(xs, f) ensures exists i :: 0 <= i < |xs| && f(xs[i]) == Some(p) {
        if p in Kept(init, f) {
          var i :| 0 <= i < |init| && f(init[i]) == Some(p);
          assert init[i] == xs[i];
        } else {
          assert f(xs[|xs| - 1]) == Some(p);
        }
      }
    }
  }

  /** Every value `f` gives is kept. */
  lemma {:induction false} KeptHas<C>(xs: seq<C>, f: C -> Option<string>, i: nat)
    requires i < |xs| && f(xs[i]).Some?
    ensures f(xs[i]).value in Kept(xs, f)
  {
    var init := xs[..|xs| - 1];
    if i < |init| {
      assert init[i] == xs[i];
      KeptHas(init, f, i);
    }
  }

  function CellPiece(cell: (string, Value)): Option<string> {
    Piece(cell.0, cell.1)
  }

  /** The list `text_parts` for a row, built cell by cell in column order. */
  function RowPieces(row: Row): (pieces: seq<string>)
    ensures |pieces| <= |row|
  {
    Kept(row, CellPiece)
  }

  /** A row yields no piece exactly when every cell is NaN or blank. */
  lemma RowPiecesEmpty(row: Row)
    ensures RowPieces(row) == [] <==> forall i :: 0 <= i < |row| ==> Piece(row[i].0, row[i].1).None?
  {
    KeptEmpty(row, CellPiece);
  }

  /** Every piece is a surviving cell's `col: stripped value`. */
  lemma PiecesComeFromCells(row: Row)
    ensures forall p :: p in RowPieces(row) ==>
              exists i :: 0 <= i < |row| && Piece(row[i].0, row[i].1) == Some(p)
  {
    KeptFrom(row, CellPiece);
    forall p | p in RowPieces(row) ensures exists i :: 0 <= i < |row| && Piece(row[i].0, row[i].1) == Some(p) {
      var i :| 0 <= i < |row| && CellPiece(row[i]) == Some(p);
    }
  }

  /** Every surviving cell gives a piece. */
  lemma CellGivesPiece(row: Row, i: nat)
    requires i < |row| && Piece(row[i].0, row[i].1).Some?
    ensures Piece(row[i].0, row[i].1).value in RowPieces(row)
  {
    KeptHas(row, CellPiece, i);
  }

  /** No piece is blank: each has the ':' that follows its column name. */
  lemma PieceNotBlank(col: string, v: Value)
    requires Piece(col, v).Some?
    ensures !AllSpace(Piece(col, v).value)
  {
    assert Piece(col, v).value[|col|] == ':';
  }

  /** The pieces of a row joined by `" | "`: the text of the row. */
  function RowText(row: Row): string {
    Join(RowPieces(row), PieceSep)
  }

  /** The loop over `row.items()`. */
  method FlattenRow(row: Row) returns (textParts: seq<string>)
    ensures textParts == RowPieces(row)
  {
    textParts := [];
    var i := 0;
    while i < |row|
      invariant 0 <= i <= |row|
      invariant textParts == RowPieces(row[..i])
    {
      var col, val := row[i].0, row[i].1;
      KeptSnoc(row, CellPiece, i);
      if !val.isNa && Strip(val.text) != "" {
        textParts := textParts + [col + ": " + Strip(val.text)];
      }
      i := i + 1;
    }
    assert row[..i] == row;
  }

  /** The document of a row: its text, or nothing when it has no piece. */
  function RowDocument(row: Row): Option<string> {
    if RowPieces(row) != [] then Some(RowText(row)) else None
  }

  /** The list `documents`: one text per row that has a piece, in row order. */
  function CsvDocuments(rows: seq<Row>): (docs: seq<string>)
    ensures |docs| <= |rows|
  {
    Kept(rows, RowDocument)
  }

  /** No document results exactly when no row has a surviving cell. */
  lemma NoDocumentsIff(rows: seq<Row>)
    ensures CsvDocuments(rows) == [] <==> forall i :: 0 <= i < |rows| ==> RowPieces(rows[i]) == []
  {
    KeptEmpty(rows, RowDocument);
  }

  /** The row loop of `process_csv`. */
  method FlattenRows(df: Frame) returns (documents: seq<string>)
    ensures documents == CsvDocuments(df.rows)
  {
    documents := [];
    var r := 0;
    while r < |df.rows|
      invariant 0 <= r <= |df.rows|
      invariant documents == CsvDocuments(df.rows[..r])
    {
      KeptSnoc(df.rows, RowDocument, r);
      var textParts := FlattenRow(df.rows[r]);
      if textParts != [] {
        var text := Join(textParts, PieceSep);
        documents := documents + [text];
      }
      r := r + 1;
    }
    assert df.rows[..r] == df.rows;
  }

  lemma JoinStartsWithFirst(parts: seq<string>, sep: string)
    requires parts != []
    ensures StartsWith(Join(parts, sep), parts[0])
  {
    if |parts| > 1 {
      assert (parts[0] + sep + Join(parts[1..], sep))[..|parts[0]|] == parts[0];
    }
  }

  /** The text of a row with a piece is not blank, since its first piece is not. */
  lemma RowTextNotBlank(row: Row)
    requires RowPieces(row) != []
    ensures !AllSpace(RowText(row))
  {
    var pieces := RowPieces(row);
    PiecesComeFromCells(row);
    assert pieces[0] in pieces;
    var i :| 0 <= i < |row| && Piece(row[i].0, row[i].1) == Some(pieces[0]);
    PieceNotBlank(row[i].0, row[i].1);
    JoinStartsWithFirst(pieces, PieceSep);
    var k :| 0 <= k < |pieces[0]| && !IsSpace(pieces[0][k]);
    assert RowText(row)[k] == pieces[0][k];
  }

  /** Every document survives the `doc.strip()` check of the split loop. */
  lemma DocumentsNotBlank(rows: seq<Row>)
    ensures forall d :: d in CsvDocuments(rows) ==> Strip(d) != ""
  {
    KeptFrom(rows, RowDocument);
    forall d | d in CsvDocuments(rows) ensures Strip(d) != "" {
      var i :| 0 <= i < |rows| && RowDocument(rows[i]) == Some(d);
      RowTextNotBlank(rows[i]);
    }
  }

  /** The list `split_docs`: the splitter's chunks of every non-blank document, in order;
      None when the splitter raises on one of them. */
  function SplitAll(lc: Langchain, docs: seq<string>): Option<seq<string>> {
    if docs == [] then Some([])
    else
      var init := SplitAll(lc, docs[..|docs| - 1]);
      var last := docs[|docs| - 1];
      if init.None? then None
      else if Strip(last) == "" then init
      else if lc.split(last).None? then None
      else Some(init.value + lc.split(last).value)
  }

  /** Once the splitter has raised on a prefix, the whole split raises. */
  lemma {:induction false} SplitAllFailsOnward(lc: Langchain, docs: seq<string>, i: nat)
    requires i <= |docs| && SplitAll(lc, docs[..i]).None?
    ensures SplitAll(lc, docs).None?
    decreases |docs| - i
  {
    if i < |docs| {
      assert docs[..i + 1][..i] == docs[..i];
      SplitAllFailsOnward(lc, docs, i + 1);
    } else {
      assert docs[..i] == docs;
    }
  }

  /** The split loop of `process_csv`; an exception from the splitter leaves the loop. */
  method SplitDocuments(lc: Langchain, documents: seq<string>) returns (splitDocs: Option<seq<string>>)
    ensures splitDocs == SplitAll(lc, documents)
  {
    var acc := [];
    var i := 0;
    while i < |documents|
      invariant 0 <= i <= |documents|
      invariant SplitAll(lc, documents[..i]) == Some(acc)
    {
      assert documents[..i + 1][..i] == documents[..i];
      var doc := documents[i];
      if Strip(doc) != "" {
        var chunks := lc.split(doc);
        if chunks.None? {
          SplitAllFailsOnward(lc, documents, i + 1);
          return None;
        }
        acc := acc + chunks.value;
      }
      i := i + 1;
    }
    assert documents[..i] == documents;
    splitDocs := Some(acc);
  }

  // ---------------------------------------------------------------- store retry

  /** The first attempt, from `attempt` on and below `MaxRetries`, at which the store is built. */
  function FirstSuccess(lc: Langchain, key: string, texts: seq<string>, attempt: nat): (r: Option<nat>)
    ensures r.Some? ==> attempt <= r.value < MaxRetries && lc.fromTexts(key, texts, r.value)
    ensures r.Some? ==> forall j :: attempt <= j < r.value ==> !lc.fromTexts(key, texts, j)
    ensures r.None? <==> forall j :: attempt <= j < MaxRetries ==> !lc.fromTexts(key, texts, j)
    decreases MaxRetries - attempt
  {
    if attempt >= MaxRetries then None
    else if lc.fromTexts(key, texts, attempt) then Some(attempt)
    else FirstSuccess(lc, key, texts, attempt + 1)
  }

  /** The `for attempt in range(max_retries)` loop: it stops at the first success and gives
      up after the third failure. */
  method CreateStore(lc: Langchain, key: string, texts: seq<string>) returns (stored: bool, attempts: nat)
    ensures stored <==> FirstSuccess(lc, key, texts, 0).Some?
    ensures stored ==> attempts == FirstSuccess(lc, key, texts, 0).value + 1
    ensures !stored ==> attempts == MaxRetries
    ensures 1 <= attempts <= MaxRetries
  {
    var attempt := 0;
    while true
      invariant 0 <= attempt < MaxRetries
      invariant FirstSuccess(lc, key, texts, 0) == FirstSuccess(lc, key, texts, attempt)
      decreases MaxRetries - attempt
    {
      if lc.fromTexts(key, texts, attempt) {
        return true, attempt + 1;
      }
      if attempt == MaxRetries - 1 {
        return false, MaxRetries;
      }
      attempt := attempt + 1;
    }
  }

  /** `split_docs[:50]`. */
  function FirstChunks(chunks: seq<string>): (r: seq<string>)
    ensures |r| <= ChunkCap && r <= chunks
    ensures |r| == if |chunks| <= ChunkCap then |chunks| else ChunkCap
    ensures |chunks| <= ChunkCap ==> r == chunks
    ensures chunks != [] ==> r != []
  {
    if |chunks| <= ChunkCap then chunks else chunks[..ChunkCap]
  }

  // ---------------------------------------------------------------- process_csv

  /** Where `process_csv` stops. `stored` is what the vector store was built from. */
  datatype Ingest =
    | NoEmbeddings | ReadFailed | EmptyFrame | NoDocuments | SplitFailed | NoChunks | StoreFailed
    | ChainFailed(stored: seq<string>) | Ready(stored: seq<string>)

  /** The guard chain of `process_csv(path)`, given the key of the embeddings object (None
      when it is unset), the saved files and the key in the module global. */
  function Ingestion(lc: Langchain, embeddings: Option<string>, files: map<string, Bytes>, path: string,
                     globalKey: Option<string>): (r: Ingest)
    ensures r == NoEmbeddings <==> embeddings.None?
    ensures r == ReadFailed <==> embeddings.Some? && (path !in files || lc.readCsv(files[path]).None?)
    ensures (r.ChainFailed? || r.Ready?) ==>
              embeddings.Some? && path in files && lc.readCsv(files[path]).Some? &&
              !Empty(lc.readCsv(files[path]).value) && CsvDocuments(lc.readCsv(files[path]).value.rows) != [] &&
              SplitAll(lc, CsvDocuments(lc.readCsv(files[path]).value.rows)).Some?
    ensures r.Ready? ==> lc.makeChain(globalKey)
  {
    if embeddings.None? then NoEmbeddings
    else if path !in files || lc.readCsv(files[path]).None? then ReadFailed
    else IngestFrame(lc, embeddings.value, lc.readCsv(files[path]).value, globalKey)
  }

  /** The guards after the frame is read. */
  function IngestFrame(lc: Langchain, key: string, df: Frame, globalKey: Option<string>): Ingest {
    if Empty(df) then EmptyFrame
    else
      var documents := CsvDocuments(df.rows);
      if documents == [] then NoDocuments
      else match SplitAll(lc, documents)
        case None => SplitFailed
        case Some(chunks) => IngestChunks(lc, key, chunks, globalKey)
  }

  /** The guards after the documents are split. */
  function IngestChunks(lc: Langchain, key: string, chunks: seq<string>, globalKey: Option<string>): Ingest {
    if chunks == [] then NoChunks
    else
      var texts := FirstChunks(chunks);
      if FirstSuccess(lc, key, texts, 0).None? then StoreFailed
      else if !lc.makeChain(globalKey) then ChainFailed(texts)
      else Ready(texts)
  }

  /** Whenever a store is built it is built from exactly `split_docs[:50]`: the first
      min(n, 50) chunks of the documents. */
  lemma IngestStoresFirstChunks(lc: Langchain, embeddings: Option<string>, files: map<string, Bytes>,
                                path: string, globalKey: Option<string>)
    requires Ingestion(lc, embeddings, files, path, globalKey).ChainFailed? ||
             Ingestion(lc, embeddings, files, path, globalKey).Ready?
    ensures var df := lc.readCsv(files[path]).value;
            var stored := Ingestion(lc, embeddings, files, path, globalKey).stored;
            SplitAll(lc, CsvDocuments(df.rows)).Some? &&
            0 < |stored| <= ChunkCap && stored <= SplitAll(lc, CsvDocuments(df.rows)).value &&
            stored == FirstChunks(SplitAll(lc, CsvDocuments(df.rows)).value) &&
            |stored| == (if |SplitAll(lc, CsvDocuments(df.rows)).value| <= ChunkCap
                         then |SplitAll(lc, CsvDocuments(df.rows)).value| else ChunkCap) &&
            FirstSuccess(lc, embeddings.value, stored, 0).Some?
  {
    var df := lc.readCsv(files[path]).value;
    var chunks := SplitAll(lc, CsvDocuments(df.rows)).value;
    assert Ingestion(lc, embeddings, files, path, globalKey) == IngestChunks(lc, embeddings.value, chunks, globalKey);
    ChunksStored(lc, embeddings.value, chunks, globalKey);
  }

  /** A store built from the chunks is built from exactly their first min(n, 50). */
  lemma ChunksStored(lc: Langchain, key: string, chunks: seq<string>, globalKey: Option<string>)
    requires IngestChunks(lc, key, chunks, globalKey).ChainFailed? || IngestChunks(lc, key, chunks, globalKey).Ready?
    ensures var stored := IngestChunks(lc, key, chunks, globalKey).stored;
            0 < |stored| <= ChunkCap && stored <= chunks && FirstSuccess(lc, key, stored, 0).Some? &&
            stored == FirstChunks(chunks) &&
            |stored| == (if |chunks| <= ChunkCap then |chunks| else ChunkCap)
  {
  }

  /** Past the frame and document guards, `process_csv` fails on the split exactly when the
      splitter raises on one of the documents. */
  lemma IngestSplitFails(lc: Langchain, embeddings: Option<string>, files: map<string, Bytes>,
                         path: string, globalKey: Option<string>)
    requires embeddings.Some? && path in files && lc.readCsv(files[path]).Some?
    requires !Empty(lc.readCsv(files[path]).value) && CsvDocuments(lc.readCsv(files[path]).value.rows) != []
    ensures Ingestion(lc, embeddings, files, path, globalKey) == SplitFailed <==>
              exists i :: 0 <= i < |CsvDocuments(lc.readCsv(files[path]).value.rows)| &&
                          lc.split(CsvDocuments(lc.readCsv(files[path]).value.rows)[i]).None?
  {
    var df := lc.readCsv(files[path]).value;
    var docs := CsvDocuments(df.rows);
    assert Ingestion(lc, embeddings, files, path, globalKey) == IngestFrame(lc, embeddings.value, df, globalKey);
    DocumentsNotBlank(df.rows);
    SplitAllNonBlank(lc, docs);
    FlatSplitFails(lc, docs);
    SplitFailedIff(lc, embeddings.value, df, globalKey);
  }

  lemma SplitFailedIff(lc: Langchain, key: string, df: Frame, globalKey: Option<string>)
    requires !Empty(df) && CsvDocuments(df.rows) != []
    ensures IngestFrame(lc, key, df, globalKey) == SplitFailed <==> SplitAll(lc, CsvDocuments(df.rows)).None?
  {
    var docs := CsvDocuments(df.rows);
    if SplitAll(lc, docs).Some? {
      var chunks := SplitAll(lc, docs).value;
      assert IngestFrame(lc, key, df, globalKey) == IngestChunks(lc, key, chunks, globalKey);
    }
  }

  /** A frame whose every cell is NaN or blank yields no document and process_csv fails. */
  lemma IngestBlankRows(lc: Langchain, embeddings: Option<string>, files: map<string, Bytes>,
                        path: string, globalKey: Option<string>)
    requires embeddings.Some? && path in files && lc.readCsv(files[path]).Some?
    requires var df := lc.readCsv(files[path]).value;
             !Empty(df) && forall i :: 0 <= i < |df.rows| ==> RowPieces(df.rows[i]) == []
    ensures Ingestion(lc, embeddings, files, path, globalKey) == NoDocuments
  {
    NoDocumentsIff(lc.readCsv(files[path]).value.rows);
  }

  /** Since no document is blank, no chunk list is empty unless the splitter returns nothing
      for every document. */
  lemma IngestSplitsEveryDocument(lc: Langchain, rows: seq<Row>)
    ensures SplitAll(lc, CsvDocuments(rows)) == FlatSplit(lc, CsvDocuments(rows))
  {
    DocumentsNotBlank(rows);
    SplitAllNonBlank(lc, CsvDocuments(rows));
  }

  /** `lc.split` applied to every document, concatenated; None when it raises on one. */
  function FlatSplit(lc: Langchain, docs: seq<string>): Option<seq<string>> {
    if docs == [] then Some([])
    else
      var init := FlatSplit(lc, docs[..|docs| - 1]);
      var last := lc.split(docs[|docs| - 1]);
      if init.None? || last.None? then None else Some(init.value + last.value)
  }

  /** The plain split raises exactly when the splitter raises on some document. */
  lemma {:induction false} FlatSplitFails(lc: Langchain, docs: seq<string>)
    ensures FlatSplit(lc, docs).None? <==> exists i :: 0 <= i < |docs| && lc.split(docs[i]).None?
  {
    if docs != [] {
      var init := docs[..|docs| - 1];
      FlatSplitFails(lc, init);
      if FlatSplit(lc, init).None? {
        var i :| 0 <= i < |init| && lc.split(init[i]).None?;
        assert docs[i] == init[i];
      }
      if exists i :: 0 <= i < |docs| && lc.split(docs[i]).None? {
        var i :| 0 <= i < |docs| && lc.split(docs[i]).None?;
        if i < |init| {
          assert init[i] == docs[i];
        }
      }
    }
  }

  lemma {:induction false} SplitAllNonBlank(lc: Langchain, docs: seq<string>)
    requires forall d :: d in docs ==> Strip(d) != ""
    ensures SplitAll(lc, docs) == FlatSplit(lc, docs)
  {
    if docs != [] {
      var init := docs[..|docs| - 1];
      assert forall d :: d in init ==> d in docs;
      assert docs[|docs| - 1] in docs;
      SplitAllNonBlank(lc, init);
    }
  }

  // ---------------------------------------------------------------- state

  /** The module state of fix_csv_processing.py outside the RAG system: the global
      `openai_api_key` and the files saved under data/uploads. */
  class Host {
    var openaiApiKey: Option<string>
    var files: map<string, Bytes>

    constructor(files: map<string, Bytes>)
      ensures openaiApiKey == None && this.files == files
    {
      openaiApiKey := None;
      this.files := files;
    }
  }

  /** `RAGSystem`. */
  class RagSystem {
    var embeddings: Option<string>
    var vectorStore: Option<seq<string>>
    var qaChain: Option<Chain>

    constructor()
      ensures embeddings == None && vectorStore == None && qaChain == None
    {
      embeddings, vectorStore, qaChain := None, None, None;
    }

    /** `set_openai_key`: the global is set first, so it stays set when the embeddings cannot
        be built; the embeddings stay set when only their test call fails. */
    method SetOpenaiKey(h: Host, lc: Langchain, apiKey: string) returns (ok: bool)
      modifies this, h
      ensures h.openaiApiKey == Some(apiKey) && h.files == old(h.files)
      ensures embeddings == if lc.makeEmbeddings(apiKey) then Some(apiKey) else old(embeddings)
      ensures vectorStore == old(vectorStore) && qaChain == old(qaChain)
      ensures ok <==> lc.makeEmbeddings(apiKey) && lc.embedTest(apiKey)
    {
      h.openaiApiKey := Some(apiKey);
      if !lc.makeEmbeddings(apiKey) {
        return false;
      }
      embeddings := Some(apiKey);
      ok := lc.embedTest(apiKey);
    }

    /** `process_csv(path)`: True only when the store and the chain were both built. */
    method ProcessCsv(h: Host, lc: Langchain, path: string) returns (ok: bool, outcome: Ingest)
      modifies this
      ensures outcome == Ingestion(lc, old(embeddings), h.files, path, h.openaiApiKey)
      ensures ok <==> outcome.Ready?
      ensures embeddings == old(embeddings)
      ensures vectorStore == if outcome.ChainFailed? || outcome.Ready? then Some(outcome.stored) else old(vectorStore)
      ensures qaChain == if outcome.Ready? then Some(Chain(h.openaiApiKey, outcome.stored, RetrieverK)) else old(qaChain)
    {
      if embeddings.None? {
        return false, NoEmbeddings;
      }
      if path !in h.files || lc.readCsv(h.files[path]).None? {
        return false, ReadFailed;
      }
      outcome := ProcessFrame(lc, embeddings.value, lc.readCsv(h.files[path]).value, h.openaiApiKey);
      if outcome.ChainFailed? || outcome.Ready? {
        vectorStore := Some(outcome.stored);
      }
      if outcome.Ready? {
        qaChain := Some(Chain(h.openaiApiKey, outcome.stored, RetrieverK));
      }
      ok := outcome.Ready?;
    }
  }

  /** The part of `process_csv` after the frame is read, up to the document split. */
  method ProcessFrame(lc: Langchain, key: string, df: Frame, globalKey: Option<string>) returns (outcome: Ingest)
    ensures outcome == IngestFrame(lc, key, df, globalKey)
  {
    if Empty(df) {
      return EmptyFrame;
    }
    var documents := FlattenRows(df);
    if documents == [] {
      return NoDocuments;
    }
    var splitDocs := SplitDocuments(lc, documents);
    if splitDocs.None? {
      return SplitFailed;
    }
    outcome := StoreChunks(lc, key, splitDocs.value, globalKey);
  }

  /** The part of `process_csv` that builds the store and the chain from the chunks. */
  method StoreChunks(lc: Langchain, key: string, splitDocs: seq<string>, globalKey: Option<string>)
    returns (outcome: Ingest)
    ensures outcome == IngestChunks(lc, key, splitDocs, globalKey)
  {
    if splitDocs == [] {
      return NoChunks;
    }
    var texts := FirstChunks(splitDocs);
    var stored, attempts := CreateStore(lc, key, texts);
    if !stored {
      return StoreFailed;
    }
    if !lc.makeChain(globalKey) {
      return ChainFailed(texts);
    }
    return Ready(texts);
  }

  /** `RAGSystem.query`. */
  function Answer(lc: Langchain, chain: Option<Chain>, question: string): (r: string)
    ensures chain.None? ==> r == NotInitialized
    ensures chain.Some? && lc.run(chain.value, question).Err? ==>
              StartsWith(r, QueryErrorPrefix) && r[|QueryErrorPrefix|..] == lc.run(chain.value, question).msg
    ensures chain.Some? && lc.run(chain.value, question).Ok? ==> r == lc.run(chain.value, question).value
  {
    if chain.None? then NotInitialized
    else match lc.run(chain.value, question)
      case Ok(a) => a
      case Err(e) => QueryErrorPrefix + e
  }

  // ---------------------------------------------------------------- endpoints

  /** The JSON bodies of the endpoints. */
  datatype Reply = Success(message: string, filePath: Option<string>) | Failure(message: string)

  const InvalidKeyFormat := "Invalid OpenAI API key format"
  const KeySet := "OpenAI API key set successfully"
  const KeyFailed := "Failed to set OpenAI API key - check logs"
  const NotCsv := "Please upload a CSV file"
  const KeyFirst := "Please set your OpenAI API key first"
  const ProcessFailed := "Failed to process CSV. Check API logs for details."
  const UploadErrorPrefix := "Error uploading/processing CSV: "
  const NoFilename := "'NoneType' object has no attribute 'endswith'"

  /** The format check of `/api/set-openai-key`. */
  predicate KeyFormatOk(apiKey: string) {
    apiKey != "" && StartsWith(apiKey, "sk-")
  }

  /** `/api/set-openai-key`: a malformed key is refused before the RAG system is touched. */
  method SetOpenaiKeyEndpoint(h: Host, rs: RagSystem, lc: Langchain, apiKey: string) returns (reply: Reply)
    modifies h, rs
    ensures !KeyFormatOk(apiKey) ==>
              reply == Failure(InvalidKeyFormat) && h.openaiApiKey == old(h.openaiApiKey) &&
              rs.embeddings == old(rs.embeddings)
    ensures KeyFormatOk(apiKey) ==>
              h.openaiApiKey == Some(apiKey) &&
              rs.embeddings == (if lc.makeEmbeddings(apiKey) then Some(apiKey) else old(rs.embeddings))
    ensures KeyFormatOk(apiKey) ==>
              reply == if lc.makeEmbeddings(apiKey) && lc.embedTest(apiKey) then Success(KeySet, None) else Failure(KeyFailed)
    ensures h.files == old(h.files) && rs.vectorStore == old(rs.vectorStore) && rs.qaChain == old(rs.qaChain)
  {
    if apiKey == "" || !StartsWith(apiKey, "sk-") {
      return Failure(InvalidKeyFormat);
    }
    var ok := rs.SetOpenaiKey(h, lc, apiKey);
    reply := if ok then Success(KeySet, None) else Failure(KeyFailed);
  }

  /** `/api/upload-csv`: a missing name raises inside the `try` and is reported; a name
      without the .csv suffix is refused; otherwise the bytes are saved under data/uploads
      and only then is the key checked. */
  method UploadCsv(h: Host, rs: RagSystem, lc: Langchain, filename: Option<string>, content: Bytes)
    returns (reply: Reply)
    modifies h, rs
    ensures filename.None? ==>
              reply == Failure(UploadErrorPrefix + NoFilename) && h.files == old(h.files) &&
              rs.vectorStore == old(rs.vectorStore) && rs.qaChain == old(rs.qaChain)
    ensures filename.Some? && !EndsWith(filename.value, ".csv") ==>
              reply == Failure(NotCsv) && h.files == old(h.files) &&
              rs.vectorStore == old(rs.vectorStore) && rs.qaChain == old(rs.qaChain)
    ensures filename.Some? && EndsWith(filename.value, ".csv") ==>
              h.files == old(h.files)[UploadDir + filename.value := content]
    ensures filename.Some? && EndsWith(filename.value, ".csv") && !Truthy(h.openaiApiKey) ==>
              reply == Failure(KeyFirst) && rs.vectorStore == old(rs.vectorStore) && rs.qaChain == old(rs.qaChain)
    ensures filename.Some? && EndsWith(filename.value, ".csv") && Truthy(h.openaiApiKey) ==>
              var path := UploadDir + filename.value;
              var outcome := Ingestion(lc, old(rs.embeddings), h.files, path, h.openaiApiKey);
              (reply == if outcome.Ready?
                        then Success("CSV file '" + filename.value + "' processed successfully", Some(path))
                        else Failure(ProcessFailed)) &&
              rs.vectorStore == (if outcome.ChainFailed? || outcome.Ready? then Some(outcome.stored)
                                 else old(rs.vectorStore)) &&
              rs.qaChain == (if outcome.Ready? then Some(Chain(h.openaiApiKey, outcome.stored, RetrieverK))
                             else old(rs.qaChain))
    ensures h.openaiApiKey == old(h.openaiApiKey) && rs.embeddings == old(rs.embeddings)
  {
    if filename.None? {
      return Failure(UploadErrorPrefix + NoFilename);
    }
    var name := filename.value;
    if !EndsWith(name, ".csv") {
      return Failure(NotCsv);
    }
    var path := UploadDir + name;
    h.files := h.files[path := content];
    if !Truthy(h.openaiApiKey) {
      return Failure(KeyFirst);
    }
    var ok, outcome := rs.ProcessCsv(h, lc, path);
    if ok {
      reply := Success("CSV file '" + name + "' processed successfully", Some(path));
    } else {
      reply := Failure(ProcessFailed);
    }
  }

  /** The upload that succeeds builds its chain over chunks of the bytes it just saved. */
  lemma UploadProcessesSavedBytes(lc: Langchain, embeddings: Option<string>, files: map<string, Bytes>,
                                  name: string, content: Bytes, key: Option<string>)
    requires Ingestion(lc, embeddings, files[UploadDir + name := content], UploadDir + name, key).Ready?
    ensures lc.readCsv(content).Some? && !Empty(lc.readCsv(content).value)
    ensures SplitAll(lc, CsvDocuments(lc.readCsv(content).value.rows)).Some?
    ensures Ingestion(lc, embeddings, files[UploadDir + name := content], UploadDir + name, key).stored ==
              FirstChunks(SplitAll(lc, CsvDocuments(lc.readCsv(content).value.rows)).value)
  {
    IngestStoresFirstChunks(lc, embeddings, files[UploadDir + name := content], UploadDir + name, key);
  }

  /** The three flags of `/api/status`: `openai_configured` tests the global against None
      (so an empty key counts), the others test the RAG system's fields. */
  function StatusFlags(h: Host, rs: RagSystem): (flags: (bool, bool, bool))
    reads h, rs
    ensures flags.0 <==> h.openaiApiKey.Some?
    ensures flags.1 <==> rs.vectorStore.Some?
    ensures flags.2 <==> rs.qaChain.Some?
  {
    (h.openaiApiKey.Some?, rs.vectorStore.Some?, rs.qaChain.Some?)
  }
}
