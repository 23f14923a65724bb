/** The FastAPI application of api/main.py: the global `rag_service` and
    `generation_status`, the background generation job, and the endpoints that guard on
    the RAG service, map upload errors and list datasets.

    The data generator and `pd.read_csv` are oracles; the RAG service is the model in
    module RagService. The await points of the job are run in sequence. */
module Api {
  import opened Wrappers
  import opened Text
  import opened Frames
  import opened RagService

  type Bytes = seq<bv8>

  const RagContextLimit := 4000
  const DataSourceColumn := "data_source"
  const FailedPrefix := "Generation failed: "
  const NoRagService := "RAG service not available"
  const NoApiKey := "No API key provided"
  const OnlyCsv := "Only CSV files are supported"
  const UploadDir := "data/uploads"
  const NoFilename := "'NoneType' object has no attribute 'endswith'"

  // ---------------------------------------------------------------- generation status

  /** The record counts of a completed job; the mean and sum of `contract_value` are
      floats and stay opaque. */
  datatype DatasetStats = DatasetStats(totalRecords: nat, baseRecords: nat, syntheticRecords: nat,
                                       avgContractValue: Value, totalValue: Value)

  datatype Completion = Completion(filepath: string, stats: DatasetStats)

  /** The dict held by `generation_status`; `completion` holds the keys only a completed
      status has. */
  datatype Status = Status(status: string, progress: int, message: string, completion: Option<Completion>)

  const Idle := Status("idle", 0, "", None)

  function Generating(progress: int, message: string): Status {
    Status("generating", progress, message, None)
  }

  function Failed(e: string): Status {
    Status("error", 0, FailedPrefix + e, None)
  }

  /** The data generator, as functions of its inputs; Err carries the text of what it raised. */
  datatype Generator = Generator(
    generate: (int, int) -> Result<Frame>,          // generate_complete_dataset(base, synthetic)
    save: (Frame, string) -> Result<string>,        // save_dataset(dataset, filename): the path
    valueTotals: Frame -> Result<(Value, Value)>)   // mean and sum of contract_value

  /** The `data_source` cell of a row, if it has one. */
  function SourceLabel(row: Row): Option<Value> {
    Lookup(ToDict(row), DataSourceColumn)
  }

  /** The number of rows whose `data_source` column holds the string `tag`. */
  function CountLabel(rows: seq<Row>, tag: string): (n: nat)
    ensures n <= |rows|
  {
    if rows == [] then 0
    else CountLabel(rows[..|rows| - 1], tag) + (if SourceLabel(rows[|rows| - 1]) == Some(Str(tag)) then 1 else 0)
  }

  /** No row is counted exactly when no row carries the tag. */
  lemma {:induction false} CountLabelZero(rows: seq<Row>, tag: string)
    ensures CountLabel(rows, tag) == 0 <==> forall i :: 0 <= i < |rows| ==> SourceLabel(rows[i]) != Some(Str(tag))
  {
    if rows != [] {
      var init := rows[..|rows| - 1];
      CountLabelZero(init, tag);
      assert forall i :: 0 <= i < |init| ==> init[i] == rows[i];
    }
  }

  /** The base and synthetic counts never exceed the total. */
  lemma {:induction false} BaseAndSyntheticWithinTotal(rows: seq<Row>)
    ensures CountLabel(rows, "base") + CountLabel(rows, "synthetic") <= |rows|
  {
    if rows != [] {
      BaseAndSyntheticWithinTotal(rows[..|rows| - 1]);
    }
  }

  /** The last status of a job whose dataset was generated and saved: the completion dict,
      unless building it raises (a missing `data_source` column is a KeyError). */
  function Finish(g: Generator, df: Frame, path: string): Status {
    if DataSourceColumn !in df.columns then Failed("'" + DataSourceColumn + "'")
    else match g.valueTotals(df)
      case Err(e) => Failed(e)
      case Ok(totals) =>
        Status("completed", 100, "Successfully generated " + NatToString(|df.rows|) + " records",
               Some(Completion(path, DatasetStats(|df.rows|, CountLabel(df.rows, "base"),
                                                  CountLabel(df.rows, "synthetic"), totals.0, totals.1))))
  }

  /** The statuses of a job up to saving the dataset, and the dataset with its path when
      neither generating nor saving raised. */
  datatype Prepared = Prepared(trace: seq<Status>, saved: Option<(Frame, string)>)

  function Prepare(g: Generator, baseSize: int, syntheticSize: int, datasetName: string): Prepared {
    var start := [Generating(10, "Starting data generation..."), Generating(30, "Generating base dataset...")];
    match g.generate(baseSize, syntheticSize)
    case Err(e) => Prepared(start + [Failed(e)], None)
    case Ok(df) =>
      var saving := start + [Generating(60, "Saving dataset...")];
      match g.save(df, datasetName + ".csv")
      case Err(e) => Prepared(saving + [Failed(e)], None)
      case Ok(path) => Prepared(saving, Some((df, path)))
  }

  /** Every value `generate_data_background` assigns to `generation_status`, in order. */
  function JobTrace(rag: Option<Service>, g: Generator, baseSize: int, syntheticSize: int, datasetName: string): seq<Status> {
    var p := Prepare(g, baseSize, syntheticSize, datasetName);
    if p.saved.None? then p.trace
    else
      p.trace + (if rag.Some? then [Generating(80, "Indexing in vector database...")] else []) +
      [Finish(g, p.saved.value.0, p.saved.value.1)]
  }

  /** The progress values of the stages before the last status. */
  function Stages(rag: Option<Service>): seq<int> {
    [10, 30, 60] + (if rag.Some? then [80] else [])
  }

  /** A job passes through the stages in their order, stops early only by failing, and ends
      completed or failed. */
  lemma JobTraceStages(rag: Option<Service>, g: Generator, baseSize: int, syntheticSize: int, datasetName: string)
    ensures var t := JobTrace(rag, g, baseSize, syntheticSize, datasetName);
            2 <= |t| - 1 <= |Stages(rag)| &&
            (forall i :: 0 <= i < |t| - 1 ==> t[i].status == "generating" && t[i].progress == Stages(rag)[i]) &&
            (t[|t| - 1].status == "completed" || t[|t| - 1].status == "error") &&
            (|t| - 1 < |Stages(rag)| ==> t[|t| - 1].status == "error")
  {
  }

  /** The progress strictly increases up to the last status, unless that is an error. */
  lemma JobProgressIncreasing(rag: Option<Service>, g: Generator, baseSize: int, syntheticSize: int, datasetName: string)
    ensures var t := JobTrace(rag, g, baseSize, syntheticSize, datasetName);
            forall i, j :: 0 <= i < j < |t| && t[j].status != "error" ==> t[i].progress < t[j].progress
  {
    var t := JobTrace(rag, g, baseSize, syntheticSize, datasetName);
    JobTraceStages(rag, g, baseSize, syntheticSize, datasetName);
    assert t[|t| - 1].status == "completed" ==> t[|t| - 1].progress == 100;
  }

  /** The job completes exactly when generating, saving and the statistics all succeed;
      then the status reports 100 and the dataset's own counts. */
  lemma JobCompleted(rag: Option<Service>, g: Generator, baseSize: int, syntheticSize: int, datasetName: string)
    ensures var t := JobTrace(rag, g, baseSize, syntheticSize, datasetName);
            var df := g.generate(baseSize, syntheticSize);
            (t[|t| - 1].status == "completed" <==>
               df.Ok? && g.save(df.value, datasetName + ".csv").Ok? &&
               DataSourceColumn in df.value.columns && g.valueTotals(df.value).Ok?) &&
            (t[|t| - 1].status == "completed" ==>
               var rows := df.value.rows;
               var c := t[|t| - 1].completion;
               t[|t| - 1].progress == 100 && c.Some? &&
               c.value.filepath == g.save(df.value, datasetName + ".csv").value &&
               c.value.stats.totalRecords == |rows| &&
               c.value.stats.baseRecords == CountLabel(rows, "base") &&
               c.value.stats.syntheticRecords == CountLabel(rows, "synthetic") &&
               t[|t| - 1].message == "Successfully generated " + NatToString(|rows|) + " records")
  {
  }

  /** A failed job reports progress 0 and the reason after "Generation failed: ". */
  lemma JobFailed(rag: Option<Service>, g: Generator, baseSize: int, syntheticSize: int, datasetName: string)
    ensures var t := JobTrace(rag, g, baseSize, syntheticSize, datasetName);
            t[|t| - 1].status == "error" ==>
              t[|t| - 1].progress == 0 && StartsWith(t[|t| - 1].message, FailedPrefix) &&
              t[|t| - 1].completion.None?
  {
    var t := JobTrace(rag, g, baseSize, syntheticSize, datasetName);
    if t[|t| - 1].status == "error" {
      var e := t[|t| - 1].message[|FailedPrefix|..];
      assert t[|t| - 1] == Failed(e);
    }
  }

  /** The index stage is reported exactly when there is a RAG service and the dataset was
      generated and saved. */
  lemma JobIndexStage(rag: Option<Service>, g: Generator, baseSize: int, syntheticSize: int, datasetName: string)
    ensures var t := JobTrace(rag, g, baseSize, syntheticSize, datasetName);
            var df := g.generate(baseSize, syntheticSize);
            (exists i :: 0 <= i < |t| && t[i].progress == 80) <==>
              rag.Some? && df.Ok? && g.save(df.value, datasetName + ".csv").Ok?
  {
    var t := JobTrace(rag, g, baseSize, syntheticSize, datasetName);
    JobTraceStages(rag, g, baseSize, syntheticSize, datasetName);
    var df := g.generate(baseSize, syntheticSize);
    if rag.Some? && df.Ok? && g.save(df.value, datasetName + ".csv").Ok? {
      assert t[3].progress == 80;
    }
  }

  /** The indexing the job runs: with a RAG service, once the dataset is saved. */
  function JobIndexing(rag: Option<Service>, b: Backends, g: Generator, baseSize: int, syntheticSize: int,
                       datasetName: string): Option<Indexing> {
    var p := Prepare(g, baseSize, syntheticSize, datasetName);
    if rag.Some? && p.saved.Some? then Some(IndexOutcome(rag.value, b, p.saved.value.0)) else None
  }

  // ---------------------------------------------------------------- endpoints

  /** An endpoint's answer: its JSON body, or the HTTPException it raises. */
  datatype Response<T> = Body(value: T) | HttpError(code: nat, detail: string)

  /** The `components` of `/health` that depend on the RAG service. */
  datatype HealthComponents = HealthComponents(vectorDb: string, openai: string)

  /** `/health`. A RAGService object is always truthy, so only None fails the test. */
  function Health(rag: Option<Service>): (h: HealthComponents)
    ensures h.vectorDb == "available" <==> rag.Some? && rag.value.hasQdrant
    ensures h.vectorDb == "not_available" <==> !(rag.Some? && rag.value.hasQdrant)
    ensures h.openai == "configured" <==> rag.Some? && rag.value.useOpenai
    ensures h.openai == "not_configured" <==> !(rag.Some? && rag.value.useOpenai)
  {
    HealthComponents(if rag.Some? && rag.value.hasQdrant then "available" else "not_available",
                     if rag.Some? && rag.value.useOpenai then "configured" else "not_configured")
  }

  /** The body of `/config/openai`. */
  datatype ConfigReply = Configured(openaiEnabled: bool) | ConfigError(message: string)

  /** After a key has been configured, `/health` reports OpenAI as configured. */
  lemma ConfiguredKeyShowsInHealth(apiKey: string, envKey: Option<string>, localModelLoads: bool, qdrantConnects: bool)
    requires apiKey != ""
    ensures Health(Some(NewService(Some(apiKey), envKey, localModelLoads, qdrantConnects))).openai == "configured"
  {
  }

  /** The body of `/rag/search`. */
  datatype SearchBody = SearchBody(query: string, results: seq<Record>, count: nat)

  /** `/rag/query`: 503 without a RAG service, else its answer with a 4000-character context. */
  function RagQueryEndpoint(rag: Option<Service>, b: Backends, question: string): (r: Response<RagAnswer>)
    ensures rag.None? <==> r == HttpError(503, NoRagService)
    ensures rag.Some? ==> r == Body(RagQueryOutcome(rag.value, b, question, RagContextLimit))
  {
    if rag.None? then HttpError(503, NoRagService)
    else Body(RagQueryOutcome(rag.value, b, question, RagContextLimit))
  }

  /** The context behind an answered `/rag/query` is at most 4003 characters long. */
  lemma RagQueryContextBounded(rag: Option<Service>, b: Backends, question: string)
    requires RagQueryEndpoint(rag, b, question).Body?
    requires RagQueryEndpoint(rag, b, question).value.info.Some?
    ensures RagQueryEndpoint(rag, b, question).value.info.value.contextLength <= RagContextLimit + 3
  {
    RagAnswered(rag.value, b, question, RagContextLimit);
  }

  /** `/rag/search`: 503 without a RAG service, else the results and their count. */
  function SemanticSearchEndpoint(rag: Option<Service>, b: Backends, question: string, maxResults: int): (r: Response<SearchBody>)
    ensures rag.None? <==> r == HttpError(503, NoRagService)
    ensures rag.Some? ==>
              r.Body? && r.value.query == question &&
              r.value.results == SearchResults(rag.value, b, question, maxResults) &&
              r.value.count == |r.value.results|
  {
    if rag.None? then HttpError(503, NoRagService)
    else
      var results := SearchResults(rag.value, b, question, maxResults);
      Body(SearchBody(question, results, |results|))
  }

  /** `/rag/stats`: an error dict, not an HTTP error, without a RAG service. The ensures are
      the promised dispatch to the service's statistics. */
  function RagStats(rag: Option<Service>, info: Result<CollectionInfo>): (r: Result<CollectionInfo>)
    ensures rag.None? ==> r == Err(NoRagService)
    ensures rag.Some? ==> r == CollectionStats(rag.value, info)
  {
    if rag.None? then Err(NoRagService) else CollectionStats(rag.value, info)
  }

  /** `os.path.join(directory, name)` for a non-empty directory without a trailing slash:
      an absolute `name` replaces the directory. */
  function JoinPath(directory: string, name: string): (p: string)
    ensures EndsWith(p, name)
  {
    if StartsWith(name, "/") then name
    else
      var p := directory + "/" + name;
      assert p[|p| - |name|..] == name;
      p
  }

  /** `str(400)`, the prefix the upload handler gives a re-raised 400 error. */
  lemma StatusCodeText400()
    ensures NatToString(400) == "400"
  {
  }

  /** The body of a successful `/data/upload`. */
  datatype UploadBody = UploadBody(filename: string, records: nat, columns: seq<string>)

  /** `/data/datasets`: the entries of the data directory that end in ".csv". */
  function CsvFiles(listing: seq<string>): seq<string> {
    if listing == [] then []
    else CsvFiles(listing[..|listing| - 1]) + (if EndsWith(listing[|listing| - 1], ".csv") then [listing[|listing| - 1]] else [])
  }

  /** A name is listed exactly when it is in the directory and ends in ".csv". */
  lemma {:induction false} CsvFilesMembership(listing: seq<string>)
    ensures forall x :: x in CsvFiles(listing) <==> x in listing && EndsWith(x, ".csv")
  {
    if listing != [] {
      var init := listing[..|listing| - 1];
      CsvFilesMembership(init);
      assert listing == init + [listing[|listing| - 1]];
    }
  }

  /** The listing keeps the directory's order. */
  lemma {:induction false} CsvFilesInOrder(listing: seq<string>)
    ensures IsSubsequence(CsvFiles(listing), listing)
  {
    if listing != [] {
      var init, last := listing[..|listing| - 1], listing[|listing| - 1];
      CsvFilesInOrder(init);
      assert init + [last] == listing;
      if EndsWith(last, ".csv") {
        assert CsvFiles(listing) == CsvFiles(init) + [last];
        SubsequenceSnoc(CsvFiles(init), init, last);
      } else {
        assert CsvFiles(listing) == CsvFiles(init);
        SubsequenceExtend(CsvFiles(init), init, last);
      }
    }
  }

  lemma {:induction false} SubsequenceSnoc(a: seq<string>, b: seq<string>, x: string)
    requires IsSubsequence(a, b)
    ensures IsSubsequence(a + [x], b + [x])
    decreases |b|
  {
    if a == [] {
      assert a + [x] == [x];
      SubsequenceOfSingle(b, x);
    } else if a[0] == b[0] {
      SubsequenceSnoc(a[1..], b[1..], x);
      assert (a + [x])[1..] == a[1..] + [x];
      assert (b + [x])[1..] == b[1..] + [x];
    } else {
      SubsequenceSnoc(a, b[1..], x);
      assert (b + [x])[1..] == b[1..] + [x];
    }
  }

  lemma {:induction false} SubsequenceOfSingle(b: seq<string>, x: string)
    ensures IsSubsequence([x], b + [x])
    decreases |b|
  {
    if b != [] && b[0] != x {
      SubsequenceOfSingle(b[1..], x);
      assert (b + [x])[1..] == b[1..] + [x];
    }
  }

  lemma {:induction false} SubsequenceExtend(a: seq<string>, b: seq<string>, x: string)
    requires IsSubsequence(a, b)
    ensures IsSubsequence(a, b + [x])
    decreases |b|
  {
    if a != [] {
      if a[0] == b[0] {
        SubsequenceExtend(a[1..], b[1..], x);
      } else {
        SubsequenceExtend(a, b[1..], x);
      }
      assert (b + [x])[1..] == b[1..] + [x];
    }
  }

  /** `/data/datasets`: the loop over `os.listdir("data")`, when the directory exists. */
  method ListDatasets(dirExists: bool, listing: seq<string>) returns (datasets: seq<string>, count: nat)
    ensures datasets == if dirExists then CsvFiles(listing) else []
    ensures count == |datasets|
  {
    datasets := [];
    if dirExists {
      var i := 0;
      while i < |listing|
        invariant 0 <= i <= |listing|
        invariant datasets == CsvFiles(listing[..i])
      {
        assert listing[..i + 1][..i] == listing[..i];
        var filename := listing[i];
        if EndsWith(filename, ".csv") {
          datasets := datasets + [filename];
        }
        i := i + 1;
      }
      assert listing[..i] == listing;
    }
    count := |datasets|;
  }

  // ---------------------------------------------------------------- the application

  /** The module globals of api/main.py and the files saved under data/uploads.
      `statusLog` records every value `generation_status` has held, the current one last. */
  class ApiServer {
    var ragService: Option<Service>
    var generationStatus: Status
    ghost var statusLog: seq<Status>
    var files: map<string, Bytes>

    ghost predicate Valid()
      reads this
    {
      statusLog != [] && generationStatus == statusLog[|statusLog| - 1]
    }

    /** Import time: no RAG service, idle status. */
    constructor(files: map<string, Bytes>)
      ensures Valid()
      ensures ragService == None && generationStatus == Idle && statusLog == [Idle] && this.files == files
    {
      ragService, generationStatus := None, Idle;
      statusLog := [Idle];
      this.files := files;
    }

    /** `startup_event`: a RAG service built without an explicit key. */
    method Startup(envKey: Option<string>, localModelLoads: bool, qdrantConnects: bool)
      modifies this
      ensures ragService == Some(NewService(None, envKey, localModelLoads, qdrantConnects))
      ensures generationStatus == old(generationStatus) && statusLog == old(statusLog) && files == old(files)
    {
      ragService := Some(NewService(None, envKey, localModelLoads, qdrantConnects));
    }

    /** `/config/openai`: a missing or empty key is refused and the RAG service kept; any
        other key replaces the service with one that uses OpenAI. */
    method ConfigureOpenai(apiKey: Option<string>, envKey: Option<string>, localModelLoads: bool, qdrantConnects: bool)
      returns (reply: ConfigReply)
      modifies this
      ensures !Truthy(apiKey) ==> reply == ConfigError(NoApiKey) && ragService == old(ragService)
      ensures Truthy(apiKey) ==>
                ragService == Some(NewService(apiKey, envKey, localModelLoads, qdrantConnects)) &&
                reply == Configured(true)
      ensures generationStatus == old(generationStatus) && statusLog == old(statusLog) && files == old(files)
    {
      if Truthy(apiKey) {
        var svc := NewService(apiKey, envKey, localModelLoads, qdrantConnects);
        ragService := Some(svc);
        return Configured(svc.useOpenai);
      }
      return ConfigError(NoApiKey);
    }

    method SetStatus(s: Status)
      modifies this
      ensures generationStatus == s && statusLog == old(statusLog) + [s]
      ensures ragService == old(ragService) && files == old(files)
    {
      generationStatus := s;
      statusLog := statusLog + [s];
    }

    /** The stages of `generate_data_background` up to saving the dataset. */
    method GenerateAndSave(g: Generator, baseSize: int, syntheticSize: int, datasetName: string)
      returns (saved: Option<(Frame, string)>)
      modifies this
      ensures statusLog == old(statusLog) + Prepare(g, baseSize, syntheticSize, datasetName).trace
      ensures saved == Prepare(g, baseSize, syntheticSize, datasetName).saved
      ensures generationStatus == statusLog[|statusLog| - 1]
      ensures ragService == old(ragService) && files == old(files)
    {
      SetStatus(Generating(10, "Starting data generation..."));
      SetStatus(Generating(30, "Generating base dataset..."));
      var dataset := g.generate(baseSize, syntheticSize);
      if dataset.Err? {
        SetStatus(Failed(dataset.msg));
        return None;
      }
      var df := dataset.value;
      SetStatus(Generating(60, "Saving dataset..."));
      var filepath := g.save(df, datasetName + ".csv");
      if filepath.Err? {
        SetStatus(Failed(filepath.msg));
        return None;
      }
      return Some((df, filepath.value));
    }

    /** `generate_data_background`: the statuses of `JobTrace` in turn, with the dataset
        indexed when there is a RAG service. */
    method GenerateDataBackground(g: Generator, b: Backends, baseSize: int, syntheticSize: int, datasetName: string)
      returns (indexing: Option<Indexing>)
      requires Valid()
      modifies this
      ensures Valid()
      ensures statusLog == old(statusLog) + JobTrace(old(ragService), g, baseSize, syntheticSize, datasetName)
      ensures indexing == JobIndexing(old(ragService), b, g, baseSize, syntheticSize, datasetName)
      ensures ragService == old(ragService) && files == old(files)
    {
      indexing := None;
      var saved := GenerateAndSave(g, baseSize, syntheticSize, datasetName);
      if saved.None? {
        return;
      }
      var (df, filepath) := saved.value;
      if ragService.Some? {
        SetStatus(Generating(80, "Indexing in vector database..."));
        var res, embedCalls, upserts := IndexContracts(ragService.value, b, df);
        indexing := Some(Indexing(res, embedCalls, upserts));
      }
      // building the completion dict raises on a missing column or a failed aggregate
      SetStatus(Finish(g, df, filepath));
    }

    /** `/data/upload`: every failure, the 400 for a name without ".csv" included, leaves
        as a 500 whose detail is the text of what was raised. */
    method UploadDataset(filename: Option<string>, content: Bytes, readCsv: Bytes -> Result<Frame>, b: Backends)
      returns (r: Response<UploadBody>, indexing: Option<Indexing>)
      modifies this
      ensures r.HttpError? ==> r.code == 500
      ensures filename.None? ==> r == HttpError(500, NoFilename) && files == old(files)
      ensures filename.Some? && !EndsWith(filename.value, ".csv") ==>
                r == HttpError(500, "400: " + OnlyCsv) && files == old(files)
      ensures filename.Some? && EndsWith(filename.value, ".csv") ==>
                files == old(files)[JoinPath(UploadDir, filename.value) := content]
      ensures filename.Some? && EndsWith(filename.value, ".csv") && readCsv(content).Err? ==>
                r == HttpError(500, readCsv(content).msg) && indexing.None?
      ensures filename.Some? && EndsWith(filename.value, ".csv") && readCsv(content).Ok? ==>
                var df := readCsv(content).value;
                r == Body(UploadBody(filename.value, |df.rows|, df.columns)) &&
                indexing == if ragService.Some? then Some(IndexOutcome(ragService.value, b, df)) else None
      ensures filename.None? || !EndsWith(filename.value, ".csv") ==> indexing.None?
      ensures ragService == old(ragService) && generationStatus == old(generationStatus) && statusLog == old(statusLog)
    {
      indexing := None;
      if filename.None? {
        return HttpError(500, NoFilename), None;
      }
      var name := filename.value;
      if !EndsWith(name, ".csv") {
        // the HTTPException(400) is caught by the handler and its text becomes the detail
        var e: Response<UploadBody> := HttpError(400, OnlyCsv);
        StatusCodeText400();
        return HttpError(500, NatToString(e.code) + ": " + e.detail), None;
      }
      var filepath := JoinPath(UploadDir, name);
      files := files[filepath := content];
      var df := readCsv(files[filepath]);
      if df.Err? {
        return HttpError(500, df.msg), None;
      }
      if ragService.Some? {
        var res, embedCalls, upserts := IndexContracts(ragService.value, b, df.value);
        indexing := Some(Indexing(res, embedCalls, upserts));
      }
      r := Body(UploadBody(name, |df.value.rows|, df.value.columns));
    }
  }
}
