# Laika Dynamics RAG system — a verified model of its core

Laika Dynamics RAG is a FastAPI back end. It answers questions about web-development
contracts by retrieval-augmented generation. It does this in four parts:

- Contract records are formatted into labelled text documents.
- The documents are embedded (OpenAI or a local sentence-transformer), in batches of 100,
  and stored with their metadata in a Qdrant collection.
- A question is answered from the five closest contracts. Their context is cut to a hard
  character limit and sent to a chat model, or summarised locally as a fallback.
- A background job generates a dataset and reports its progress through a global status
  record.

A second, simpler service ingests an uploaded CSV into a Chroma store behind a LangChain QA
chain. Two patch scripts rewrite the API source text.

This project models that core in Dafny:

| file | what it models |
|---|---|
| `rag_service.dfy` (module `RagService`) | the `RAGService` class of `api/rag_service.py` |
| `csv_ingest.dfy` (module `CsvIngest`) | the `RAGSystem` class and endpoints of `fix_csv_processing.py` |
| `api.dfy` (module `Api`) | the endpoints and the generation job of `api/main.py` |
| `hotfix_api.dfy` (module `HotfixApi`) | the marker splice of `hotfix_api.py` |
| `hotfix_issues.dfy` (module `HotfixIssues`) | the replace patches of `hotfix_issues.py` |

Three shared modules support them:

- `Wrappers`: `Option`, `Result`, and Python truthiness of an optional string.
- `Text`: Python's `str.find`, `replace`, `join`, `strip`, `startswith`/`endswith`, `str(int)` and slicing.
- `Frames`: a pandas value, with its `str()` text, `isna` and `isoformat`; a record (dict); a row (the column/value pairs in order); a frame.

External services are abstract oracles: functions of their inputs, bundled in a datatype (`Backends`, `Langchain`, `Generator`). They cover:

- the OpenAI embedding and chat calls, the local model, Qdrant;
- Chroma, the text splitter, the QA chain;
- `pd.read_csv`, the data generator.

Every oracle whose call can raise is partial: the exception is its answer `None`, `false` or `Err`, or, for Qdrant's `upsert`, `Some` of the error text.

Where the code changes state step by step, the model is imperative, and each method is proved equal to a specification function about which the lemmas are stated:

- the indexing loops over rows, embedding batches, points and upsert batches;
- the context loop of `rag_query`;
- the row-flattening, splitting and retry loops of `process_csv`;
- the listing loop of `list_datasets`;
- the `replace` steps of `fix_api_issues`.

The module globals are class fields:

- `RAGSystem` and the key global become the classes `CsvIngest.RagSystem` and `CsvIngest.Host`;
- `rag_service` and `generation_status` become fields of `Api.ApiServer`.

Each status the job sets is also appended to a ghost log, so the whole progression can be stated. The patch scripts are functions over a map from path to file text.

## Model

| member | source | states |
|---|---|---|
| RagService.NewService | api/rag_service.py:23-53 | OpenAI is used, with a client, exactly when the argument key or the environment key is non-empty; the local model and Qdrant flags are whether they loaded; the collection set-up that the constructor ends with (line 54) is `InitVectorStorage` of the new service, stated on its own and not joined to the constructor |
| RagService.InitVectorStorage | api/rag_service.py:56-79 | a collection is created exactly when Qdrant is present, listing succeeds and `web_contracts` is not listed; its size is 1536 with OpenAI and 384 otherwise |
| RagService.InitVectorStorageIdempotent | api/rag_service.py:63-68 | once the collection exists, initialising again creates nothing |
| RagService.GetEmbeddings | api/rag_service.py:81-98 | OpenAI's vectors when OpenAI and its client are set and the call succeeds; otherwise the local model's vectors, or the error its `encode` raises, which `get_embeddings` does not catch; otherwise the "No embedding model available" error |
| RagService.EmbeddingFailure | api/rag_service.py:83-98 | embedding fails exactly when OpenAI was not both enabled and successful, and the local model is missing or its `encode` raises |
| RagService.Lines | api/rag_service.py:102-116 | the thirteen lines are each their fixed label, `": "` and the record's value, in the fixed order; which of them reach the document is stated by `LineKeptIffValue` and `DocumentAlwaysHasClientAndValue` |
| RagService.KeptLines | api/rag_service.py:118 | the kept lines are exactly the lines whose text after the first `": "` is non-empty, no more than the input |
| RagService.KeptLinesInOrder | api/rag_service.py:118 | the kept lines are a subsequence of the labelled lines, in their order |
| RagService.SplitAfterLabel | api/rag_service.py:118 | for a label without a colon, `split(": ", 1)[1]` of `label: v` is exactly `v` |
| RagService.LineKeptIffValue | api/rag_service.py:102-118 | a labelled line is kept if and only if its value text is non-empty |
| RagService.TwoKeptLinesMakeTwoLines | api/rag_service.py:118 | two kept lines give a non-empty joined text that contains a newline |
| RagService.PrepareDocumentText | api/rag_service.py:100-118 | `prepare_document_text` joins the kept lines with newlines; its partner lemmas `KeptLinesInOrder`, `LineKeptIffValue` and `DocumentAlwaysHasClientAndValue` state that the document keeps the label order, holds exactly the lines with a value, and is never empty |
| RagService.DocumentAlwaysHasClientAndValue | api/rag_service.py:104-118 | the `Client: … at …` and `Value: $…` lines always survive, so the document is non-empty and has at least two lines |
| RagService.CoerceRecord | api/rag_service.py:137-145 | the coerced payload has the same keys; each value is a plain string: `""` for NaN, the ISO text when there is one, else `str(value)` |
| RagService.CoerceMetadata | api/rag_service.py:139-145 | the in-place rewrite of the metadata dict yields `CoerceRecord` of the original |
| RagService.ChunksProperties | api/rag_service.py:153-171 | batches of size k concatenate back to the input, and each holds between 1 and k items |
| RagService.ChunksCount | api/rag_service.py:153-170 | there are ceil(n/100) batches of 100 |
| RagService.EmbedFromBatches | api/rag_service.py:153-156 | the embedding calls are a prefix of the 100-batches; all of the batches when embedding succeeds |
| RagService.UpsertFromBatches | api/rag_service.py:170-175 | the upserts are a prefix of the 100-batches of points; all of the batches when none fails |
| RagService.Documents | api/rag_service.py:132-134 | one document per row |
| RagService.Metadata | api/rag_service.py:132-147 | one payload per row |
| RagService.Zip | api/rag_service.py:161 | `zip` gives as many points as the shorter of vectors and payloads |
| RagService.IndexEmptyFrame | api/rag_service.py:153-184 | an empty frame makes no embedding call and no upsert, and still reports success with count 0 |
| RagService.IndexSuccess | api/rag_service.py:150-184 | on success `indexed_count` is the row count; the embedding calls are the documents cut into ceil(n/100) batches of at most 100; the upserts are the points, the vectors zipped with the payloads, cut into batches of 100 the same way, and concatenate back to those points |
| RagService.IndexBatchesBounded | api/rag_service.py:150-175 | whatever the outcome, the embedding calls are a prefix of the 100-batches, and no call embeds or upserts more than 100 items |
| RagService.PrepareRows | api/rag_service.py:129-147 | the row loop yields the documents and coerced payloads of all rows, in order |
| RagService.EmbedInBatches | api/rag_service.py:150-157 | the batch loop makes the calls and returns the vectors (or the error) of `EmbedFrom` |
| RagService.ZipPoints | api/rag_service.py:160-167 | the point loop yields `Zip` of the vectors and payloads |
| RagService.UpsertInBatches | api/rag_service.py:170-175 | the upsert loop makes the calls of `UpsertFrom` and stops at the first failure |
| RagService.IndexContracts | api/rag_service.py:120-188 | `index_contracts` returns the result, embedding calls and upserts of `IndexOutcome`: no Qdrant, an error, or success |
| RagService.SemanticSearch | api/rag_service.py:190-217 | without Qdrant or on any failure the result is `[]`; otherwise one result per hit, in the store's order, each the hit's payload with `similarity_score` set to the hit's score and every other key kept |
| RagService.Truncate | api/rag_service.py:249-250 | a context within the limit is unchanged; a longer one becomes its first `max` characters plus `"..."`, so its length is at most `max + 3` |
| RagService.ContextAndSources | api/rag_service.py:233-244 | the context loop yields one `Contract id:` part and one source per retrieved contract, in order |
| RagService.RagQuery | api/rag_service.py:219-272 | `rag_query` returns `RagQueryOutcome`: the no-match answer, the error answer, or the answer with its sources and context information |
| RagService.RagNoMatch | api/rag_service.py:225-230 | an empty search gives the fixed "couldn't find" answer with no sources |
| RagService.RagAnswered | api/rag_service.py:236-263 | an answer with context information has one source per retrieved contract, in order, with its id and score; `contracts_found` is that count; `context_length` is at most `max + 3`, and is the full length when no truncation happens |
| RagService.OpenaiResponse | api/rag_service.py:274-310 | a failed chat call gives the fixed "no relevant contracts" text; a successful one gives the reply stripped of surrounding whitespace, never longer than the reply |
| RagService.FallbackResponse | api/rag_service.py:312-341 | an empty contract list gives the fixed "no relevant contracts" text; otherwise the summary of the contracts, or the error it raises |
| RagService.ChatFailureSaysNoContracts | api/rag_service.py:308-315 | when the OpenAI chat call fails the user gets the fixed "no relevant contracts" text, although contracts were found |
| RagService.CollectionStats | api/rag_service.py:343-357 | without Qdrant the "Vector database not available" error; otherwise what the collection lookup returns |
| CsvIngest.CsvDocuments | fix_csv_processing.py:102-111 | at most one document per row; its partner lemmas `NoDocumentsIff` and `DocumentsNotBlank` state that there is none exactly when no row has a surviving cell, and that no document is blank |
| CsvIngest.Kept | fix_csv_processing.py:103-111 | filtering keeps no more items than the input |
| CsvIngest.RowPiecesEmpty | fix_csv_processing.py:105-109 | a row has no pieces exactly when every cell is NaN or blank |
| CsvIngest.PiecesComeFromCells | fix_csv_processing.py:105-107 | every piece is the `col: value` piece of some cell of the row |
| CsvIngest.CellGivesPiece | fix_csv_processing.py:105-107 | every non-NaN, non-blank cell contributes its piece |
| CsvIngest.PieceNotBlank | fix_csv_processing.py:106-107 | a piece is never blank |
| CsvIngest.FlattenRow | fix_csv_processing.py:104-107 | the cell loop yields the row's pieces in column order |
| CsvIngest.NoDocumentsIff | fix_csv_processing.py:109-117 | no document is produced exactly when no row has a surviving cell |
| CsvIngest.FlattenRows | fix_csv_processing.py:102-111 | the row loop yields one `" | "`-joined document per row that has pieces, in row order |
| CsvIngest.RowTextNotBlank | fix_csv_processing.py:109-110 | the joined text of a row with pieces is not blank |
| CsvIngest.DocumentsNotBlank | fix_csv_processing.py:109-127 | every document survives the `doc.strip()` guard of the split loop |
| CsvIngest.SplitDocuments | fix_csv_processing.py:125-129 | the split loop yields `SplitAll` of the documents, and leaves with no chunks as soon as the splitter raises |
| CsvIngest.SplitAllFailsOnward | fix_csv_processing.py:125-129 | once the splitter has raised on some document, the split of the whole list fails |
| CsvIngest.SplitAllNonBlank | fix_csv_processing.py:126-129 | on non-blank documents the split loop is the plain concatenation of the splits, and fails exactly when it does |
| CsvIngest.FlatSplitFails | fix_csv_processing.py:126-129 | the plain split fails exactly when the splitter raises on some document |
| CsvIngest.IngestSplitsEveryDocument | fix_csv_processing.py:102-129 | every document made from the CSV is split, none skipped |
| CsvIngest.FirstSuccess | fix_csv_processing.py:139-158 | the first attempt, below 3, at which the store is built, with every earlier attempt failed; none exactly when all three fail |
| CsvIngest.CreateStore | fix_csv_processing.py:138-160 | the retry loop succeeds exactly when some attempt does, stops at the first success, and makes between 1 and 3 attempts, all 3 when it fails |
| CsvIngest.FirstChunks | fix_csv_processing.py:147 | `split_docs[:50]`: the leading chunks, exactly min(n, 50) of them, so all of them when there are no more than 50; not empty when there are chunks |
| CsvIngest.ChunksStored | fix_csv_processing.py:133-175 | once a store is built, it is built from exactly the first min(n, 50) chunks (`FirstChunks`), and some attempt built it |
| CsvIngest.Ingestion | fix_csv_processing.py:80-188 | `process_csv` stops for want of embeddings exactly when they are unset, and as unreadable exactly when they are set and the file is missing or does not parse; a store is built only from a readable, non-empty frame with documents that all split, and the chain only when it builds |
| CsvIngest.IngestStoresFirstChunks | fix_csv_processing.py:80-175 | whenever `process_csv` builds a store, it is built from exactly the first min(n, 50) chunks of the CSV's split documents |
| CsvIngest.IngestSplitFails | fix_csv_processing.py:109-188 | past the frame and document guards, `process_csv` fails on the split exactly when the splitter raises on one of the documents, which the outer `except` turns into a plain failure |
| CsvIngest.SplitFailedIff | fix_csv_processing.py:97-129 | for a non-empty frame with documents, the frame stage stops on the split exactly when the split of its documents fails |
| CsvIngest.IngestBlankRows | fix_csv_processing.py:109-117 | a non-empty CSV whose rows are all blank stops with "no documents" |
| CsvIngest.ProcessFrame | fix_csv_processing.py:97-175 | the steps after reading the CSV yield `IngestFrame` |
| CsvIngest.StoreChunks | fix_csv_processing.py:133-182 | the steps after splitting yield `IngestChunks` |
| CsvIngest.Host.constructor | fix_csv_processing.py:48 | the key global starts unset |
| CsvIngest.RagSystem.constructor | fix_csv_processing.py:51-55 | embeddings, store and chain start unset |
| CsvIngest.RagSystem.SetOpenaiKey | fix_csv_processing.py:57-78 | the global key is always set; embeddings are replaced only when they build; true exactly when they build and the test query succeeds |
| CsvIngest.RagSystem.ProcessCsv | fix_csv_processing.py:80-188 | `process_csv` follows the guard chain of `Ingestion`: no embeddings, unreadable CSV, empty frame, no documents, a splitter that raises, no chunks, the store, the chain; it returns true only when the chain is built, sets the store whenever one was built and the chain only when ready |
| CsvIngest.Answer | fix_csv_processing.py:190-202 | the "not initialized" text without a chain; the chain's answer; or `"Error processing query: "` and the error text |
| CsvIngest.SetOpenaiKeyEndpoint | fix_csv_processing.py:207-219 | a key that is empty or lacks the `sk-` prefix is refused with nothing changed; otherwise the result of setting it |
| CsvIngest.UploadCsv | fix_csv_processing.py:221-265 | a missing file name gives the caught `endswith` error and a name without `.csv` is refused, both with no file written and store and chain unchanged; otherwise the bytes are saved first; then a missing key is refused with store and chain unchanged; otherwise success exactly when processing is ready, the store set whenever one was built and the chain only when ready |
| CsvIngest.UploadProcessesSavedBytes | fix_csv_processing.py:230-247 | a successful upload processed the bytes just saved: they parse to a non-empty frame, and the store is built from the first min(n, 50) chunks of its split documents |
| CsvIngest.StatusFlags | fix_csv_processing.py:280-286 | each flag is whether the key, the store and the chain are set |
| Api.CountLabel | api/main.py:220-221 | a label count is at most the number of rows |
| Api.CountLabelZero | api/main.py:220-221 | the count is zero exactly when no row has that `data_source` |
| Api.BaseAndSyntheticWithinTotal | api/main.py:219-221 | base and synthetic counts together never exceed the total |
| Api.JobTrace | api/main.py:194-232 | every status the job sets, in order; its partner lemmas `JobTraceStages`, `JobProgressIncreasing`, `JobCompleted`, `JobFailed` and `JobIndexStage` state the stage order, the rising progress, and when the job completes, fails or indexes |
| Api.JobTraceStages | api/main.py:194-232 | every status but the last is "generating" at the next of the stages 10, 30, 60, (80 with a RAG service), 100; the last is "completed" or "error"; a run cut short ends in "error" |
| Api.JobProgressIncreasing | api/main.py:199-215 | the progress values rise strictly up to any non-error status |
| Api.JobCompleted | api/main.py:203-225 | the job completes exactly when generation, saving and the statistics succeed; then progress is 100, the path is the saved one, the counts are the row count and the base and synthetic counts, and the message names the row count |
| Api.JobFailed | api/main.py:227-232 | an error status has progress 0, a message starting "Generation failed: " and no statistics |
| Api.JobIndexStage | api/main.py:209-211 | stage 80 is reached exactly when there is a RAG service and the dataset was generated and saved |
| Api.Health | api/main.py:96-97 | `vector_db` is "available" exactly when there is a service with a Qdrant client; `openai` is "configured" exactly when there is a service using OpenAI |
| Api.ConfiguredKeyShowsInHealth | api/main.py:96-97 | after configuring a non-empty key, health shows OpenAI configured |
| Api.RagQueryEndpoint | api/main.py:297-307 | 503 exactly when there is no RAG service; otherwise the service's answer with a 4000-character context |
| Api.RagQueryContextBounded | api/main.py:304 | an answered query's context is at most 4003 characters |
| Api.SemanticSearchEndpoint | api/main.py:309-323 | 503 exactly when there is no RAG service; otherwise the query, the search results and their count |
| Api.RagStats | api/main.py:325-331 | an error dict without a RAG service, otherwise the service's statistics |
| Api.JoinPath | api/main.py:271 | the joined path ends with the file name |
| Api.CsvFilesMembership | api/main.py:245-247 | a name is listed exactly when the directory holds it and it ends in `.csv` |
| Api.CsvFilesInOrder | api/main.py:245-255 | the listing keeps the directory's order |
| Api.ListDatasets | api/main.py:239-257 | the loop lists the `.csv` names, or none when the directory is absent, and `count` is their number |
| Api.ApiServer.constructor | api/main.py:42-58 | no RAG service and an idle status at import |
| Api.ApiServer.Startup | api/main.py:60-68 | startup builds a RAG service from the environment key |
| Api.ApiServer.ConfigureOpenai | api/main.py:143-159 | an absent or empty key gives an error and keeps the service; any other key rebuilds the service with OpenAI enabled |
| Api.ApiServer.SetStatus | api/main.py:199 | the global status becomes the given one, which is appended to the log |
| Api.ApiServer.GenerateAndSave | api/main.py:199-206 | the statuses up to saving are appended, and the saved frame and path returned when both steps succeed |
| Api.ApiServer.GenerateDataBackground | api/main.py:194-232 | the statuses set are exactly `JobTrace`, and the indexing done is `JobIndexing` |
| Api.ApiServer.UploadDataset | api/main.py:261-293 | every error leaves as a 500: no file name, the caught 400 for a non-`.csv` name (detail "400: …"), a CSV that does not parse; a `.csv` upload is saved first; on success the name, record count and columns, with the frame indexed when there is a service |
| HotfixApi.HotfixMarkersHaveNoNewline | hotfix_api.py:77-78 | neither marker contains a newline |
| HotfixApi.SpliceAsWritten | hotfix_api.py:80-95 | the splice as written patches exactly when both markers are found; the result then keeps the text before the start marker, puts the new method right after it, and has the length of the kept parts plus the new method |
| HotfixApi.SpliceNeedsMarkers | hotfix_api.py:80-89 | the splice gives up exactly when the start marker is absent, or when no end marker occurs at or after it |
| HotfixApi.MarkersInOrder | hotfix_api.py:80-89 | when both are found, the end marker lies at or after the start marker, and each index is the first occurrence |
| HotfixApi.CutAsWritten | hotfix_api.py:92 | the cut as written lies within the text |
| HotfixApi.SpliceWithNewline | hotfix_api.py:92-95 | with a newline after the end marker, the cut is one past it, the text before the start marker and after that newline is kept, and the new method sits between |
| HotfixApi.SpliceWithoutNewlineDuplicates | hotfix_api.py:92-95 | without a newline after the end marker, the cut is 0 and the whole original text, old method included, follows the new method |
| HotfixApi.Cut | hotfix_api.py:92 | the intended cut: one past the first newline after the end marker, or the end of the text |
| HotfixApi.Splice | hotfix_api.py:80-95 | the corrected splice succeeds exactly when both markers are found, and replaces the start marker through the end of the end marker's line |
| HotfixApi.SpliceRemovesMethod | hotfix_api.py:80-95 | the removed text begins with the start marker and contains the end marker |
| HotfixApi.StartEndsBeforeCut | hotfix_api.py:80-92 | the start marker lies wholly before the cut |
| HotfixApi.SpliceAgreesWithNewline | hotfix_api.py:92-95 | where a newline follows the end marker, the code as written already does what was intended |
| HotfixApi.SpliceWithoutNewline | hotfix_api.py:92-95 | without a newline, the corrected splice ends the text with the new method |
| HotfixApi.ApplyHotfix | hotfix_api.py:65-108 | false with nothing written when the file is missing or a marker is not found; otherwise the backup holds the original text, the file holds the splice, and other files are unchanged |
| HotfixIssues.Patch | hotfix_issues.py:68-72 | the text written back is the two replacements in turn; its partner lemmas `PatchUnchangedWithoutTargets`, `PatchNeverShrinks`, `PatchKeepsVerifyTarget`, `PatchNotIdempotent` and `PatchTwiceRepeatsOptional` state what it keeps, adds and repeats |
| HotfixIssues.FixApiIssues | hotfix_issues.py:9-86 | false with nothing written when the file is missing; otherwise the backup holds the text read from disk, the file holds the patched text, and other files are unchanged |
| HotfixIssues.StatusFixIsNoOp | hotfix_issues.py:21-25 | the status replacement equals its pattern, so it would change nothing |
| HotfixIssues.NewVerifyExtendsOld | hotfix_issues.py:36-65 | the new `verify_password` text begins with the old one and is longer |
| HotfixIssues.VerifyAbsentUnchanged | hotfix_issues.py:68 | text without the old `verify_password` passes the first replacement unchanged |
| HotfixIssues.UploadGuardRedundant | hotfix_issues.py:71-72 | guarded or not, the upload replacement gives the same text |
| HotfixIssues.PatchUnchangedWithoutTargets | hotfix_issues.py:68-72 | text holding neither target is written back unchanged |
| HotfixIssues.PatchNeverShrinks | hotfix_issues.py:68-72 | the patched text is never shorter |
| HotfixIssues.VerifyStepKeepsTarget | hotfix_issues.py:68 | the first replacement leaves the old `verify_password` behind and grows the text whenever it applies |
| HotfixIssues.PatchKeepsVerifyTarget | hotfix_issues.py:68-72 | text holding the old `verify_password` is patched into text that holds the new `verify_password` followed by `optional_verify_password`, and so still holds the old one, whether or not the upload path is also replaced |
| HotfixIssues.UploadKeeps | hotfix_issues.py:71-72 | the upload replacement keeps any occurrence of a text that begins with the old `verify_password`, ends in `g` and has no `/` |
| HotfixIssues.VerifyStepDoubles | hotfix_issues.py:68 | on text already holding the new `verify_password`, the first replacement leaves `optional_verify_password` twice in a row |
| HotfixIssues.ReplaceExtendsAgain | hotfix_issues.py:68 | replacing `base` by `base + extra` in text that already holds `base + extra` leaves `base + extra + extra`, for a `base` that cannot overlap itself and a shorter `extra` |
| HotfixIssues.RepatchDoubles | hotfix_issues.py:68-72 | patching text that holds the new `verify_password` gives text holding it followed by a second `optional_verify_password` |
| HotfixIssues.PatchNotIdempotent | hotfix_issues.py:36-68 | re-patching text that holds the old `verify_password` inserts a second `optional_verify_password`, so it grows |
| HotfixIssues.PatchTwiceRepeatsOptional | hotfix_issues.py:36-72 | running the patch twice on text that holds the old `verify_password` gives text holding it followed by two copies of `optional_verify_password`, longer than after one run |
| Text.Find | hotfix_api.py:80-92 | `str.find`: -1 exactly when the pattern does not occur from `start` on; otherwise its first occurrence from `start` |
| Text.Strip | fix_csv_processing.py:106-107 | `str.strip`: empty exactly for all-whitespace text; otherwise a slice that starts and ends with a non-space, and whatever it drops at either end is whitespace |
| Text.ReplaceAll | hotfix_issues.py:68 | `str.replace`; its partner lemmas `ReplaceSelf`, `ReplaceKeepsPattern`, `ReplaceInserts`, `ReplaceSplit`, `ReplaceAtOccurrence` and `ReplaceKeepsFree` state what a replacement keeps, adds and splits |
| Text.ReplaceKeepsPattern | hotfix_issues.py:68 | replacing a pattern by text that begins with it leaves an occurrence |
| Text.ReplaceInserts | hotfix_issues.py:68 | replacing a pattern that occurs leaves the replacement in the result |
| Text.ReplaceSplit | hotfix_issues.py:68 | at a point that no occurrence of the pattern straddles, replacing in the whole text is replacing in each part |
| Text.ReplaceAtOccurrence | hotfix_issues.py:68 | at an occurrence that no earlier occurrence overlaps, the result is the replaced prefix, the replacement, and the replaced rest |
| Text.ReplaceKeepsFree | hotfix_issues.py:68 | an occurrence of a text free of the pattern, straddled by no occurrence of the pattern at either end, survives the replacement |
| Text.ReplaceSelf | hotfix_issues.py:21-25 | replacing a pattern by itself changes nothing |
| Text.NatToStringRoundTrip | api/main.py:216 | the decimal text of a count reads back as that count |
| Frames.ToDict | api/rag_service.py:133 | `row.to_dict()` has exactly the row's columns as keys |

## Left out

- Network and library internals. This covers:
  - OpenAI embedding and chat;
  - the sentence-transformer;
  - Qdrant `get_collections`, `create_collection`, `search`, `upsert` and `get_collection`;
  - Chroma, `RecursiveCharacterTextSplitter`, `RetrievalQA` and `pd.read_csv`;
  - the data generator.

  These are foreign code. The model treats each one as an oracle of its inputs. The chat prompt text is such an input and is not spelled out.
- Floating point. This covers vector values, similarity scores, and `generate_fallback_response`'s sums, averages and `:,.2f` formatting. It also covers the generation job's `avg_contract_value` and `total_value`. Vectors are `seq<real>` and scores are opaque values. The fallback summary and the value aggregates are oracles that may raise.
- RagService.FallbackResponse: for a non-empty list the text is an oracle. The summary iterates `set(...)`, whose order is unspecified. So only the empty-list case, the fixed "no relevant contracts" text, is stated exactly; a non-empty list gives whatever the summary oracle gives.
- Randomness: the `uuid4` ids of Qdrant points. Points carry only their vector and payload.
- Time: the `timestamp` fields are omitted. So are the dataset listing's `created`, `modified` and `size_mb` fields, and `time.sleep(2)` in the retry loop.
- File-system effects other than the files a core operation writes. `os.makedirs`, directory listings and file stats are left out. The saved files are a map from path to bytes.
- `os.path.exists` in `list_datasets` is the `dirExists` parameter. The listing itself is the `listing` parameter.
- Async and background execution in `api/main.py`. The await points of `generate_data_background` run in sequence. The scheduling by `/data/generate` is not modelled, and neither is concurrent access to `generation_status`.
- Api.RagQueryEndpoint, Api.SemanticSearchEndpoint: the 500 branches of `/rag/query` and `/rag/search` are not modelled. `rag_query` and `semantic_search` catch every exception themselves, so in this model those branches cannot be reached.
- The generic `except` arms of `set_openai_key`, `query` and `configure_openai` are not modelled. The modelled oracles report failure by value, so nothing reaches those arms.
- CsvIngest.UploadCsv: its generic `except` arm is modelled only for a missing file name, where `endswith` on `None` raises and the reply is `"Error uploading/processing CSV: "` and the error text. Other exceptions it could catch, such as a failing file write, are not modelled.
- CsvIngest.Ingestion: the Chroma store persists to `./data/chroma_db`, so across uploads and failed attempts the persisted directory may accumulate texts. The model's `stored` is what the current store was built from, not the directory's whole contents.
- Api.ApiServer.UploadDataset: the detail of the re-raised 400 is taken to be `"400: "` followed by the original detail. That is `str()` of Starlette's `HTTPException`, which is not part of this model.
- `HotfixApi`: the text of `FIXED_SET_OPENAI_KEY` (hotfix_api.py:10-63) is the parameter `fixed`. It is source text that the script injects, not logic the script runs.
- `fix_directory_structure` (hotfix_issues.py) and `stop_existing_services` are left out. They are a loop of `os.makedirs` calls and a `pkill` subprocess.
- The script entry points of both patchers are left out. They only print and call `sys.exit`.
- These endpoints are left out because they hold no logic beyond returning fixed or system data:
  - in `api/main.py`: `/`, `/system`, `/config/status`, `/data/generate`, `/data/generation-status`, the analytics endpoints and the example-query payloads;
  - in `fix_csv_processing.py`: `/`, `/api/query`, and the system part of `/api/status`.
- `api/data_generator.py` and `api/models.py` are not part of this model. The first is random, float-heavy record synthesis; the second holds SQLAlchemy table declarations.
- Api.ApiServer.Startup, Api.ApiServer.ConfigureOpenai: the `init_vector_storage()` call that ends the `RAGService` constructor (api/rag_service.py:54) is not made when these build a service. Its effect on Qdrant is stated separately by RagService.InitVectorStorage.
- CsvIngest.RagSystem.ProcessCsv sets the vector store after it tries to build the chain. The source sets it first. No step in between reads it, so the final state is the same.
- CsvIngest.RagSystem.ProcessCsv: `self.documents` is never read. It is not a field of the model.

## Findings

| source | as written | input that shows it | evidently intended | confidence | as-written member | corrected member |
|---|---|---|---|---|---|---|
| hotfix_api.py:92 | `content.find('\n', end_idx) + 1` is 0 when no newline follows the end marker, so `content[end_idx:]` is the whole original text, and the old method and everything around it are appended after the new method | an API source whose last line is `            return False` with no trailing newline, after a `    def set_openai_key(self, api_key: str):` line | cut at the end of the text when the end marker's line is the last one, so the new method replaces the old one exactly once | not executed | HotfixApi.SpliceWithoutNewlineDuplicates | HotfixApi.Splice |
