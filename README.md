# agentic-memorizer core, modelled in Dafny

agentic-memorizer is a Go daemon that watches remembered directories, decides
how each file is ingested, chunks its text, analyses it and writes the result
to a knowledge graph, which an MCP tool then searches. This project models the
parts of that daemon that are sequential logic over strings, sequences and
small records, and proves what the code promises about them:

- the chunkers for SQL (a statement lexer that keeps `;` inside strings,
  comments and dollar quotes, grouping by table, dialect detection), HCL,
  protobuf, CSV and line-based structured data, LaTeX, DOCX, ODT, Jupyter
  notebooks, XML, logs and PDF content streams, with their offset bookkeeping
  (modules `SqlChunker`, `SqlGroups`, `Hcl`, `Protobuf`, `Structured`,
  `Latex`, `Docx`, `Odt`, `Outline`, `Notebook`, `Xml`, `Log`, `Pdf`, and the
  shared `Chunks`, `Packing` and `Sections`);
- the analysis work queue and the durable persistence queue as classes whose
  methods change their state (`AnalysisQueue`, `PersistenceQueue`);
- the file-state registry, with each SQL statement written as the map update
  it performs (`Registry`);
- the ingest decision table and MIME/kind detection (`Ingest`), and the
  analysis worker's retry decision, back-off and metadata hash (`Worker`);
- the `search_memory` tool's helpers and its filter-and-rank loop (`Search`),
  and the `remember` command's configuration helpers (`Remember`);
- the filesystem watcher's noise and limit tests and its watched-root state
  (`Watcher`);
- Cypher string escaping (`Cypher`) and the index formatter's helpers
  (`Formatter`).

`Text`, `Paths`, `Wrappers` and `Config` hold Go's string and path helpers,
`Option`/`Result`, and the per-path configuration record.

Where the code has a defect (see "## Findings"), the model has both the code
as written, with a lemma showing the defect on a concrete input, and the
corrected behaviour, which the rest of the model uses and whose intended
property is proved.

## Model

| member | source | states |
|---|---|---|
| Chunks.Limit | internal/chunkers/xml.go:76-79 | the size in force is the caller's when positive and otherwise the default of 8000 that `DefaultChunkOptions` gives (internal/chunkers/chunker_test.go:31-37) |
| Chunks.EmptyResult | internal/chunkers/xml.go:66-74 | empty content gives no chunks, a total of 0, an original size of 0 and the chunker's name |
| Chunks.LaySound | internal/chunkers/notebook.go:440-508 | pieces laid from an offset become chunks in the same order, contiguous from that offset, each spanning its own text |
| Chunks.LayOut | internal/chunkers/notebook.go:440-508 | the loop laying out pieces computes those chunks |
| Chunks.Numbered | internal/chunkers/xml.go:97-101 | every chunk gets its position as `Index` and is otherwise unchanged |
| Chunks.AppendNumbered | internal/chunkers/xml.go:97-101 | appending split chunks one by one, each numbered by the count so far, numbers the whole list by position |
| Paths.Ext | internal/mcp/tools_search.go:203 | the extension is empty or a dot-led suffix of the final element without another dot; it is empty only when that element has no dot |
| Paths.Base | internal/watcher/watcher.go:511 | the base name is `.` for the empty path, `/` for a path of separators, and otherwise the whole last element of the path without its trailing separators: a separator-free suffix that is the whole trimmed path or follows a separator |
| PersistenceQueue.IdsWith | internal/storage/persistence_queue.go:83-88 | `WHERE status = ?` keeps exactly the ids whose row has that status, in table order |
| PersistenceQueue.IdsWithSorted | internal/storage/persistence_queue.go:86-87 | selecting by status keeps the `ORDER BY enqueued_at ASC` order |
| PersistenceQueue.Limit | internal/storage/persistence_queue.go:88 | `LIMIT n` keeps the first min(n, count) ids |
| PersistenceQueue.AfterFailure | internal/storage/persistence_queue.go:198-216 | a failure adds one retry, sets the error, clears the start; failed (with a finish time) iff the new count reaches maxRetries, pending otherwise |
| PersistenceQueue.FailTimesStatus | internal/storage/persistence_queue.go:198-216 | after k failures the retry count grew by k and the row is failed exactly when it reached maxRetries |
| PersistenceQueue.PurgeSparesLive | internal/storage/persistence_queue.go:290-294 | a pending or inflight row never matches the purge condition |
| PersistenceQueue.UpsertKeepsInvariant | internal/storage/persistence_queue.go:50-62 | the upsert keeps keys unique, the ids ordered by enqueue time and the next id fresh |
| PersistenceQueue.PurgeKeepsInvariant | internal/storage/persistence_queue.go:290-305 | deleting the purgeable rows keeps the table invariant; the removed count is the number of rows deleted |
| PersistenceQueue.Queue.constructor | internal/storage/persistence_queue.go:44-47 | a new queue is empty |
| PersistenceQueue.Queue.FindKey | internal/storage/persistence_queue.go:54 | finds the row with the same (file_path, content_hash) conflict key, or proves there is none |
| PersistenceQueue.Queue.Enqueue | internal/storage/persistence_queue.go:50-67 | an existing (path, hash) row keeps its id and is reset to pending with retry 0, no error and no start/finish; a new key, including a new hash for a known path, adds a row with a fresh id |
| PersistenceQueue.Queue.DequeueBatch | internal/storage/persistence_queue.go:70-157 | n <= 0 returns nothing and changes nothing; otherwise the first min(n, pending) pending rows by enqueue time become inflight with a start time and are returned; other rows are untouched |
| PersistenceQueue.Queue.Complete | internal/storage/persistence_queue.go:161-180 | an unknown id is the error "item N not found"; otherwise only that row becomes completed with a finish time |
| PersistenceQueue.Queue.Fail | internal/storage/persistence_queue.go:184-219 | an unknown id is "item N not found"; otherwise only that row is updated as `AfterFailure` says |
| PersistenceQueue.Queue.Stats | internal/storage/persistence_queue.go:222-282 | the four status counts add up to the row count; the oldest pending time is absent iff no row is pending and is the least pending enqueue time |
| PersistenceQueue.Queue.Purge | internal/storage/persistence_queue.go:285-305 | deletes exactly the completed/failed rows finished before their cutoffs, returns how many, and keeps every pending and inflight row unchanged |
| PersistenceQueue.SelectPending | internal/storage/persistence_queue.go:82-126 | the scan returns the LIMITed pending ids in order with their rows as inflight |
| PersistenceQueue.StatsFacts | internal/storage/persistence_queue.go:226-263 | the per-status counts cover the table and the pending ids are in enqueue order, so the first one holds MIN(enqueued_at) |
| PersistenceQueue.CountsCover | internal/storage/persistence_queue.go:226-248 | every row is counted under exactly one status |
| PersistenceQueue.DequeueTakesOldest | internal/storage/persistence_queue.go:82-89 | the batch is ordered by enqueue time, has min(n, pending) rows, and no pending row left behind is older than one taken |
| AnalysisQueue.Apply | internal/analysis/queue.go:87-121 | worker count, batch size and capacity ignore values <= 0, max retries ignores negatives; valid settings stay valid |
| AnalysisQueue.OptionsKeepSettingsOk | internal/analysis/queue.go:138-156 | whatever options are passed, the built queue has positive counts and sizes and non-negative retries |
| AnalysisQueue.OptionsExample | internal/analysis/queue.go:87-112 | later valid options win; a zero worker count is ignored while a zero retry limit is taken |
| AnalysisQueue.DegradationMonotone | internal/analysis/queue.go:317-326 | a fuller queue never degrades less |
| AnalysisQueue.DegradationThresholds | internal/analysis/queue.go:303-326 | metadata-only iff pending >= 95% of capacity, no-embed iff 80% <= pending < 95%, full below 80% |
| AnalysisQueue.AnalysisTypeFor | internal/analysis/queue.go:472-478 | metadata for files that were not chunked, semantic for chunked files without embeddings, full otherwise |
| AnalysisQueue.WorkerIds | internal/analysis/queue.go:177-181 | worker i of a pool of n has id i |
| AnalysisQueue.Queue.constructor | internal/analysis/queue.go:138-156 | a new queue is idle with the defaults 4/10/3/1000 after the options, no workers and nothing pending |
| AnalysisQueue.Queue.Start | internal/analysis/queue.go:164-198 | a running queue answers "queue already running" and is unchanged; otherwise it runs with an empty buffer and workers 0..workerCount-1 |
| AnalysisQueue.Queue.Stop | internal/analysis/queue.go:201-234 | a queue that is not running is unchanged; a running one ends stopped |
| AnalysisQueue.Queue.Enqueue | internal/analysis/queue.go:264-279 | refused with "queue not running" or "queue full; capacity=N" and no change; otherwise the item is appended to the buffer |
| AnalysisQueue.Queue.Receive | internal/analysis/worker.go:182 | a worker receives the oldest buffered item, if any |
| AnalysisQueue.Queue.Stats | internal/analysis/queue.go:282-314 | the pending count is the buffer length (at most the capacity) and the degradation follows the 95%/80% thresholds |
| AnalysisQueue.Queue.SetWorkerCount | internal/analysis/queue.go:329-369 | n <= 0 is ignored; otherwise the count becomes n, and a running queue's pool becomes workers 0..n-1 |
| AnalysisQueue.Queue.SetBatchSize | internal/analysis/queue.go:372-379 | n <= 0 is ignored; otherwise only the batch size changes |
| Registry.Cleaned | internal/registry/registry.go:108 | the one case of path cleaning kept: the empty path becomes ".", every other path is taken as already clean |
| Registry.WithMetadata | internal/registry/registry.go:430-452 | the metadata upsert sets the hashes, size, modification time and metadata timestamp and nothing else |
| Registry.AfterSemantic | internal/registry/registry.go:455-498 | success stamps the semantic and last-analysed time and the version, clears the error and zeroes the retry count; failure sets the error and adds one retry; the metadata and embeddings columns never change |
| Registry.AfterEmbeddings | internal/registry/registry.go:501-542 | the same success/failure pattern for the embeddings columns, leaving the semantic ones alone |
| Registry.Cleared | internal/registry/registry.go:545-568 | every analysis timestamp, the version and both errors become NULL and both retry counts 0; identity, hashes, size and time stay |
| Registry.ClearedRestartsPipeline | internal/registry/registry.go:545-568 | a cleared file needs metadata only; once metadata is recorded it needs semantic analysis exactly when maxRetries > 0 |
| Registry.SemanticSuccessAdvances | internal/registry/registry.go:455-498 | a semantic success removes the file from the semantic list and puts it on the embeddings list unless embeddings are done or exhausted |
| Registry.SemanticFailuresExhaust | internal/registry/registry.go:482-494 | k failures add k retries, and the file stays due for semantic analysis only while the count is below maxRetries |
| Registry.FullyAnalysedNeedsNothing | internal/registry/registry.go:571-650 | after metadata, semantic and embeddings succeed the file is on none of the three lists |
| Registry.LikeOwnPrefix | internal/registry/registry.go:387-389 | a LIKE pattern with a trailing `%` matches its own text followed by anything |
| Registry.UnderIsInScope | internal/registry/registry.go:376-389 | the LIKE query as written reaches every file at or beneath the parent |
| Registry.LikeScopeOverreaches | internal/registry/registry.go:376-389 | the query as written also reaches "/axb/f" for parent "/a_b" and "/a/f" for parent "/A", which are not beneath them |
| Registry.Registry.constructor | internal/registry/registry.go:69-99 | a new registry has no roots and no file rows |
| Registry.Registry.AddPath | internal/registry/registry.go:107-133 | an existing cleaned path gives ErrPathExists and no change; otherwise the root is added with its config and no walk time |
| Registry.Registry.RemovePath | internal/registry/registry.go:136-156 | an absent path gives ErrPathNotFound; otherwise only that root is removed |
| Registry.Registry.UpdatePathConfig | internal/registry/registry.go:199-230 | an absent root gives ErrPathNotFound; otherwise only its config changes |
| Registry.Registry.UpdatePathLastWalk | internal/registry/registry.go:233-255 | an absent root gives ErrPathNotFound; otherwise only its walk time changes |
| Registry.Registry.FindContainingPath | internal/registry/registry.go:258-286 | the answer is a remembered root equal to the file or an ancestor of it (prefix plus separator) and no containing root is longer; ErrPathNotFound exactly when no root contains the file |
| Registry.Registry.GetEffectiveConfig | internal/registry/registry.go:289-295 | the config of a root that contains the file and is at least as long as every root containing it (the closest one), or ErrPathNotFound when no root contains it |
| Registry.Registry.UpdateFileState | internal/registry/registry.go:315-350 | inserts or overwrites the row of the cleaned path |
| Registry.Registry.DeleteFileState | internal/registry/registry.go:353-373 | an absent row gives ErrPathNotFound; otherwise only that row goes |
| Registry.Registry.ListFileStates | internal/registry/registry.go:376-410 | exactly the rows at or beneath the cleaned parent (the corrected scope) |
| Registry.Registry.DeleteFileStatesForPath | internal/registry/registry.go:413-427 | removes exactly the rows at or beneath the parent and leaves every other row unchanged (the corrected scope) |
| Registry.Registry.UpdateMetadataState | internal/registry/registry.go:430-452 | upserts the metadata columns of the cleaned path, starting from a blank row when there was none |
| Registry.Registry.UpdateSemanticState | internal/registry/registry.go:455-498 | an unknown path changes nothing; otherwise its row becomes `AfterSemantic` of the old one |
| Registry.Registry.UpdateEmbeddingsState | internal/registry/registry.go:501-542 | an unknown path changes nothing; otherwise its row becomes `AfterEmbeddings` of the old one |
| Registry.Registry.ClearAnalysisState | internal/registry/registry.go:545-568 | an unknown path changes nothing; otherwise its row becomes `Cleared` of the old one |
| Registry.Registry.ListFilesNeedingMetadata | internal/registry/registry.go:571-594 | the rows in scope whose metadata timestamp is NULL |
| Registry.Registry.ListFilesNeedingSemantic | internal/registry/registry.go:597-622 | the rows in scope with metadata set, semantic unset and fewer than maxRetries retries |
| Registry.Registry.ListFilesNeedingEmbeddings | internal/registry/registry.go:625-650 | the rows in scope with semantic set, embeddings unset and fewer than maxRetries retries |
| Registry.Registry.ValidateAndCleanPaths | internal/registry/registry.go:687-714 | exactly the roots reported missing are returned once each, forgotten, and lose their file rows; denied or failing roots and every other row stay |
| Ingest.Decide | internal/ingest/ingest.go:96-118 | files over 100 MiB are metadata-only "too_large"; otherwise text, structured and documents are chunked with no reason, unknown kinds are skipped, and an image is "vision_disabled" exactly when its path config turns vision off |
| Ingest.DecideReasons | internal/ingest/ingest.go:96-118 | a file has a reason iff it is not chunked; skipped files are "unsupported"; images get "image" or "vision_disabled" |
| Ingest.KindOfLower | internal/ingest/ingest.go:148-169 | the first class in the fixed order structured, document, image, archive, media, binary, text that accepts the MIME type, unknown when none does |
| Ingest.KindIgnoresCase | internal/ingest/ingest.go:148-150 | the kind does not depend on the case of the MIME type |
| Ingest.StructuredBeforeText | internal/ingest/ingest.go:148-169 | NDJSON and YAML count as structured and Markdown as a document, not as text |
| Ingest.KindFromExtension | internal/ingest/ingest.go:171-181 | an extension missing from the table gives an unknown kind |
| Ingest.IsLikelyText | internal/ingest/ingest.go:183-194 | an empty sample is text; a sample with a NUL byte or invalid UTF-8 is not |
| Ingest.AsciiIsLikelyText | internal/ingest/ingest.go:183-194 | seven-bit samples without NUL bytes are text |
| Ingest.NotTextSamples | internal/ingest/ingest.go:183-194 | a truncated two-byte sequence, a NUL and an encoded surrogate are not text; "é" in UTF-8 is |
| Ingest.DetectMime | internal/ingest/ingest.go:120-146 | the sniffed type wins when it is more specific than octet-stream or plain text; otherwise the extension's type (system database first, then the table) |
| Ingest.Probe | internal/ingest/ingest.go:62-93 | the MIME type is never empty, the kind is never unknown, and text-like kinds are only given to samples that are likely text |
| Worker.BackoffDoubles | internal/analysis/worker.go:280-284 | the first retry waits the base delay and every further retry twice as long: retryDelay·2^(r−1) |
| Worker.ProcessItem | internal/analysis/worker.go:200-277 | completed iff analysis and graph write succeed; a failure is re-queued with one more retry and the backoff delay iff retries < maxRetries, otherwise it fails for good as an analysis or a persistence failure |
| Worker.FailuresAreBounded | internal/analysis/worker.go:206-232 | an item that keeps failing comes back with k more retries while that stays within maxRetries, and the next failure gives up |
| Worker.WrappingHash | internal/analysis/worker.go:994-997 | the folded sum stays below 2^64 |
| Worker.WrappingIsExactMod | internal/analysis/worker.go:994-997 | wrapping at every step equals the exact base-31 polynomial of the bytes reduced modulo 2^64 |
| Worker.Hex | internal/analysis/worker.go:998 | `%016x` gives exactly the requested number of digits |
| Worker.HexRoundTrip | internal/analysis/worker.go:998 | hex formatting loses nothing for a number that fits the width |
| Worker.ComputeMetadataHash | internal/analysis/worker.go:992-999 | the loop computes the 16-digit hex of the wrapping hash of "path\|size\|modTime" |
| Worker.MetadataHashMeaning | internal/analysis/worker.go:992-999 | the metadata hash is 16 hex digits whose value is the byte polynomial modulo 2^64 |
| Worker.DetectMimeType | internal/analysis/worker.go:906-943 | for an extension outside the table, content opening with `{` or `[` is JSON and anything else is octet-stream |
| Worker.DetectLanguage | internal/analysis/worker.go:945-983 | a language is named exactly for the listed extensions |
| Cypher.EscapeString | internal/graph/client.go:1675-1688 | the loop builds exactly the escape of its input: a backslash before each quote and each backslash, every other character kept |
| Cypher.EscapeAppend | internal/graph/client.go:1675-1688 | escaping works character by character, so the escape of a concatenation is the concatenation of the escapes |
| Cypher.EscapeLength | internal/graph/client.go:1679-1684 | each quote and backslash grows by one character and nothing else changes length |
| Cypher.EscapeIdentity | internal/graph/client.go:1679-1685 | text with no quote and no backslash passes through unchanged |
| Cypher.ReadEscaped | internal/graph/client.go:1675-1688 | an escaped value followed by a closing quote reads back as exactly the value and leaves the rest of the query untouched, so no value can close its literal early |
| Cypher.NormalizeString | internal/graph/client.go:1691-1701 | the loop lowers A-Z by 32 and keeps every other character |
| Cypher.NormalizeIdempotent | internal/graph/client.go:1691-1701 | normalising twice is normalising once, and a character changes exactly when it is in A-Z |
| Cypher.FormatStringArray | internal/graph/client.go:935-944 | `[]` for no items, otherwise each item escaped in single quotes and joined by commas inside brackets |
| Cypher.ArrayLiteralRoundTrip | internal/graph/client.go:935-944 | every array literal parses back to exactly the strings it was built from, in order |
| Formatter.FormatNumberLoop | internal/output/formatter.go:356-371 | the loop inserts a comma before position i > 0 exactly when the characters left from i are a multiple of three, and only when the text is longer than 3 |
| Formatter.AsWrittenSignComma | internal/output/formatter.go:356-371 | as written, the sign is counted as a digit: -123 is formatted as "-,123" |
| Formatter.FormatNumberAgreesOnNatural | internal/output/formatter.go:356-371 | the corrected formatting agrees with the code on every non-negative number |
| Formatter.FormatNumberSound | internal/output/formatter.go:356-371 | the corrected formatting drops back to the plain decimal text when the commas are removed, no comma comes first or after the sign, and the digits after any sign form one to three digits followed by groups of a comma and exactly three digits |
| Formatter.CategoryEmoji | internal/output/formatter.go:319-337 | every category gets an emoji; an unknown one gets the paperclip, every known one except "other" a different emoji |
| Formatter.GroupByCategory | internal/output/formatter.go:307-316 | the map's keys are exactly the categories present, and each key maps to that category's entries in input order |
| Formatter.GroupsCoverEntries | internal/output/formatter.go:307-316 | grouping loses no entry and counts none twice: the group sizes add up to the number of entries |
| Formatter.SortNewestFirst | internal/output/formatter.go:293-296 | the sort gives a permutation of its input ordered by modification time, newest first |
| Formatter.RecentEntries | internal/output/formatter.go:283-304 | the result holds only entries modified after the cutoff, newest first, at most ten, and no entry left out is newer than one kept |
| Formatter.TakeNewest | internal/output/formatter.go:298-301 | cutting a newest-first list at ten keeps min(n, 10) entries and they are the newest ones |
| Formatter.InsertByTimeSorted | internal/output/formatter.go:293-296 | inserting one entry keeps a list newest first |
| Formatter.InsertByTimeAdds | internal/output/formatter.go:293-296 | inserting adds exactly the one entry |
| Formatter.RecentSound | internal/output/formatter.go:283-304 | a newest-first arrangement of the entries after the cutoff, cut at ten, is the recent list: only entries after the cutoff, newest first, and none left out newer than one kept |
| Formatter.DroppedAreOlder | internal/output/formatter.go:298-301 | in a newest-first list, nothing after the cut is newer than anything before it |
| Packing.AsWrittenWidths | internal/chunkers/hcl.go:297-358 | in the loop as written every chunk's end minus start equals its length |
| Packing.AsWrittenStartIsShifted | internal/chunkers/hcl.go:311-327 | as written, the first chunk of the lines "aaa", "bbb" is given [1, 4) while its text sits at [0, 3) of the block |
| Packing.AsWrittenParagraphShift | internal/chunkers/docx.go:467-490 | as written, with the paragraph separator "\n\n" the first chunk of "aaa", "bbb" is given [2, 5) while its text sits at [0, 3) |
| Packing.AsWrittenDropsLeadingEmptyLine | internal/chunkers/hcl.go:334-339 | as written, an empty first line is absorbed by the empty builder, so "\nabc" packs to the one chunk "abc" |
| Packing.PackSound | internal/chunkers/hcl.go:297-358 | the corrected packing: chunks joined with the separator give back the joined pieces, there are none only for no pieces, each sits at its own offsets, and only a single piece may exceed maxSize |
| Packing.PackGapped | internal/chunkers/hcl.go:297-358 | the corrected chunks follow one another in order, each starting one separator after the previous one ends |
| Packing.PackPieces | internal/chunkers/protobuf.go:299-360 | the packing loop returns exactly the corrected packing of its pieces |
| Packing.Advance | internal/chunkers/hcl.go:311-339 | one iteration of the corrected packing loop is exactly one `Step` of the packing whose soundness PackSound states |
| Packing.PackTrimmed | internal/chunkers/docx.go:446-513 | the paragraph loop trims each paragraph, skips blank ones and packs the rest with a blank line between them |
| Packing.KeptShorter | internal/chunkers/docx.go:461-464 | trimming and dropping blank paragraphs never lengthens their joined text |
| Packing.SplitLines | internal/chunkers/notebook.go:440-508 | the line fallback's loop returns exactly the line packing of the text |
| Packing.LinePiecesSound | internal/chunkers/notebook.go:440-508 | the line pieces are non-empty, each is within maxSize or is one over-long line, and with no empty line they join back to the text |
| Structured.HandledDispatch | internal/chunkers/structured.go:28-73 | the JSON, CSV and YAML types the chunker accepts reach the JSON, CSV and line branches respectively, and no other accepted type does |
| Structured.GroupSound | internal/chunkers/structured.go:264-340 | the builder loop: there are chunks iff there are rows, each opens with the header and a whole row and exceeds maxSize only as that one row, the first chunk starts at 0 and each later one starts where the previous one ended less the header it repeats, and the chunks without their headers give back the rows |
| Structured.AddRow | internal/chunkers/structured.go:296-320 | one iteration flushes the builder when the row would take it past maxSize and it holds more than the header, then appends the row |
| Structured.ChunkLinesLoop | internal/chunkers/structured.go:344-396 | the loop of the line branch returns exactly the line chunking of the content |
| Structured.ChunkLinesSound | internal/chunkers/structured.go:344-396 | the line chunks concatenate to the content with a newline after every line, their offsets are contiguous from 0 and span their texts, and a chunk exceeds maxSize only when it is one line |
| Structured.ChunkCsvLoop | internal/chunkers/structured.go:264-341 | the CSV branch returns exactly the CSV chunking of the content |
| Structured.CsvLines | internal/chunkers/structured.go:284-340 | the row loop over the data lines returns exactly the CSV chunking of those lines |
| Structured.CsvRow | internal/chunkers/structured.go:284-321 | one data line: a blank line is skipped, any other is added as a row |
| Structured.CsvChunksSound | internal/chunkers/structured.go:264-341 | every CSV chunk opens with the header and a non-blank data line, a later chunk records that line's index, there are no chunks iff every data line is blank, and the chunks without their headers reproduce the non-blank data lines |
| Structured.DataRowsEmpty | internal/chunkers/structured.go:292-294 | no data rows exactly when every data line is blank |
| Structured.HeaderOnly | internal/chunkers/structured.go:264-341 | a CSV file that is only its header line gives no chunks |
| Structured.ChunkStructured | internal/chunkers/structured.go:46-87 | empty content gives the empty result; otherwise the result names the chunker, counts its chunks and records the content size, and the line branch reproduces the content line by line |
| SqlChunker.DollarTag | internal/chunkers/sql.go:282-305 | the tag found is either empty or a `$…$` dollar-quote tag that starts the text, and it is the only prefix of the text that is one |
| SqlChunker.ExtractDollarTag | internal/chunkers/sql.go:282-305 | the builder loop returns exactly that tag |
| SqlChunker.MatchDollarTag | internal/chunkers/sql.go:308-319 | true exactly when the text starts with the tag |
| SqlChunker.Step | internal/chunkers/sql.go:185-270 | one lexer step always advances, and ends a statement exactly at a `;` read as plain SQL, leaving the flags unchanged there |
| SqlChunker.QuotedSemicolonDoesNotEnd | internal/chunkers/sql.go:237-262 | inside a string, a comment or a dollar quote a `;` never ends a statement |
| SqlChunker.LineCommentHidesBlockOpener | internal/chunkers/sql.go:212-235 | in the corrected lexer nothing inside a line comment opens a block comment |
| SqlChunker.AsWrittenLineCommentOpensBlock | internal/chunkers/sql.go:212-235 | as written, `/*` after `--` opens a block comment that outlives the line, so "--/*\na;b" is read as one statement, while the corrected lexer ends one at the `;` |
| SqlChunker.StatementsSound | internal/chunkers/sql.go:167-279 | the statements are the non-blank pieces of a split that loses no text, and every piece before the last ends at a `;` |
| SqlChunker.ParseStatements | internal/chunkers/sql.go:167-279 | the scanning loop returns exactly those statements |
| SqlChunker.Advance | internal/chunkers/sql.go:181-270 | one iteration moves forward and keeps the pieces found so far plus the pieces of the rest unchanged |
| SqlChunker.TrimQuotesInfix | internal/chunkers/sql.go:394-401 | trimming quotes keeps a contiguous piece of the identifier and removes only quoting characters from its ends |
| SqlChunker.CleanIdentifier | internal/chunkers/sql.go:394-401 | the cleaned identifier has no dot and is what follows the last dot of the quote-trimmed identifier |
| SqlChunker.CleanQualifiedName | internal/chunkers/sql.go:394-401 | a schema-qualified name keeps its table part |
| SqlChunker.CleanQuotedName | internal/chunkers/sql.go:394-401 | quoting characters around an unqualified name are dropped |
| SqlGroups.GroupStatements | internal/chunkers/sql.go:404-438 | the grouping loop and the ordered second loop return exactly the specified groups |
| SqlGroups.AddStatement | internal/chunkers/sql.go:410-428 | one iteration adds statement i to its table's group, or gives a function, procedure or table-less statement a group of its own |
| SqlGroups.OrderedGroups | internal/chunkers/sql.go:430-433 | the groups of the map come out in first-seen table order |
| SqlGroups.TableOrderSound | internal/chunkers/sql.go:404-438 | the table order lists each table once, covers every statement that has a table, and every listed table has statements |
| SqlGroups.TableOrderGrows | internal/chunkers/sql.go:404-438 | appending statements only adds tables after those already listed |
| SqlGroups.GroupedIsPermutation | internal/chunkers/sql.go:404-438 | the groups hold every statement exactly once |
| SqlGroups.GroupedShape | internal/chunkers/sql.go:404-438 | first one non-empty group per table in first-appearance order, holding only that table's statements, then one single-statement group per standalone statement |
| SqlGroups.BuildGroupContent | internal/chunkers/sql.go:441-450 | the group's statements joined by single newlines |
| SqlGroups.GroupContentLines | internal/chunkers/sql.go:441-580 | a split group's text is the group's text plus one newline |
| SqlGroups.ScoreZero | internal/chunkers/sql.go:464-518 | a dialect scores 0 exactly when none of its fragments occurs |
| SqlGroups.BestSound | internal/chunkers/sql.go:502-517 | the scan keeps the first of the highest scores |
| SqlGroups.DetectedNothingIff | internal/chunkers/sql.go:464-518 | no dialect is reported exactly when no dialect's fragment occurs in the upper-cased text |
| SqlGroups.DetectedIsBest | internal/chunkers/sql.go:464-518 | a reported dialect has the highest score of all |
| SqlGroups.CountPatterns | internal/chunkers/sql.go:474-478 | a pattern loop counts the fragments that occur |
| SqlGroups.ScoreTable | internal/chunkers/sql.go:464-499 | the score map holds every dialect's fragment count |
| SqlGroups.DetectDialect | internal/chunkers/sql.go:464-518 | the dialect reported for a given map visiting order |
| SqlGroups.ScanScores | internal/chunkers/sql.go:502-517 | the loop over the map returns the position and value of the first highest score |
| SqlGroups.RunsFlatten | internal/chunkers/sql.go:521-580 | the split chunks hold every statement once, in order |
| SqlGroups.RunsPartition | internal/chunkers/sql.go:521-580 | no split chunk is empty |
| SqlGroups.RunsBound | internal/chunkers/sql.go:521-580 | a split chunk of two or more statements stays within maxSize plus its final newline |
| SqlGroups.WriteStatement | internal/chunkers/sql.go:556-559 | writing a statement appends its text and one newline |
| SqlGroups.SplitLargeGroup | internal/chunkers/sql.go:521-580 | the split loop returns the greedy runs of statements, placed end to end from the base offset |
| SqlGroups.PlaceSound | internal/chunkers/sql.go:118-151 | placed chunks keep their text and metadata, are numbered in order, span their text and follow one another |
| SqlGroups.LayoutOverlapsAsWritten | internal/chunkers/sql.go:121-150 | as written, the offset grows by the group's text while split chunks carry one more newline each, so the next chunk starts inside the last split chunk |
| SqlGroups.LayoutContiguousFixed | internal/chunkers/sql.go:121-150 | with the offset grown by the chunks' width, the same sample's chunks follow on |
| SqlGroups.LayoutSound | internal/chunkers/sql.go:112-151 | corrected, the chunks are numbered in order, span exactly their text, follow one another and start at 0 |
| SqlGroups.AppendNumbered | internal/chunkers/sql.go:126-129 | the split chunks are appended renumbered from the count so far |
| SqlGroups.ChunkSql | internal/chunkers/sql.go:88-158 | empty content gives the empty result; otherwise the statements are parsed, classified, grouped and laid out with the detected dialect, and the chunks are numbered, span their text and follow one another |
| SqlGroups.EmitGroups | internal/chunkers/sql.go:112-151 | the loop over the groups returns the corrected layout |
| Sections.Number | internal/chunkers/hcl.go:112-116 | the split chunks are numbered on from the chunks already emitted and keep their text and offsets |
| Sections.AppendSpans | internal/chunkers/hcl.go:112-116 | the loop appends each split chunk indexed by the count before it |
| Sections.EmitUnit | internal/chunkers/hcl.go:110-134 | one block: split when larger than maxSize, one chunk when it fits and is not blank, nothing when blank |
| Sections.EmitUnits | internal/chunkers/hcl.go:101-137 | the loop over the blocks, with the offset advanced by each block's length, returns exactly the assembled chunks |
| Sections.UnitLaid | internal/chunkers/hcl.go:110-137 | the chunks of one block lie within its extent, numbered from the count so far |
| Sections.AssembleLaid | internal/chunkers/hcl.go:101-137 | the chunks are numbered in order, span their text, do not overlap and lie within the blocks' extent |
| Sections.AssembleText | internal/chunkers/hcl.go:101-137 | when each block's pieces rebuild it, every chunk is the text at its offsets |
| Sections.AssembleFits | internal/chunkers/hcl.go:101-137 | a chunk exceeds maxSize only when it is a single piece of its block |
| Sections.AssembleSound | internal/chunkers/hcl.go:101-137 | for blocks split by lines: numbered from 0, each chunk the text at its offsets in the blocks laid end to end, in order without overlap, and over maxSize only as one line of its block |
| Sections.LineChunksSound | internal/chunkers/hcl.go:361-430 | the fallback chunks joined with newlines are the text, numbered from 0, each the text at its offsets, in order without overlap, and over maxSize only as one line |
| Sections.LineChunksOf | internal/chunkers/hcl.go:361-430 | the fallback loop returns exactly the line chunks |
| Hcl.CanHandleIgnoresCase | internal/chunkers/hcl.go:30-50 | the MIME type and the file name are compared lower-cased, so upper-casing either does not change the answer |
| Hcl.CanHandleExamples | internal/chunkers/hcl.go:30-50 | a `.tf` name in any case and an HCL MIME type in any case are handled |
| Hcl.TerraformJsonNotHandled | internal/chunkers/hcl.go:42-47 | a Terraform JSON file (`.tf.json`) is not handled |
| Hcl.BlockEndFirst | internal/chunkers/hcl.go:253-294 | the block ends one past the first brace that brings the count back to zero after the first `{`, or at the end of the text when there is none |
| Hcl.ClosingBalances | internal/chunkers/hcl.go:253-294 | at the closing brace the count is back to zero, outside any string |
| Hcl.NoBraceRunsToEnd | internal/chunkers/hcl.go:253-294 | without a `{` after the start, the block runs to the end of the text |
| Hcl.QuotedInert | internal/chunkers/hcl.go:262-283 | inside a string, text without quotes or backslashes changes nothing: its braces are not counted |
| Hcl.QuotedLiteral | internal/chunkers/hcl.go:262-283 | a whole string literal, braces and all, leaves the scan where it was |
| Hcl.EscapedQuote | internal/chunkers/hcl.go:262-283 | inside a string an escaped quote neither ends the string nor counts |
| Hcl.FindBlockEnd | internal/chunkers/hcl.go:253-294 | the scanning loop returns exactly the block end |
| Hcl.DescribeLabels | internal/chunkers/hcl.go:196-210 | the block type is kept; the resource type is the first label of a `resource` or `data` block; the name is their second label or the first label of a provider, variable, output or module block; all else is empty |
| Hcl.ExtractedShape | internal/chunkers/hcl.go:160-250 | each block is the text between its offsets, starts at its header, carries its labels, ends just past its closing brace or at the end of the text, and a file with no blocks is one unknown block |
| Hcl.ExtractBlocks | internal/chunkers/hcl.go:160-250 | the extraction loop returns exactly those blocks |
| Hcl.ParsedChunksSound | internal/chunkers/hcl.go:58-145 | with a parse, the chunks are numbered from 0, each is the text at its offsets in the blocks laid end to end, in order without overlap, and over the limit only as one line of its block |
| Hcl.FallbackChunksSound | internal/chunkers/hcl.go:361-430 | after a parse failure the chunks joined with newlines are the text, numbered from 0, at their own offsets, in order, all unknown, and over the limit only as one line |
| Hcl.NoBlocksOneChunk | internal/chunkers/hcl.go:240-247 | a file without blocks that fits and is not blank is one unknown chunk holding the whole text |
| Hcl.Chunk | internal/chunkers/hcl.go:58-145 | the method returns exactly the specified chunking for the parser's result |
| Protobuf.DefinitionEnd | internal/chunkers/protobuf.go:251-272 | the end line lies after the start line and within the file |
| Protobuf.NoBraceRunsToEnd | internal/chunkers/protobuf.go:251-272 | without a `{` from the start line on, the definition runs to the last line |
| Protobuf.DefinitionEndCloses | internal/chunkers/protobuf.go:251-272 | a definition that stops before the last line stops after a line holding a `}` |
| Protobuf.DefinitionEndExamples | internal/chunkers/protobuf.go:251-272 | a one-line message ends after its own line, and nested braces are counted |
| Protobuf.FindDefinitionEnd | internal/chunkers/protobuf.go:251-272 | the nested loops return exactly the definition end |
| Protobuf.CommentStartSpec | internal/chunkers/protobuf.go:275-289 | the comments taken are the lines just above the definition: the first is a comment line, nothing between it and the definition stops the scan, and any comment line further up is cut off by a line that does |
| Protobuf.IncludeCommentsKeeps | internal/chunkers/protobuf.go:275-296 | the definition's text is only ever prefixed, and is unchanged when no comment line lies above it |
| Protobuf.CommentsAbove | internal/chunkers/protobuf.go:275-296 | the backward loop returns exactly the text with its comments |
| Protobuf.PreambleEnd | internal/chunkers/protobuf.go:152-173 | the preamble end is the largest line of a syntax, package, import or option statement, or 0 when there is none |
| Protobuf.FindPreambleEnd | internal/chunkers/protobuf.go:152-173 | the first loop returns exactly that line |
| Protobuf.NoDefinitionsUnknown | internal/chunkers/protobuf.go:240-245 | a file with no message, enum, service or preamble is one unknown definition holding the whole text |
| Protobuf.DefinitionsShape | internal/chunkers/protobuf.go:148-248 | every definition is the preamble, a message, an enum or a service, and its text ends with a newline |
| Protobuf.ExtractDefinition | internal/chunkers/protobuf.go:191-235 | one message, enum or service: its lines up to the balancing brace, with the comments above it |
| Protobuf.ExtractEach | internal/chunkers/protobuf.go:189-238 | the second loop appends exactly the definitions of the elements |
| Protobuf.ExtractDefinitions | internal/chunkers/protobuf.go:148-248 | the extraction returns exactly the specified definitions |
| Protobuf.ParsedChunksSound | internal/chunkers/protobuf.go:55-134 | with a parse, the chunks are numbered from 0, span their text at their offsets in the definitions laid end to end, and exceed the limit only as one line of their definition |
| Protobuf.FallbackChunksSound | internal/chunkers/protobuf.go:363-430 | after a parse error the chunks joined with newlines are the text, numbered from 0, at their own offsets, all unknown |
| Protobuf.Chunk | internal/chunkers/protobuf.go:55-134 | the method returns exactly the specified chunking for the parser's result |
| Latex.LevelOf | internal/chunkers/latex.go:14-24 | every sectioning command has a level from 0 (part) to 6 (subparagraph), and a name the table lacks gets 0 |
| Latex.RemoveLastSpec | internal/chunkers/latex.go:177-186 | an `\end` removes the most recent matching open environment and nothing else, and an unmatched one removes nothing |
| Latex.PopMatching | internal/chunkers/latex.go:177-186 | the backward search loop removes exactly that environment |
| Latex.TrackEnvs | internal/chunkers/latex.go:171-186 | the two loops over a line's matches push every opened environment, then remove each closed one |
| Latex.AnyWithin | internal/chunkers/latex.go:188-198 | the search loop reports whether any open environment is in the given set |
| Latex.OpenTruncates | internal/chunkers/latex.go:200-222 | a sectioning command flushes the section, keeps only the headings above its level, pushes its title, and starts a section one level below the command's |
| Latex.ProtectedIgnored | internal/chunkers/latex.go:188-226 | inside a verbatim, lstlisting, comment or minted environment a sectioning command is ordinary text |
| Latex.StackWithinLevel | internal/chunkers/latex.go:209-219 | the heading stack never holds more titles than the current level |
| Latex.SectionsCoverText | internal/chunkers/latex.go:139-232 | the sections, end to end, are the text with a newline after every line |
| Latex.SplitLine | internal/chunkers/latex.go:169-228 | one line of the loop is exactly one step of the specified splitter |
| Latex.SplitSections | internal/chunkers/latex.go:139-232 | the section loop returns exactly the specified sections |
| Latex.MathNeverSplits | internal/chunkers/latex.go:343-365 | a blank line inside a math environment never ends a paragraph |
| Latex.ParagraphsShorter | internal/chunkers/latex.go:307-375 | the paragraphs are non-empty, and joined with blank lines they are no longer than the section |
| Latex.SplitMath | internal/chunkers/latex.go:307-375 | the paragraph loop returns exactly the specified paragraphs |
| Latex.ChunksSound | internal/chunkers/latex.go:236-304 | the chunks are numbered from 0, span their text, come in order without overlap within the text and its final newline, and exceed the limit only as a single paragraph of their section |
| Latex.SectionUnits | internal/chunkers/latex.go:236-247 | each section becomes a unit with its paragraphs |
| Latex.Chunk | internal/chunkers/latex.go:64-128 | the method returns exactly the specified chunking |
| Outline.PartPlaced | internal/chunkers/docx.go:91-121 | the chunks of one section lie within the section's offsets |
| Outline.PartWithin | internal/chunkers/docx.go:97-121 | the chunks of one section are within the limit or are single paragraphs |
| Outline.PartChunksCases | internal/chunkers/docx.go:91-121 | a section gives no chunk exactly when its text is blank, and one chunk holding its trimmed text at the section's offsets when that fits |
| Outline.ChunkPartsPlaced | internal/chunkers/docx.go:84-122 | the chunks are numbered 0, 1, ... in order, lie within their sections and do not overlap |
| Outline.ChunkPartsWithin | internal/chunkers/docx.go:84-122 | only a single paragraph of a section may exceed the limit |
| Outline.ChunkPart | internal/chunkers/docx.go:91-121 | one section of the loop: dropped when blank, kept whole when it fits, its paragraphs packed otherwise |
| Outline.ChunkAll | internal/chunkers/docx.go:84-122 | the loop over the sections returns exactly the specified chunks |
| Outline.PoppedPrefix | internal/chunkers/docx.go:357-359 | popping leaves the first level - 1 titles, or the whole stack when it is shorter |
| Outline.PopHeadings | internal/chunkers/docx.go:357-359 | the `for len(headingStack) >= level` loop returns exactly that prefix |
| Outline.HeadingOpens | internal/chunkers/docx.go:349-369 | a heading saves the open section when it is not blank and opens a new one at the current offset holding the title; the stack keeps the titles above its level, ends with its title, and the path is the stack joined with " > " |
| Outline.SectionsLaid | internal/chunkers/docx.go:328-397 | every section holds non-blank text that is the document's text between its offsets, each element adding its length plus 2, and the sections come in order without overlap |
| Outline.SectionsStacked | internal/chunkers/docx.go:356-366 | the path of every section is its heading stack joined with " > ", and the stack is no deeper than the level |
| Outline.AddItem | internal/chunkers/docx.go:344-376 | one element of the loop is exactly one step of the specified builder |
| Outline.ExtractSections | internal/chunkers/docx.go:328-397 | the builder loop returns exactly the specified sections |
| Outline.PartsOrdered | internal/chunkers/docx.go:328-397 | sections laid out in the document give parts in order, each spanning its text |
| Outline.ChunkItemsSound | internal/chunkers/docx.go:43-131 | the chunks of a document are numbered 0, 1, ... in order without overlap, within the document's extent, and only a single paragraph may exceed the limit |
| Docx.CanHandleAnyCase | internal/chunkers/docx.go:32-35 | a `.docx` name in any case is handled |
| Docx.CannotHandleDoc | internal/chunkers/docx.go:32-35 | a plain-text `.doc` file is not handled |
| Docx.ExtractParagraphText | internal/chunkers/docx.go:400-408 | the two loops concatenate the texts of every run, then trim |
| Docx.EscapeUnchanged | internal/chunkers/docx.go:437-443 | a value is left as it is exactly when it holds no comma, quote or newline; otherwise it is quoted with its quotes doubled |
| Docx.UnescapeEscape | internal/chunkers/docx.go:437-443 | reading an escaped field back gives the cell text |
| Docx.CsvLines | internal/chunkers/docx.go:411-434 | the CSV text has one line per row, each ending in a newline and holding the row's escaped cell texts separated by commas, and no line breaks inside a line unless a cell text has one |
| Docx.CellTextOf | internal/chunkers/docx.go:417-426 | a cell's text is its non-empty paragraph texts joined by single spaces |
| Docx.TableToCsv | internal/chunkers/docx.go:411-434 | the row loop returns exactly the CSV text |
| Docx.RowFields | internal/chunkers/docx.go:415-428 | the cell loop gives each cell's text, CSV-escaped, in the order of the row's cells |
| Docx.ParagraphItemsOf | internal/chunkers/docx.go:344-376 | the paragraph loop gives a heading for a styled paragraph with a level and a paragraph for any other non-blank text |
| Docx.TableItemsOf | internal/chunkers/docx.go:379-387 | the table loop gives each non-blank table, after all paragraphs, as a CSV paragraph |
| Docx.ChunkDocxSound | internal/chunkers/docx.go:43-131 | empty input gives the empty result and an unreadable document an error; otherwise the chunks are numbered 0, 1, ... in order without overlap within the document's text, and only a single paragraph of a section may exceed the limit |
| Docx.Chunk | internal/chunkers/docx.go:43-131 | the method returns exactly the specified chunking |
| Odt.ItemsFromElements | internal/chunkers/odt.go:382-410 | every item the builder sees comes from one element of the document |
| Odt.ElementsKept | internal/chunkers/odt.go:382-410 | every heading with a positive outline level, and every other non-empty element, is kept |
| Odt.ChunkOdtSound | internal/chunkers/odt.go:44-131 | empty input gives the empty result and an unreadable document an error; otherwise the chunks are numbered 0, 1, ... in order without overlap within the document's text, and only a single paragraph of a section may exceed the limit |
| Odt.Chunk | internal/chunkers/odt.go:44-131 | the method returns exactly the specified chunking |
| Pdf.Words | internal/chunkers/pdf.go:288 | the fields are the maximal runs of non-space characters, each a word |
| Pdf.CleanUpIsClean | internal/chunkers/pdf.go:286-289 | joining the fields with single spaces leaves no leading, trailing or doubled space |
| Pdf.Step | internal/chunkers/pdf.go:238-284 | one step of the scan always advances within the stream |
| Pdf.ExtractClean | internal/chunkers/pdf.go:229-290 | the extracted text, as written and corrected, has no leading, trailing or doubled space |
| Pdf.NoParenthesesNoText | internal/chunkers/pdf.go:229-290 | a content stream without a literal string has no text |
| Pdf.OutsideIgnored | internal/chunkers/pdf.go:238-284 | operators outside literal strings contribute nothing |
| Pdf.EscapedParenthesis | internal/chunkers/pdf.go:262-276 | an escaped parenthesis is text: `(x\)y)` reads as `x)y` |
| Pdf.DecodesEscapes | internal/chunkers/pdf.go:262-276 | `\n`, `\r`, `\t`, `\(`, `\)` and `\\` each decode to one character; as written the same holds for all but `\\` |
| Pdf.AsWrittenLosesString | internal/chunkers/pdf.go:242-248 | as written, the string `(a\\)` never closes, because its `)` follows the second backslash of the `\\` escape, so the string is lost; corrected, it reads as `a\` |
| Pdf.ExtractText | internal/chunkers/pdf.go:229-290 | the scanning loop returns exactly the corrected extraction |
| Pdf.Pages | internal/chunkers/pdf.go:178-226 | page i (from 1) holds the text of its content stream, or nothing when the stream could not be read |
| Pdf.ExtractPages | internal/chunkers/pdf.go:178-226 | the page loop returns exactly those pages |
| Pdf.FirstField | internal/chunkers/pdf.go:403-404 | the first field is the line up to its first space |
| Pdf.TrimDots | internal/chunkers/pdf.go:405-406 | trimming removes exactly the trailing dots |
| Pdf.DetectHeadingCases | internal/chunkers/pdf.go:393-425 | a line is a heading exactly when its trimmed length is between 3 and 200 and it is numbered, a chapter-like title, or an upper-case line shorter than 80; only numbered headings go below level 1, at their number's segment count |
| Pdf.NumberLevelOne | internal/chunkers/pdf.go:400-411 | "1. Intro" is level 1 |
| Pdf.NumberLevelTwo | internal/chunkers/pdf.go:400-411 | "1.2 Bg" is level 2 |
| Pdf.NumberLevelThree | internal/chunkers/pdf.go:400-411 | "1.2.3 Details" is level 3 |
| Pdf.AddOpens | internal/chunkers/pdf.go:306-352 | once a line has been read the open section holds non-blank text |
| Pdf.FallbackUnreachable | internal/chunkers/pdf.go:363-387 | the fallback never adds a section: every non-blank page has a non-blank line, and that line leaves a non-blank open section |
| Pdf.SectionsLaid | internal/chunkers/pdf.go:292-389 | every section holds non-blank text that is the document's text between its offsets, a heading adding its length plus 2 and another line its length plus 1, and the sections come in order without overlap |
| Pdf.SectionsHeaded | internal/chunkers/pdf.go:315-352 | text before the first heading forms a section with no heading, level or path; every other section's path ends with its own heading |
| Pdf.HeadingOpens | internal/chunkers/pdf.go:315-338 | a heading line saves the open section when not blank and opens a section at the current offset; the stack keeps the titles above its level and ends with its title |
| Pdf.AddEntry | internal/chunkers/pdf.go:306-352 | one line of the loop is exactly one step of the specified builder |
| Pdf.AddPage | internal/chunkers/pdf.go:298-353 | the lines of one page are read into the builder in order |
| Pdf.ReadPages | internal/chunkers/pdf.go:298-354 | the page loop reads every non-blank line of every page |
| Pdf.JoinPages | internal/chunkers/pdf.go:364-370 | the fallback loop writes each non-blank page followed by a blank line |
| Pdf.BuildSections | internal/chunkers/pdf.go:292-389 | the method returns exactly the specified sections |
| Pdf.ChunkPdfSound | internal/chunkers/pdf.go:54-141 | empty input gives the empty result and an unparsable file an error; otherwise the chunks are numbered 0, 1, ..., each carries the page count and the extraction quality, and only a single paragraph of a section may exceed the limit |
| Pdf.Chunk | internal/chunkers/pdf.go:54-141 | the method returns exactly the specified chunking |
| Notebook.CanHandleByName | internal/chunkers/notebook.go:32-36 | a notebook is accepted exactly when its MIME type is `application/x-ipynb+json` or its name ends in `.ipynb`, whatever the case; the JSON clause adds nothing |
| Notebook.Indexed | internal/chunkers/notebook.go:190-222 | every cell keeps its content and gets its own position as `Index` |
| Notebook.GroupSound | internal/chunkers/notebook.go:190-222 | the groups concatenate back to the cells, each is non-empty and of one cell type, and neighbouring groups differ in type |
| Notebook.GroupCellsSound | internal/chunkers/notebook.go:190-222 | no groups exactly for no cells; otherwise the groups concatenate to the indexed cells and are maximal runs of one cell type |
| Notebook.GroupCellsOf | internal/chunkers/notebook.go:190-222 | the grouping loop computes the grouping whose soundness is proved |
| Notebook.KernelPrecedence | internal/chunkers/notebook.go:176-188 | the kernel spec name wins over its display name, which wins over the language name; the kernel is empty only when all three are |
| Notebook.ChunkTypes | internal/chunkers/notebook.go:349-359 | code cells give code chunks, markdown cells markdown chunks, every other cell type prose, and never structured or unknown |
| Notebook.DocumentMeta | internal/chunkers/notebook.go:338-347 | no document metadata exactly for an empty heading; otherwise the heading at level 1 |
| Notebook.Hashes | internal/chunkers/notebook.go:324-336 | the count of leading `#` characters of a line, and the character after them is not `#` |
| Notebook.MatchHeading | internal/chunkers/notebook.go:324-336 | a matched heading line has a level from 1 to 6 equal to its leading `#` count, and a heading text trimmed of whitespace |
| Notebook.ExtractHeading | internal/chunkers/notebook.go:324-336 | the heading of the first matching line with a level from 1 to 6, or ("", 0) exactly when no line matches |
| Notebook.MatchHeadingLevelTwo | internal/chunkers/notebook.go:324-336 | `## Setup` is the level-2 heading `Setup` |
| Notebook.MatchHeadingRejects | internal/chunkers/notebook.go:324-336 | seven `#` are no heading, and a `#` not followed by whitespace is none either |
| Notebook.OutputTextCases | internal/chunkers/notebook.go:303-322 | a stream gives its text, a result or display its `text/plain` data (nothing without it), an error "name: value" only when it has a name, and any other output nothing |
| Notebook.Line | internal/chunkers/notebook.go:237-240 | the text followed by a newline unless it already ends with one |
| Notebook.CellBlockBlank | internal/chunkers/notebook.go:225-273 | a cell's block in a group is blank exactly when it is not a code cell and its source is blank |
| Notebook.GroupTextBlank | internal/chunkers/notebook.go:86-90 | a group is skipped exactly when it has no code cell and all its sources are blank |
| Notebook.GroupHeadingFirst | internal/chunkers/notebook.go:234-238 | the group heading is that of the first markdown cell with a heading, and empty exactly when no cell has one |
| Notebook.GroupExecCountLast | internal/chunkers/notebook.go:266-269 | the execution count is that of the last code cell that has one, and 0 when none has |
| Notebook.GroupOutputTypesOf | internal/chunkers/notebook.go:251-279 | an output type is reported exactly when some code cell of the group has an output of that type |
| Notebook.CellPiece | internal/chunkers/notebook.go:373-401 | a cell whose trimmed source is non-empty gives a non-empty text |
| Notebook.WriteOutputs | internal/chunkers/notebook.go:250-263 | the output loop writes each output's text under a marker and collects the set of output types |
| Notebook.WriteCell | internal/chunkers/notebook.go:229-272 | one cell's block and output types in `buildGroupContent` |
| Notebook.BuildGroupContent | internal/chunkers/notebook.go:225-284 | the group's text, first heading, output types, whether any code cell has an output, and the last execution count, as the group lemmas characterise them |
| Notebook.WriteTail | internal/chunkers/notebook.go:392-399 | the outputs appended to a code cell's text when a group is split |
| Notebook.CellText | internal/chunkers/notebook.go:373-401 | a cell's own trimmed text, fenced and followed by its outputs for code |
| Notebook.SplitCellByLines | internal/chunkers/notebook.go:440-508 | an over-long cell is packed line by line into pieces laid out from the cell's offset |
| Notebook.ChunkCell | internal/chunkers/notebook.go:366-432 | the chunks of one cell and how far it moves the offset |
| Notebook.SplitLargeGroup | internal/chunkers/notebook.go:361-437 | an over-long group becomes the chunks of its non-blank cells, in order, each split by lines when too long |
| Notebook.ChunkGroup | internal/chunkers/notebook.go:75-123 | the chunks of one group and an advance equal to its trimmed text length |
| Notebook.ChunkNotebookSound | internal/chunkers/notebook.go:44-134 | empty input gives no chunks, undecodable JSON an error; otherwise chunks numbered 0, 1, ..., each non-empty, within the limit unless a single over-long line, spanning its text, typed by its cell type, with the notebook's kernel and a level-1 heading only |
| Notebook.Chunk | internal/chunkers/notebook.go:44-134 | the chunking loop computes the chunking whose soundness is proved |
| Xml.CanHandleCases | internal/chunkers/xml.go:30-57 | every `+xml` MIME type and every name ending in one of the six extensions is accepted whatever its case; anything else only as `application/xml`, `text/xml` or the hint `xml` |
| Xml.ElementEnd | internal/chunkers/xml.go:246-285 | the scan ends the element after its opening `<` and within the text |
| Xml.FindElement | internal/chunkers/xml.go:231-289 | a found element starts at or after the search offset and ends within the content |
| Xml.ExtractEmpty | internal/chunkers/xml.go:231-241 | the extracted text is empty exactly when `<name` does not occur at or after the search offset |
| Xml.EndAfterTag | internal/chunkers/xml.go:246-285 | the element never ends before the end of its opening name |
| Xml.FindElementSound | internal/chunkers/xml.go:231-285 | the element found starts at an occurrence of `<name` and, for a plain name, does not end before that name does |
| Xml.ExtractSpan | internal/chunkers/xml.go:231-289 | a non-empty result is the source slice between the found start and end, starting at `<name` |
| Xml.ExtractStartsWithTag | internal/chunkers/xml.go:231-289 | a non-empty result is a slice of the source starting at an occurrence of `<name`, and starts with `<name` for a plain name |
| Xml.ScanElement | internal/chunkers/xml.go:246-288 | the scanning loop ends where the element-end function says |
| Xml.LocateElement | internal/chunkers/xml.go:231-289 | the search finds the element the element-finding function describes |
| Xml.ExtractElement | internal/chunkers/xml.go:231-289 | `extractElementContent` returns the slice the element-finding function describes, or nothing |
| Xml.ParseStep | internal/chunkers/xml.go:159-213 | one token never moves the search offset backwards or past the content |
| Xml.ParseStepInOrder | internal/chunkers/xml.go:191-213 | searching from after the element just taken keeps the elements in document order |
| Xml.ParseRunInOrder | internal/chunkers/xml.go:150-216 | over any token stream the taken elements are in document order, ending before the search offset |
| Xml.ParseElementsSound | internal/chunkers/xml.go:137-229 | the elements are non-empty, in document order without overlap, and there are none exactly for empty content (otherwise the whole document stands for its root) |
| Xml.SiblingsSameName | internal/chunkers/xml.go:197-204 | for `<rt><a/><a x/></rt>` the code as written takes the first `a` twice; searching after it takes both siblings |
| Xml.Step | internal/chunkers/xml.go:159-213 | one token of the parsing loop, each search starting after the element taken before it |
| Xml.ParseXmlElements | internal/chunkers/xml.go:137-229 | the parsing loop computes the corrected element list whose order is proved |
| Xml.ChildGroupsSound | internal/chunkers/xml.go:300-353 | the groups hold the children's texts in order and nothing else, each has text and at least one child and fits the limit unless a single child, and when no child is empty every child is counted once and every group of two or more children fits the limit |
| Xml.GroupChildren | internal/chunkers/xml.go:300-353 | the grouping loop of `splitLargeElement` computes those groups |
| Xml.LayGroups | internal/chunkers/xml.go:312-350 | one chunk per group |
| Xml.LayGroupsSound | internal/chunkers/xml.go:312-350 | the group chunks are contiguous from the element's offset, each with its group's text and child count as `RecordCount` |
| Xml.LargeChunksGood | internal/chunkers/xml.go:292-414 | a split element gives contiguous, non-empty, structured chunks; a line chunk is within the limit or a single over-long line, and with no empty child text every group of two or more children is within the limit |
| Xml.ChunkXmlSound | internal/chunkers/xml.go:65-128 | empty content gives no chunks; otherwise chunks numbered 0, 1, ..., each non-empty and structured, spanning its text, within the limit unless a single over-long line or a group of children, and, when no child text is empty, a group of two or more children is within the limit too |
| Xml.LayGroupsOut | internal/chunkers/xml.go:312-350 | the loop laying out the groups computes the group chunks |
| Xml.SplitLargeElement | internal/chunkers/xml.go:292-414 | `splitLargeElement`: groups of children when there are more than one, otherwise line packing |
| Xml.ChunkElement | internal/chunkers/xml.go:85-124 | the chunks of one element: split when too long, skipped when blank, otherwise the element itself |
| Xml.Chunk | internal/chunkers/xml.go:65-135 | the chunking loop computes the chunking whose soundness is proved |
| Log.CanHandleCases | internal/chunkers/log.go:67-89 | a log is accepted exactly when its MIME type is one of the two log types, its name ends in `.log`, `.logs` or `.out`, or its hint is `log`, `logs` or `accesslog`, whatever the case |
| Log.Canonical | internal/chunkers/log.go:308-321 | the switch maps a level to one of the five canonical levels or leaves it as it is |
| Log.NormalizeLevelSound | internal/chunkers/log.go:305-322 | the normalized level is one of FATAL, ERROR, WARN, INFO, DEBUG or the trimmed, upper-cased input, and normalizing twice changes nothing |
| Log.BestMax | internal/chunkers/log.go:131-139 | the search returns INFO with count 0 for no levels, otherwise a tallied level with its count, and no level has a higher count |
| Log.PredominantSound | internal/chunkers/log.go:131-139 | the predominant level is INFO when nothing was tallied, otherwise a tallied level that no other level outnumbers |
| Log.LevelsOf | internal/chunkers/log.go:190-191 | the level of every line, in order |
| Log.TallySound | internal/chunkers/log.go:177-196 | a chunk's tally holds its lines' levels and counts its ERROR and FATAL lines; its span is unset exactly when no line has a time, and otherwise runs from the earliest time to the latest |
| Log.BlockJoin | internal/chunkers/log.go:219-221 | writing the lines each with its newline is joining them with newlines plus one final newline |
| Log.BlockSplit | internal/chunkers/log.go:115-221 | writing back every line of the split gives the content followed by one newline |
| Log.FlushLaid | internal/chunkers/log.go:125-165 | a flush closes `current` as the next chunk, numbered and contiguous, ending at the offset, and keeps the chunks before it |
| Log.StepSound | internal/chunkers/log.go:167-222 | one line keeps the chunks laid end to end over the lines so far, each within the limit or a single over-long line, and, tallied after the flush, each described by its own lines |
| Log.RunSound | internal/chunkers/log.go:167-222 | the loop keeps that layout, size bound and description over all lines |
| Log.LogChunksSound | internal/chunkers/log.go:167-226 | the loop and its last flush produce chunks laid end to end over the lines, sized and described by their own lines |
| Log.ChunkLogSound | internal/chunkers/log.go:97-235 | no chunks for empty content; otherwise numbered, contiguous chunks from 0 whose texts are the content and one newline, each structured, with the detected format, within the limit unless a single over-long line, described by its own lines, and every chunk but the last at least 500 bytes |
| Log.FirstLine | internal/chunkers/log.go:167-222 | the state after a first line with no level or time |
| Log.ErrorStepAsWritten | internal/chunkers/log.go:188-214 | as written, the error line's tally goes to the chunk closed before it |
| Log.ErrorStepFixed | internal/chunkers/log.go:188-214 | tallied after the flush, the error line's tally goes with its own text |
| Log.ErrorCountedEarly | internal/chunkers/log.go:188-214 | a chunk over half the limit followed by an error line: as written the closed chunk reports the error and the error line's chunk reports none, at level INFO |
| Log.ErrorCountedWithLine | internal/chunkers/log.go:188-214 | tallied after the flush, the error and the level ERROR go with the error line's chunk |
| Log.PredominantSingle | internal/chunkers/log.go:131-139 | a single tallied level is the predominant one |
| Log.EarlyTimeEnd | internal/chunkers/log.go:177-186 | a single line with a time before Go's zero time starts the span, but as written the span's end stays zero; tracking the end from the first time ends it there |
| Log.PickPredominant | internal/chunkers/log.go:131-139 | the search loop picks the predominant level |
| Log.FlushChunk | internal/chunkers/log.go:125-165 | `flushChunk` appends `current` as the next chunk with its tally as metadata |
| Log.AddLine | internal/chunkers/log.go:167-222 | one iteration: the flush decision, then the line written and tallied |
| Log.Chunk | internal/chunkers/log.go:97-235 | the chunking loop computes the corrected chunking whose soundness is proved |
| Search.ClampInt | internal/mcp/tools_search.go:425-433 | the result lies within the range when it is one, is the value itself inside it, the lower bound below it and the upper bound above it |
| Search.ClampIdempotent | internal/mcp/tools_search.go:425-433 | clamping a clamped value to the same range changes nothing |
| Search.HasPathPrefixUnder | internal/mcp/tools_search.go:337-351 | once cleaned, a path has the prefix exactly when it is the prefix or lies under it, or the prefix is the root and the path is absolute |
| Search.SiblingIsNoPrefix | internal/mcp/tools_search.go:337-351 | `/a/bc` does not have the prefix `/a/b`, while `/a/b/c` does |
| Search.ExtKey | internal/mcp/tools_search.go:312-319 | an extension key is non-empty, lower-case and dot-prefixed, and is the trimmed, lower-cased value with a dot added exactly when it had none |
| Search.NormalizeExtensionSet | internal/mcp/tools_search.go:310-323 | an error, with its message, exactly when some value is blank; otherwise the set of the values' keys |
| Search.AscendingUnique | internal/mcp/tools_search.go:325-335 | two ascending key lists with the same members are the same list, so the sorted keys are determined by the set |
| Search.SortedSetKeys | internal/mcp/tools_search.go:325-335 | nothing for an empty set; otherwise every key of the set exactly once, in ascending order |
| Search.Snippet | internal/mcp/tools_search.go:364-385 | offsets are clamped to the content; a start past its end and an empty range are the two errors; otherwise a prefix of the range of at most `maxChars` characters, flagged exactly when cut |
| Search.ExtractSnippet | internal/mcp/tools_search.go:353-386 | a cached file gives its snippet with the cache unchanged; an unreadable file gives the read error; a read file is cached and gives its snippet |
| Search.CacheTransparent | internal/mcp/tools_search.go:353-363 | with a cache that holds what reading gives, caching a fresh read keeps it so, and a snippet never depends on the cache |
| Search.CandidateK | internal/mcp/tools_search.go:176-185 | without filters the graph is asked for `topK` candidates; with any filter, ten times `topK` kept within 100 and 500 |
| Search.CandidatesCoverTopK | internal/mcp/tools_search.go:137-185 | for the accepted `topK` from 1 to 50, the candidate pool is never smaller than `topK` |
| Search.Kept | internal/mcp/tools_search.go:191-214 | the candidates that pass are no more than all the candidates |
| Search.KeptSound | internal/mcp/tools_search.go:191-214 | a candidate is kept exactly when it is remembered, under the path prefix when one is given, of an included and not excluded extension, and scores at least the minimum when one is given |
| Search.KeptPrefix | internal/mcp/tools_search.go:191-244 | what passes among the first candidates begins what passes among all of them |
| Search.KeptTaken | internal/mcp/tools_search.go:240-243 | where the loop stops, the hits are the first `topK` candidates that pass, or all of them |
| Search.NewHit | internal/mcp/tools_search.go:216-238 | a passing candidate becomes its hit with its snippet or snippet error, read through a cache that stays faithful |
| Search.CollectHits | internal/mcp/tools_search.go:191-244 | the search loop collects the first `topK` candidates that pass, in the search's order |
| Search.RankHits | internal/mcp/tools_search.go:246-248 | each hit is ranked by its position, from 1, and is otherwise unchanged |
| Search.SelectHits | internal/mcp/tools_search.go:186-248 | the returned hits are the first `topK` candidates that pass, in order, ranked from 1, each with its snippet when snippets are asked for |
| Remember.NormalizeExtension | cmd/remember/remember.go:411-416 | an entry is trimmed and dot-prefixed: empty exactly when blank, otherwise starting with a dot, unchanged past the trim when it already had one |
| Remember.NormalizeIdempotent | cmd/remember/remember.go:409-419 | normalising an entry twice gives what normalising once gives |
| Remember.NormalizeExtensions | cmd/remember/remember.go:409-419 | the loop normalises every entry in place and keeps the length |
| Remember.FirstAt | cmd/remember/remember.go:390-406 | where an entry first occurs in a list |
| Remember.MergedSound | cmd/remember/remember.go:390-406 | the merge has no repeats, holds exactly the entries given, and keeps them in the order of their first occurrence |
| Remember.MergedExtends | cmd/remember/remember.go:390-406 | merging more entries only adds after what was merged before |
| Remember.MergedNoRepeats | cmd/remember/remember.go:390-406 | a list without repeats merges to itself |
| Remember.MergeUnique | cmd/remember/remember.go:390-406 | the two loops compute the merge of `base` followed by `additions` |
| Remember.UpdatedSound | cmd/remember/remember.go:252-286 | a `set-*` flag replaces the list whatever it was; an `add-*` flag alone keeps the list's entries first and adds each new entry once; no flag leaves the list as it was |
| Remember.UpdatedConfig | cmd/remember/remember.go:240-294 | skip-hidden and vision are the flags' values when given and the existing ones otherwise |
| Remember.UpdatedConfigBase | cmd/remember/remember.go:240-245 | without an existing configuration the update starts from the empty one, and no flags give back the existing configuration |
| Remember.BuildUpdatedConfig | cmd/remember/remember.go:240-294 | the existing configuration, or an empty one, with each given flag applied |
| Remember.ApplyListFlag | cmd/remember/remember.go:252-271 | one `set-*`/`add-*` pair applied to a list |
| Remember.ApplyAddFlag | cmd/remember/remember.go:273-286 | one `add-*` flag applied to a list |
| Remember.BuildPathConfig | cmd/remember/remember.go:325-387 | a new path's configuration is the defaults with each given flag applied, vision set only by its flag, skip-hidden by its flag or the default |
| Watcher.SwapSuffix | internal/watcher/watcher.go:514 | a name ends in `.swp`, `.swo` or `.swn` exactly when its last four characters are a dot, `s`, `w` and one of `p`, `o`, `n` |
| Watcher.HashTildeAffixes | internal/watcher/watcher.go:524-530 | the auto-save test is a `#` at both ends and the backup test a final `~` |
| Watcher.IsEditorNoise | internal/watcher/watcher.go:510-534 | a path is editor noise exactly when its base name is |
| Watcher.NoiseInDirectory | internal/watcher/watcher.go:510-534 | a file in any directory is noise exactly when its own name is |
| Watcher.NoiseExamples | internal/watcher/watcher.go:510-534 | swap files, the probe `4913`, auto-save and backup names are noise, and so is a lone `#` |
| Watcher.CleanExamples | internal/watcher/watcher.go:510-534 | hidden names, a leading `~`, a half auto-save name, `.bak` and `14913` are not noise |
| Watcher.PhrasesListed | internal/watcher/watcher.go:548-550 | the three phrase tests are the tests against the three listed phrases |
| Watcher.LimitErrorPhrases | internal/watcher/watcher.go:543-551 | no error is no limit error, and a message is one exactly when it contains one of the three phrases |
| Watcher.LimitEmbedded | internal/watcher/watcher.go:543-551 | a limit phrase anywhere inside a message makes it a limit error |
| Watcher.ShortIsNoLimit | internal/watcher/watcher.go:543-551 | a message shorter than every phrase is never a limit error |
| Watcher.LimitExamples | internal/watcher/watcher.go:543-551 | permission and lookup failures are not limit errors |
| Watcher.Accepted | internal/watcher/watcher.go:165-188 | the walk tries no more directories than it visits |
| Watcher.AcceptedSound | internal/watcher/watcher.go:165-188 | a directory gets a watch attempt exactly when the walk visits it and it is the root or the path filter accepts it |
| Watcher.Failures | internal/watcher/watcher.go:179-185 | the errors counted by the walk are at most the directories it tries |
| Watcher.FailuresZero | internal/watcher/watcher.go:179-216 | the walk counts no error exactly when no attempt fails for a reason other than the watch limit |
| Watcher.AddedSound | internal/watcher/watcher.go:165-204 | fsnotify gains a watch on exactly the tried directories whose `Add` succeeds |
| Watcher.AfterWalkCounts | internal/watcher/watcher.go:179-216 | the walk adds one error per failure other than the limit, and degrades exactly when some attempt hits the limit |
| Watcher.WalkSnoc | internal/watcher/watcher.go:179-185 | one more tried directory adds its outcome to the failure count and the limit test |
| Watcher.CoveredByAncestor | internal/watcher/watcher.go:494-504 | a path under a nested root stays covered when that root is forgotten and a root above it is still watched |
| Watcher.Watcher.constructor | internal/watcher/watcher.go:111-137 | a new watcher watches nothing, has zero statistics, and is neither running nor stopped |
| Watcher.Watcher.AddWatch | internal/watcher/watcher.go:203-216 | a successful `Add` adds the watch; a limit failure sets degraded mode and is not reported; any other failure is reported; nothing else changes |
| Watcher.Watcher.Watch | internal/watcher/watcher.go:140-200 | resolution, stat and not-a-directory failures return their messages and change nothing; otherwise the root is recorded, the accepted directories whose `Add` succeeds are watched, each hard failure counts an error, and a limit failure degrades |
| Watcher.Watcher.RemoveWatchesUnder | internal/watcher/watcher.go:229-234 | every watch on the root or beneath it is removed, and no other |
| Watcher.Watcher.Unwatch | internal/watcher/watcher.go:219-237 | a resolution failure changes nothing; otherwise the root is forgotten and every watch on it or beneath it is removed |
| Watcher.Watcher.WatchedPaths | internal/watcher/watcher.go:240-249 | every watched root exactly once |
| Watcher.Watcher.IsUnderWatchedPath | internal/watcher/watcher.go:494-504 | a path is covered exactly when it is a watched root or lies beneath one |
| Watcher.Watcher.Start | internal/watcher/watcher.go:252-266 | a running watcher refuses with its message and is unchanged; otherwise it starts running |
| Watcher.Watcher.Stop | internal/watcher/watcher.go:269-291 | only the first call acts: it stops a running watcher and reports the close outcome, and a later call changes nothing and reports nothing |
| Watcher.StartTwice | internal/watcher/watcher.go:252-266 | starting twice: the second start is refused and the watcher keeps running |


## Left out

- Regular expressions, the XML, JSON, ZIP and PDF decoders, `hclparse`, the protobuf parser, `mime`, `http.DetectContentType`, SQLite and tree-sitter: their results are inputs of the model (token streams, parsed elements, classifier functions, maps).
- Go strings are `seq<char>` with one character per byte; lengths and offsets are exact for ASCII text. Multi-byte UTF-8, Unicode whitespace and Unicode case folding are not modelled; rune counts in `extractSnippet` are character counts.
- Context cancellation (`ctx.Done()`), goroutines, channels, mutexes and every other form of concurrency.
- `TokenEstimate`, warnings returned by the chunkers, and `formatSize` (floating point).
- Clocks are a `now` parameter; `time.Time` values are integers, 0 standing for the zero time.
- Go map iteration order is random: where it decides a result (predominant log level, dialect scores, output-type lists), the model fixes an order (first seen) or uses a set, and says so in the member's comment.
- Pdf.ChunkPdfSound: states numbering and the size bound only; the root section's text joins lines with "\n" counted twice per break, so its offsets can pass the section's end, and that layout is not stated.
- Notebook.ChunkNotebookSound: output types are a set (the group path iterates a map, the split path keeps a list with repeats); the order of offsets between groups is not proved.
- Notebook.SplitCellByLines: the split chunks are laid out by their lengths; the one-byte drift per flush against the cell's text is modelled as written.
- Xml.ParseElements: `currentPath` is modelled by its length; `extractChildElements` (which rebuilds child elements from decoder tokens) is an input `childrenOf`.
- Log.ChunkLog: the format, each line's level and each line's time are inputs; the last chunk ends one byte past the content because every line, the last included, is written with a newline (stated in ChunkLogSound).
- Search.SelectHits: `filepath.Clean`, the embeddings provider, the graph search and `isPathRemembered` are inputs; scores are reals; `parseOptionalMinScore`, the argument decoding and `renderSearchMemoryText` are not modelled.
- Search.HasPathPrefixUnder: `filepath.Clean` is a parameter; the lemma holds for any cleaning function.
- Remember.BuildUpdatedConfig: `PathConfig.Clone` is a value copy; cobra flag parsing is replaced by a record of which flags were given.
- Watcher.Watcher.Watch: `filepath.Abs`, `os.Stat`, the order in which `WalkDir` visits directories and its `SkipDir` pruning, the registry's path-config filter and fsnotify's `Add` are parameters; the walk is a fold over the visited directories, and since its callback never returns an error, the walk-error return cannot happen and is not modelled.
- Watcher.Watcher.Unwatch: fsnotify's `Remove` errors are ignored by the code and not modelled.
- Watcher: event processing, the coalescer, `Stats`, `Errors`, `CollectMetrics` and the content hash are not modelled; `shouldIgnoreFile` is an alias of `isEditorNoise`.
- AnalysisQueue.Queue.Receive: the channel hand-off to workers is a sequence pop.
- Structured.ChunkStructured: the JSON branch (`encoding/json`) is an input.
- Ingest.Probe: the language detector is not part of this model.
- internal/registry/types.go is not part of this model; the `PathConfig` fields are taken from their uses.
- internal/chunkers/chunker.go is not part of this model; the default chunk size of 8000 is taken from its test.
- Registry.Cleaned: `filepath.Clean` is not modelled; every non-empty path is taken as already clean, so `.`/`..` elements, repeated and trailing separators are not normalised.
- Registry.Registry.ListFileStates: the rows are returned as a set; the `ORDER BY path` order of the query is not modelled.
- Registry.Registry.ListFilesNeedingMetadata: the rows are returned as a set; the `ORDER BY path` order of the query is not modelled.
- Registry.Registry.ListFilesNeedingSemantic: the rows are returned as a set; the `ORDER BY path` order of the query is not modelled.
- Registry.Registry.ListFilesNeedingEmbeddings: the rows are returned as a set; the `ORDER BY path` order of the query is not modelled.
- Registry.Registry.ValidateAndCleanPaths: the missing roots are reported without order; the `ORDER BY path` order in which `ListPaths` yields them is not modelled.
- Worker.Backoff: computed on unbounded integers; the `float64` rounding of `math.Pow(2, retries-1)` times the delay above 2^53 nanoseconds and the `int64` overflow of `time.Duration` are not modelled.
- Formatter.Cutoff: `AddDate(0, 0, -days)` is taken as `days` 24-hour days; calendar days that span a daylight-saving change are not modelled.
- Packing.Pack: the split loops of the DOCX, ODT, LaTeX and PDF sections, of protobuf definitions and of the HCL and protobuf fallbacks are modelled with the corrected offsets (see "## Findings"); their as-written offsets are shown only by the lemmas named there.

## Findings

| source | as written | input that shows it | evidently intended | confidence | as-written member | corrected member |
|---|---|---|---|---|---|---|
| internal/chunkers/hcl.go:311-339 | a split chunk's `StartOffset` is computed as `offset - len(content)` after the offset has already moved past the separator, and a chunk that starts with an empty line loses it | a block whose lines are packed into two chunks: the first chunk's start is one past its text; a block starting with an empty line | split chunks laid end to end over the block, each spanning its own text | not executed | Packing.AsWrittenStartIsShifted, Packing.AsWrittenDropsLeadingEmptyLine | Packing.PackSound |
| internal/chunkers/protobuf.go:313-346 | a chunk's `StartOffset` is `offset - len(content)` after the offset has already moved past the separator, and a chunk that starts with an empty line loses it | a definition whose lines are packed into two chunks: the first chunk's start is one past its text | split chunks laid end to end over the text, each spanning its own text | not executed | Packing.AsWrittenStartIsShifted, Packing.AsWrittenDropsLeadingEmptyLine | Packing.PackSound |
| internal/chunkers/protobuf.go:382-413 | a chunk's `StartOffset` is `offset - len(content)` after the offset has already moved past the separator, and a chunk that starts with an empty line loses it | a file that fails to parse, packed into two chunks: the first chunk's start is one past its text | split chunks laid end to end over the text, each spanning its own text | not executed | Packing.AsWrittenStartIsShifted, Packing.AsWrittenDropsLeadingEmptyLine | Packing.PackSound |
| internal/chunkers/hcl.go:382-413 | a chunk's `StartOffset` is `offset - len(content)` after the offset has already moved past the separator, and a chunk that starts with an empty line loses it | a file that fails to parse, packed into two chunks: the first chunk's start is one past its text | split chunks laid end to end over the text, each spanning its own text | not executed | Packing.AsWrittenStartIsShifted, Packing.AsWrittenDropsLeadingEmptyLine | Packing.PackSound |
| internal/chunkers/docx.go:467-500 | a chunk's `StartOffset` is `offset - len(content)` after the offset has already moved past the two-byte paragraph separator | a section whose paragraphs are packed into two chunks: the first chunk's start is two past its text | split chunks laid out from the section's start, each spanning its own text | not executed | Packing.AsWrittenParagraphShift | Packing.PackSound |
| internal/chunkers/odt.go:445-478 | a chunk's `StartOffset` is `offset - len(content)` after the offset has already moved past the two-byte paragraph separator | a section whose paragraphs are packed into two chunks: the first chunk's start is two past its text | split chunks laid out from the section's start, each spanning its own text | not executed | Packing.AsWrittenParagraphShift | Packing.PackSound |
| internal/chunkers/latex.go:258-291 | a chunk's `StartOffset` is `offset - len(content)` after the offset has already moved past the two-byte paragraph separator | a section whose paragraphs are packed into two chunks: the first chunk's start is two past its text | split chunks laid out from the section's start, each spanning its own text | not executed | Packing.AsWrittenParagraphShift | Packing.PackSound |
| internal/chunkers/pdf.go:452-489 | a chunk's `StartOffset` is `offset - len(content)` after the offset has already moved past the two-byte paragraph separator | a section whose paragraphs are packed into two chunks: the first chunk's start is two past its text | split chunks laid out from the section's start, each spanning its own text | not executed | Packing.AsWrittenParagraphShift | Packing.PackSound |
| internal/output/formatter.go:356-371 | the comma loop counts the minus sign as a digit | `formatNumber(-123)` gives "-,123" | the sign stays in front and commas separate groups of three digits | not executed | Formatter.AsWrittenSignComma | Formatter.FormatNumberSound |
| internal/registry/registry.go:376-427 | the scope of a parent path is `path LIKE parent/%`, where `_` matches any character and ASCII case is ignored | parent `/a_b` also matches `/axb/f`; parent `/A` matches `/a/f` | only the parent itself and paths beneath it | not executed | Registry.LikeScopeOverreaches | Registry.Registry.ListFileStates |
| internal/chunkers/sql.go:212-235 | inside a `--` comment, a `/*` still opens a block comment | the script `--/*`, newline, `a;b` is one statement as written; the corrected lexer splits it after `a;` | a line comment hides everything up to the end of its line | not executed | SqlChunker.AsWrittenLineCommentOpensBlock | SqlChunker.LineCommentHidesBlockOpener |
| internal/chunkers/sql.go:121-150 | after a split group, the offset grows by the group's text, while its split chunks carry an extra newline per statement | statements `aa;` and `b;` in two groups with a limit of 2: chunk `aa;\n` spans 0-4, the next chunk starts at 3 | chunks contiguous, each starting where the previous one ends | not executed | SqlGroups.LayoutOverlapsAsWritten | SqlGroups.LayoutSound |
| internal/chunkers/pdf.go:242-248 | a `)` right after a backslash is never taken as the closing delimiter, even when that backslash ends a `\\` escape | the string `(a\\)` never closes, so its text is lost; corrected, it decodes to `a\` | `\\` decodes to one backslash and the `)` after it closes the string | not executed | Pdf.AsWrittenLosesString | Pdf.DecodesEscapes |
| internal/chunkers/xml.go:197-204 | the next search for a top-level element starts at the old offset plus the element's length, not after the element | `<rt><a/><a x/></rt>` gives `<a/>` twice | each search starts after the element taken before it | not executed | Xml.SiblingsSameName | Xml.ParseElementsSound |
| internal/chunkers/log.go:174-214 | a line's level, error count and time are tallied before the flush decision, so they go to the chunk closed before the line | a chunk over half the limit followed by an error line: the closed chunk reports the error, the error line's chunk reports none | every chunk reports the tally of its own lines | not executed | Log.ErrorCountedEarly | Log.ErrorCountedWithLine |
| internal/chunkers/log.go:177-186 | the span's end moves only for a time after the end so far, which starts at the zero time | a single syslog line, whose time parses into year 0, gives a chunk whose end stays the zero time instead of the line's time | the end is set by the first time seen and then by every later time | not executed | Log.EarlyTimeEnd | Log.TallySound |
