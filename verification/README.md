# Podcast RAG benchmark drivers and transcript chunker, in Dafny

This project models the parts of the Acquired-podcast retrieval benchmark that
decide what ends up in its result tables and in its transcript chunks.

- **Context assembly** (`ContextAssembly`). All three `build_context_string`
  functions share one rule, specified once and run by one loop. Documents are
  taken in rank order, and each becomes a numbered block
  `\n\n----------\n\nSource #n: \n"<text>"`. The length bound (and, for
  Azure, the source cap) is checked against the string built so far, before
  the candidate is appended. The result can therefore overshoot the bound by
  one block.
- **Results files** (`ResultsStore`). A results table is a file that is
  either absent or present with its rows. The class `ResultsFile` has four
  operations:
  - opening for reading, which tests whether the file exists;
  - opening with `'w'`, which replaces its contents with the header;
  - opening with `'a'`, which creates an absent file empty;
  - appending one row.
- **Pongo driver** (`PongoBenchmark`). Each question is sent to the search
  service, which is retried once. The context is written as
  `[question, answer, context]`. The run stops at the datapoint cap, or with
  the `RuntimeError` of a failed retry.
- **Azure driver** (`AzureBenchmark`). The three client settings are checked
  first. Each question is searched, and the context is bounded by length and
  by ten sources. The third column is the prompt `Please use ONLY ...
  Question: "<q>"<context>`.
- **LlamaIndex driver** (`LlamaIndexBenchmark`). The file is created only
  when it is missing, and it is truncated when it is created. Questions are
  processed from a starting index that is fixed at 0, up to the cap.
- **Transcript chunker** (`TranscriptChunker`). `split_into_chunks` cuts a
  transcript's lines into chunks of roughly 900 characters, without
  splitting any line. Each chunk starts with
  `Title: <base name without extension>\nBody:\n`. `process_all_txt_files`
  applies it to every `.txt` entry of the transcript directory.

The backends (the Pongo client, the Azure search client and the LlamaIndex
retriever) are parameters. Each is a function from the datapoint index and
the query to its reply; Pongo's also takes the attempt number (0 for the
first call, 1 for the retry). Keying the reply by the datapoint index lets a
live service answer the same question differently on two rows, and each row
is searched afresh. Reading the questions CSV becomes a sequence of `QA`
rows, and reading a transcript becomes a function from its path to its
lines. The drivers are methods that change a `ResultsFile`. Each is proved
equal to a specification function (`Process`) that walks the rows the way
the loop does. `Process` records each written row as a `Hit`: the question
and answer with the documents found for it. `HitRows` renders the hits into
the rows the file receives. The properties of the runs are lemmas about
those functions.

Three comments and docstrings in the source describe the code loosely. The
model follows the code:
- `run-pongo.py:190` says the walk stops "if max_length is reached". In
  fact a document is still admitted when the string so far is exactly at
  the bound, because the test is `<=`.
- `split-azure-files.py:11-13` describes chunks of "approximately 900
  characters". A chunk is flushed *without* the line that brings the count
  to the threshold. That line opens the next chunk, with the count
  restarted at its length.
- `run-pongo.py:87-88` says processing can resume "from a specific index".
  In fact the index starts at the starting index, so no row is ever
  skipped (see Findings).

## Model

| member | source | states |
|---|---|---|
| Numerals.Decimal | scripts/run/run-pongo.py:186 | the source number is written as at least one decimal digit with no leading zero |
| Numerals.DecimalRoundTrip | scripts/run/run-pongo.py:186 | reading the written number back gives the source number, so source numbers are unambiguous |
| Common.Concat | scripts/upload/split-azure-files.py:48 | `''.join` has the total length of its parts |
| ContextAssembly.Block | scripts/run/run-pongo.py:186-187 | a block is 27 characters of framing, the digits of its number and the document's text |
| ContextAssembly.Render | scripts/run/run-pongo.py:184-188 | appending blocks for documents 1..k costs the framing of k blocks plus the total text length |
| ContextAssembly.IncludedFrom | scripts/run/run-pongo.py:184-190 | the walk from document j stops between j and the number of documents |
| ContextAssembly.IncludedFromStops | scripts/run/run-pongo.py:184-190 | every document the walk passes was admitted, and it stops only at the end or at a document the bounds refuse |
| ContextAssembly.BuildContext | scripts/run/run-azure.py:143-154 | the loop with both bounds returns the blocks of exactly the admitted prefix |
| ContextAssembly.RenderStep | scripts/run/run-pongo.py:186-188 | one more document appends exactly its numbered block |
| ContextAssembly.AppendBlock | scripts/run/run-pongo.py:186-187 | the loop's two appends together add one block |
| ContextAssembly.RenderIsNumberedBlocks | scripts/run/run-pongo.py:184-188 | the context is the blocks numbered 1, 2, ... in rank order, joined |
| ContextAssembly.RenderGrows | scripts/run/run-pongo.py:184-188 | the context for fewer documents is a prefix of the context for more |
| ContextAssembly.IncludedIff | scripts/run/run-azure.py:147 | document j is included exactly when the string before it is within the length bound and its number within the source cap |
| ContextAssembly.ContextBounds | scripts/run/run-azure.py:143-154 | the context is empty iff nothing was included; it exceeds the bound by at most the last block; a document is left out only when the bound was already passed or the cap reached; never more sources than the cap |
| ContextAssembly.FullCapacity | scripts/run/run-azure.py:146-152 | with enough documents and the length bound never tripped, exactly `cap` blocks appear, in order |
| ResultsStore.HeaderOnce | scripts/run/run-pongo.py:73-76 | initialising twice is initialising once: an absent file gets exactly one header row and an existing one is never rewritten |
| ResultsStore.ResultsFile.Exists | scripts/run/run-pongo.py:67-71 | opening for reading succeeds exactly when the file exists |
| ResultsStore.ResultsFile.Create | scripts/run/llamaindex-run-podcast.py:72-74 | opening with 'w' and writing the header leaves the header alone |
| ResultsStore.ResultsFile.OpenForAppend | scripts/run/run-pongo.py:103 | opening with 'a' keeps the rows and creates an absent file empty |
| ResultsStore.ResultsFile.Append | scripts/run/run-pongo.py:125 | writing a row adds it after all the others |
| PongoBenchmark.BuildContextString | scripts/run/run-pongo.py:164-191 | the context of the documents' `text` fields under the length bound alone |
| PongoBenchmark.PerformPongoSearch | scripts/run/run-pongo.py:147-162 | one call when the first reply is ok, else two; fails exactly when both replies fail; otherwise the context of the last reply |
| PongoBenchmark.RetryThenSuccess | scripts/run/run-pongo.py:152-159 | a failed first reply followed by a good one gives the second reply's context |
| PongoBenchmark.SearchAndWrite | scripts/run/run-pongo.py:120-125 | a failed search writes nothing and reports the error; a good one appends `[question, answer, context]` |
| PongoBenchmark.HitRowsSnoc | scripts/run/run-pongo.py:125 | one more hit appends exactly its row |
| PongoBenchmark.SkipStep | scripts/run/run-pongo.py:116-118 | the skip branch advances the index without writing |
| PongoBenchmark.WriteStep | scripts/run/run-pongo.py:120-126 | the search branch writes the row for the current datapoint and advances the index |
| PongoBenchmark.StopStep | scripts/run/run-pongo.py:108-111 | the run ends with everything written so far: at the end of the input, at the cap, or at a failed search |
| PongoBenchmark.WriteDatapoint | scripts/run/run-pongo.py:120-126 | the row's search uses the service at its own datapoint index; a failure leaves the file as it was, a success appends the row of its hit |
| PongoBenchmark.Turn | scripts/run/run-pongo.py:108-126 | one turn of the loop either ends the run with everything written so far, or leaves the rest of the run still to do from the next row and index |
| PongoBenchmark.Drive | scripts/run/run-pongo.py:101-126 | the loop appends exactly the rows of the specified run and ends the way it says |
| PongoBenchmark.ProcessDatapoints | scripts/run/run-pongo.py:81-126 | as written: the index starts at the starting index |
| PongoBenchmark.ResumeDatapoints | scripts/run/run-pongo.py:116-118 | corrected: the index starts at 0 so that the skip branch is reachable |
| PongoBenchmark.InitializeResultsFile | scripts/run/run-pongo.py:52-79 | reports whether the file existed, and writes the header only when it did not |
| PongoBenchmark.RunPongoBenchmark | scripts/run/run-pongo.py:194-202 | the results file is initialised, then `process_datapoints` runs with the defaults, and the rows of its run follow the header |
| PongoBenchmark.WrittenInOrder | scripts/run/run-pongo.py:108-126 | from an index at or past the start, hit i is input row i, found by a successful search at datapoint index index + i |
| PongoBenchmark.RunEnds | scripts/run/run-pongo.py:108-126 | no more rows than the cap allows; the run aborts exactly when fewer were written, and then the search of the next row failed; otherwise it ends by the cap or by the end of the input |
| PongoBenchmark.ProcessFromIndex | scripts/run/run-pongo.py:108-126 | rows are written in input order, each from a successful search at its own index; no more than the cap allows; the run aborts exactly when fewer were written, at the failing row; otherwise it ends by the cap or by the end of the input |
| PongoBenchmark.RowsWritten | scripts/run/run-pongo.py:108-126 | when every search succeeds, min(rows, cap - start) rows are written and the run does not abort |
| PongoBenchmark.StartIndexDoesNotSkip | scripts/run/run-pongo.py:101 | as written, starting at index 1 still writes row 0 first |
| PongoBenchmark.RepeatedQuestionSearchedAgain | scripts/run/run-pongo.py:120-123 | a question repeated on a second row is searched again: a service that answers only on the first row writes that row and aborts on the second |
| PongoBenchmark.SkipPrefix | scripts/run/run-pongo.py:116-118 | from an index below the start, the run is the run from the start over the rows after the skipped ones |
| PongoBenchmark.SkipsAll | scripts/run/run-pongo.py:108-118 | when the cap or the end of the input comes before the start, nothing is written |
| PongoBenchmark.ResumeOrder | scripts/run/run-pongo.py:108-126 | from an index at or below the start, hit i is input row (start - index) + i, searched at datapoint index start + i |
| PongoBenchmark.ResumeCount | scripts/run/run-pongo.py:108-126 | from an index at or below the start, with every search succeeding, max(0, min(rows, max(0, cap - index)) - (start - index)) rows are written |
| PongoBenchmark.ResumeSkipsStart | scripts/run/run-pongo.py:116-118 | from index 0, for any start s >= 0, hit i is input row s + i searched at index s + i; with every search succeeding there are max(0, min(rows, max(0, cap)) - s) of them, so none when s is past the input or the cap |
| AzureBenchmark.InitializeAzureSearchClient | scripts/run/run-azure.py:26-28 | a ValueError exactly when one of the three settings is empty; otherwise a client on those settings |
| AzureBenchmark.BuildContextString | scripts/run/run-azure.py:123-154 | the context of the documents' `content` fields under the length bound and the source cap |
| AzureBenchmark.DefaultSourceCap | scripts/run/run-azure.py:123-152 | at most ten sources, and exactly the first ten blocks when ten documents fit under the bound |
| AzureBenchmark.QueryStringParts | scripts/run/run-azure.py:111 | the prompt is the instruction, the question, a closing quote and the context, each readable back at its place |
| AzureBenchmark.HitRowsSnoc | scripts/run/run-azure.py:114 | one more hit appends exactly its row |
| AzureBenchmark.AnswerQuestion | scripts/run/run-azure.py:102-114 | the row is the question, the answer and the prompt over the context of what the search returned at this datapoint index |
| AzureBenchmark.ProcessRows | scripts/run/run-azure.py:94-116 | min(rows, max(0, cap - index)) rows are written, row i from input row i searched at datapoint index index + i |
| AzureBenchmark.RepeatedQuestionSearchedAgain | scripts/run/run-azure.py:102-106 | a question repeated on a second row is searched again, and the two rows can record different prompts |
| AzureBenchmark.WriteQuestion | scripts/run/run-azure.py:102-116 | one turn of the loop appends the row of the next question's hit |
| AzureBenchmark.ProcessQuestions | scripts/run/run-azure.py:86-116 | the rows of the run are appended after the existing rows; an absent file is created |
| AzureBenchmark.CreateResultsFileIfNotExists | scripts/run/run-azure.py:50-60 | true and a fresh header exactly when the file was absent; false and no change otherwise |
| AzureBenchmark.RunAzureBenchmark | scripts/run/run-azure.py:157-174 | a missing setting stops the run before the file is touched; otherwise header-once, then the rows of the run |
| LlamaIndexBenchmark.BuildContextString | scripts/run/llamaindex-run-podcast.py:125-147 | the context of the nodes' `text` under the length bound alone |
| LlamaIndexBenchmark.HitRowsSnoc | scripts/run/llamaindex-run-podcast.py:120 | one more hit appends exactly its row |
| LlamaIndexBenchmark.AnswerQuestion | scripts/run/llamaindex-run-podcast.py:112-120 | the row is the question, the answer and the context of what the retriever returned at this datapoint index |
| LlamaIndexBenchmark.ProcessRows | scripts/run/llamaindex-run-podcast.py:96-123 | from an index at or past the start, min(rows, max(0, cap - index)) rows are written, row i from input row i retrieved at datapoint index index + i |
| LlamaIndexBenchmark.WriteQuestion | scripts/run/llamaindex-run-podcast.py:111-123 | one turn of the loop past the starting index appends the row of the next question's hit |
| LlamaIndexBenchmark.ProcessQuestions | scripts/run/llamaindex-run-podcast.py:85-123 | the rows of the run from the fixed starting index are appended after the existing rows |
| LlamaIndexBenchmark.CheckResultsFileExists | scripts/run/llamaindex-run-podcast.py:55-66 | true exactly when the file exists |
| LlamaIndexBenchmark.CreateResultsFile | scripts/run/llamaindex-run-podcast.py:68-74 | the file holds only the header afterwards, whatever it held before |
| LlamaIndexBenchmark.PrepareResultsFile | scripts/run/llamaindex-run-podcast.py:152-153 | the header is written only when the file was missing |
| LlamaIndexBenchmark.RunLlamaIndexBenchmark | scripts/run/llamaindex-run-podcast.py:150-156 | header-once, then the rows of the run with the default cap |
| TranscriptChunker.JoinAfterHeader | scripts/upload/split-azure-files.py:38-48 | the text of a chunk is its header followed by its lines joined |
| TranscriptChunker.LastIndexOf | scripts/upload/split-azure-files.py:32 | the position of the last occurrence of a character, or -1 when there is none |
| TranscriptChunker.BaseName | scripts/upload/split-azure-files.py:32 | the base name has no '/', ends the path, and is preceded by '/' when shorter than the path |
| TranscriptChunker.StripExtension | scripts/upload/split-azure-files.py:32 | the root is the name itself, or the name cut just before its last '.' when something other than a dot precedes that dot; it differs from the name whenever a non-dot comes before some later dot |
| TranscriptChunker.BaseNameAfterSlash | scripts/upload/split-azure-files.py:95 | the base name of a directory entry's joined path is the entry itself |
| TranscriptChunker.StripTxt | scripts/upload/split-azure-files.py:32 | a `.txt` name loses `.txt`, unless only dots precede it |
| TranscriptChunker.ChunkTitleOfTranscript | scripts/upload/split-azure-files.py:32 | the title of a transcript entry is the entry without `.txt` (or the whole entry when only dots precede the extension) |
| TranscriptChunker.ScanSnoc | scripts/upload/split-azure-files.py:42-55 | reading one more line is one turn of the loop |
| TranscriptChunker.AllSnoc | scripts/upload/split-azure-files.py:43-55 | one more line either closes the open chunk and opens one with the line, or extends the open chunk |
| TranscriptChunker.CountOfOpen | scripts/upload/split-azure-files.py:43-53 | the running count is the length of the open chunk's lines |
| TranscriptChunker.LinesSnoc | scripts/upload/split-azure-files.py:42-55 | one more chunk adds its lines after all the others |
| TranscriptChunker.LinesExtendLast | scripts/upload/split-azure-files.py:55 | one more line in the open chunk adds that line after all the others |
| TranscriptChunker.AllJoin | scripts/upload/split-azure-files.py:42-55 | the chunks, the open one included, hold exactly the lines read, in order |
| TranscriptChunker.AllLaterNonEmpty | scripts/upload/split-azure-files.py:52-55 | every chunk after the first holds a line |
| TranscriptChunker.AllTriggered | scripts/upload/split-azure-files.py:43-44 | each flush happens because the next chunk's first line brought the count to the threshold |
| TranscriptChunker.AllNoEarlyFlush | scripts/upload/split-azure-files.py:43-44 | no chunk was flushed before the line that triggered it |
| TranscriptChunker.GrowKeepsBelow | scripts/upload/split-azure-files.py:43-55 | a line that keeps the count under the threshold keeps every prefix of the chunk under it |
| TranscriptChunker.NoEarlyAfterFlush | scripts/upload/split-azure-files.py:51-55 | a flush keeps every chunk within its threshold |
| TranscriptChunker.NoEarlyAfterAppend | scripts/upload/split-azure-files.py:55 | appending below the threshold keeps every chunk within its threshold |
| TranscriptChunker.AllFirst | scripts/upload/split-azure-files.py:39-44 | the first chunk is header-only exactly when the first line alone reaches the threshold |
| TranscriptChunker.OpenEmptyIffNoLines | scripts/upload/split-azure-files.py:55-58 | the open chunk is empty exactly when no line was read |
| TranscriptChunker.BodiesPartition | scripts/upload/split-azure-files.py:42-62 | the chunks hold exactly the lines in order; there are none iff there are no lines; every chunk but the first, and the last, holds a line; flushes happen exactly when the threshold is reached and no earlier; chunk 0 is header-only iff the first line alone reaches the threshold |
| TranscriptChunker.ChunkSizeBound | scripts/upload/split-azure-files.py:43-44 | every chunk is under the threshold or is a single line |
| TranscriptChunker.NumberedSnoc | scripts/upload/split-azure-files.py:46-54 | writing one more chunk gives it the next index |
| TranscriptChunker.ChunkTextsSnoc | scripts/upload/split-azure-files.py:48 | writing one more chunk adds exactly its text |
| TranscriptChunker.ScanPrefixStep | scripts/upload/split-azure-files.py:42-55 | the loop state after k + 1 lines is one turn on the state after k lines |
| TranscriptChunker.Flush | scripts/upload/split-azure-files.py:46-48 | the flushed chunk carries its index, the title and the lines after the header, and its text is the header followed by those lines |
| TranscriptChunker.ReadLine | scripts/upload/split-azure-files.py:42-55 | one turn of the loop keeps the open chunk, the count, the chunks and the texts written in step with the specification's state |
| TranscriptChunker.SplitIntoChunks | scripts/upload/split-azure-files.py:7-62 | the loop produces exactly the specified chunks, numbered 0, 1, 2, ..., and writes exactly their texts |
| TranscriptChunker.TxtFiles | scripts/upload/split-azure-files.py:93-94 | filtering never lengthens the listing |
| TranscriptChunker.TxtFilesMembers | scripts/upload/split-azure-files.py:94 | an entry is kept exactly when it is in the listing and ends in `.txt` |
| TranscriptChunker.TxtFilesAppend | scripts/upload/split-azure-files.py:93-94 | filtering two listings one after the other filters each, keeping the order |
| TranscriptChunker.TxtFilesStep | scripts/upload/split-azure-files.py:93-94 | one more entry is kept exactly when it ends in `.txt` |
| TranscriptChunker.ChunkFilesSnoc | scripts/upload/split-azure-files.py:95-97 | chunking one more entry adds its chunked file at the end |
| TranscriptChunker.ProcessAllTxtFiles | scripts/upload/split-azure-files.py:93-97 | every `.txt` entry, in listing order, is chunked from its joined path with the default size, and nothing else is |

## Left out

- Network clients, API keys, Pinecone and OpenAI set-up and `get_sub_orgs`. Each backend is a function parameter.
- `quit(0)` at the Pongo cap. It is modelled as the run ending with outcome `CapReached`.
- `time.sleep(1)` before the retry, and every `print`, including the progress notice every ten datapoints.
- Reading the question CSV through `csv.DictReader`, CSV quoting, and the re-raised `FileNotFoundError`/`csv.Error`. The rows are given as a sequence of `QA` values.
- A row or document without the `question`, `answer`, `text` or `content` key. The `KeyError` this raises is not modelled.
- An `IOError` when creating the Azure results file.
- The results file paths. Each driver works on one `ResultsFile`.
- `readlines` and its trailing newlines. Reading a transcript is the `read` parameter.
- `os.listdir` order. The listing is a parameter, in the order given.
- Writing the chunk files, and `os.makedirs('chunks')`. `SplitIntoChunks` returns the chunks as values. The source writes them under `<file path>/chunks/`, not under the `chunks` directory it creates; writing files is not part of this model.
- `pongo-upload.py` and `llamaindex-upload.py` are not part of this model.
- TranscriptChunker.BaseName: models POSIX `os.path.basename` only, with '/' as the only separator.
- TranscriptChunker.StripExtension: models `os.path.splitext` on a name without '/', which is the only way it is called here.

## Findings

| source | as written | input that shows it | evidently intended | confidence | as-written member | corrected member |
|---|---|---|---|---|---|---|
| scripts/run/run-pongo.py:101-118 | `datapoint_index` starts at `starting_datapoint_index`, so `datapoint_index < starting_datapoint_index` never holds and no row is skipped; the cap then counts from the start index | starting index 1 over rows q0, q1: q0 is searched and written first | start counting at 0 so that the first `starting_datapoint_index` rows are skipped and writing resumes at that row | not executed | PongoBenchmark.StartIndexDoesNotSkip | PongoBenchmark.ResumeSkipsStart |
