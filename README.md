# Download/convert status tracker of arxiv-mcp-server, in Dafny

The `download_paper` tool of arxiv-mcp-server fetches a paper from arXiv,
converts its PDF to Markdown and lets callers poll the state of that work.
This project models that tool's core, `src/arxiv_mcp_server/tools/download.py`:

- the process-wide `conversion_statuses` map from paper id to a
  `ConversionStatus` record (phase `downloading | converting | success | error`,
  `started_at`, optional `completed_at`, optional `error`);
- the storage directory, as the set of ids whose `<id>.md` file exists;
- `get_paper_path`, the mapping from id and suffix to a file;
- `convert_pdf_to_markdown`, the converter that writes the Markdown file and
  records success or failure in the paper's entry;
- `handle_download`, the request handler's decision tree: check-only requests,
  the on-disk cache, the in-flight entry, and the download/convert path with
  its two failure exits.

The arXiv lookup and download, and the PDF conversion, are foreign calls. Their
results are parameters (`FetchOutcome`: not found, failed with a message, or
fetched; `ConversionOutcome`: converted, or failed with a message and whether
the Markdown file had already been opened for writing). The two `datetime.now()`
readings are parameters too.

Files:

- `wrappers.dfy`: `Option`.
- `paths.dfy` (module `PaperPaths`): `get_paper_path`, the `file://` location,
  and that distinct papers get distinct files.
- `download.dfy` (module `Download`): the records, the `World` (status map plus
  artifact set), the responses as a tagged datatype, the record invariants, the
  specification functions `Convert` (one converter call) and `Handle` (one
  request, as a closed-form decision table), and the class `DownloadServer`
  whose fields are the map and the artifact set and whose methods follow the
  source's step-by-step updates (insert the entry, set `converting`, call the
  converter, read the entry back) and are proved to agree with `Convert` and
  `Handle`.
- `properties.dfy` (module `DownloadProperties`): what each branch returns and
  changes, and, over any sequence of requests served one at a time, that
  entries are never modified once created, that artifacts are never removed,
  that a paper not found on arXiv is reported as `downloading` forever, that a
  cached paper is served from disk forever, and that each paper is downloaded at
  most once.

Two details of the code are modelled as written: the converter's success branch leaves the entry's `error`
field as it was rather than clearing it (harmless, since the handler only runs
it on a fresh entry), and a failure inside `f.write` leaves a Markdown file
behind, after which fetch requests answer "Paper already available" while
check-only requests report the entry's `error`.

## Model

| member | source | states |
|---|---|---|
| `PaperPaths.PaperPath` | src/arxiv_mcp_server/tools/download.py:57-61 | `get_paper_path`: storage directory, separator, id and suffix; its behaviour is stated by `PaperPathParts` and `PaperPathInjective` |
| `PaperPaths.MarkdownUri` | src/arxiv_mcp_server/tools/download.py:109 | the `file://` location of the `.md` file, as sent at lines 109, 154 and 206; `MarkdownUriInjective` states that distinct papers get distinct locations |
| `PaperPaths.PaperPathParts` | src/arxiv_mcp_server/tools/download.py:57-61 | a paper's file is the storage directory, a separator, the paper id and the suffix, and splits back into exactly those parts |
| `PaperPaths.PaperPathInjective` | src/arxiv_mcp_server/tools/download.py:57-61 | two papers never share a file with the same suffix, so a set of ids stands for the set of `.md` files |
| `PaperPaths.MarkdownIsNeverPdf` | src/arxiv_mcp_server/tools/download.py:69 | the `.md` file of any paper is never the `.pdf` file of any paper (line 177 is the PDF path) |
| `PaperPaths.MarkdownUriInjective` | src/arxiv_mcp_server/tools/download.py:109 | distinct papers are reported under distinct `resource_uri` values |
| `Download.Response.Status` | src/arxiv_mcp_server/tools/download.py:98-247 | every response's `status` is one of `success`, `error`, `downloading`, `converting`, `unknown` |
| `Download.Response.Message` | src/arxiv_mcp_server/tools/download.py:98-247 | the `message` string of each response (lines 108, 120, 139, 153, 169, 205, 220, 236, 245); the error messages are stated by `FetchFailureStrandsEntry` and `FetchedRequestCompletes` |
| `Download.Convert` | src/arxiv_mcp_server/tools/download.py:64-88 | `convert_pdf_to_markdown` as a function on the world; its behaviour is stated by `ConverterEffect` and `ConvertPreservesWellFormed` |
| `Download.CheckOnly` | src/arxiv_mcp_server/tools/download.py:98-143 | the response to a check-only request; stated by `CheckStatusReportsEntry` and `CheckStatusWithoutEntry` |
| `Download.NewWork` | src/arxiv_mcp_server/tools/download.py:145-176 | the id a request starts a download for: a fetch for an id with neither `.md` nor entry; used by the frame clauses of `Handle` and by `AtMostOneDownload` |
| `Download.Handle` | src/arxiv_mcp_server/tools/download.py:91-247 | a check-only request, or one without `paper_id`, leaves the map and the files unchanged; no request changes or removes an existing entry; only a fetch for an id with neither file nor entry adds an entry or a file, and only for that id; the record invariants and the settled invariant are preserved |
| `Download.FetchedIsConvertAfterDownload` | src/arxiv_mcp_server/tools/download.py:186-197 | the converter run on the new entry moved to `converting` yields the terminal state `Handle` gives for a fetched paper |
| `Download.DownloadServer.constructor` | src/arxiv_mcp_server/tools/download.py:19 | a fresh process has an empty status map, while the `.md` files of earlier runs stay on disk as the given artifact set |
| `Download.DownloadServer.ConvertPdfToMarkdown` | src/arxiv_mcp_server/tools/download.py:64-88 | the fields change exactly as `Convert` says: file written on success or once opened, entry (if any) moved to success or error with completion time and message |
| `Download.DownloadServer.HandleDownload` | src/arxiv_mcp_server/tools/download.py:91-247 | the response and the new fields are those of `Handle` on the old fields; reading back the entry after conversion never meets a missing `completed_at` |
| `DownloadProperties.CheckStatusReportsEntry` | src/arxiv_mcp_server/tools/download.py:126-143 | a check-only request for a tracked paper changes nothing and reports the entry's status, `started_at`, `completed_at` and `error` verbatim, even when the `.md` file exists |
| `DownloadProperties.CheckStatusWithoutEntry` | src/arxiv_mcp_server/tools/download.py:99-124 | a check-only request for an untracked paper changes nothing; it answers `success` with the Markdown `file://` location if and only if the `.md` file exists, and `unknown` otherwise |
| `DownloadProperties.AvailablePaperIsServedFromCache` | src/arxiv_mcp_server/tools/download.py:145-158 | a fetch for a paper whose `.md` exists answers `success` with its location, changes nothing, and repeating it gives the same reply |
| `DownloadProperties.TrackedPaperIsNotFetchedAgain` | src/arxiv_mcp_server/tools/download.py:160-174 | a fetch for a tracked paper without a `.md` reports the entry's status and `started_at`, changes nothing, and does not depend on the fetch or conversion outcomes or the clock |
| `DownloadProperties.NewRequestInsertsOneEntry` | src/arxiv_mcp_server/tools/download.py:176-183 | a fetch for a new paper adds exactly that paper's entry, with its id and `started_at` = the start reading, and leaves every other entry unchanged |
| `DownloadProperties.FetchFailureStrandsEntry` | src/arxiv_mcp_server/tools/download.py:229-247 | when the lookup finds nothing or the download raises, the response is an error (`Paper <id> not found on arXiv`, or `Error: <message>`), the files are unchanged, and the new entry stays `downloading` with no `completed_at` |
| `DownloadProperties.FetchedRequestCompletes` | src/arxiv_mcp_server/tools/download.py:189-227 | after a successful download the entry is terminal with `completed_at` set, its `error` is set if and only if it is `error`, it is `success` exactly when the conversion succeeded, the response status equals the entry status, and on success the `.md` exists and `resource_uri` is its `file://` location |
| `DownloadProperties.PartialWriteLooksAvailable` | src/arxiv_mcp_server/tools/download.py:71-88 | a conversion failing after the file was opened leaves the entry at `error`, yet later fetches for the paper answer `success` while check-only requests answer `error` |
| `DownloadProperties.ConverterEffect` | src/arxiv_mcp_server/tools/download.py:64-88 | the converter creates no entry and touches no other paper; on success the entry becomes `success` with `completed_at` and the `.md` exists; on failure it becomes `error` with `completed_at` and the failure message; `started_at` never changes |
| `DownloadProperties.ConvertPreservesWellFormed` | src/arxiv_mcp_server/tools/download.py:74-88 | run on an unfinished entry, the converter keeps `completed_at` set exactly for terminal entries and `error` exactly for failed ones |
| `DownloadProperties.RunKeepsEntries` | src/arxiv_mcp_server/tools/download.py:160-183 | over any sequence of requests, an existing entry is never changed or removed |
| `DownloadProperties.RunKeepsArtifacts` | src/arxiv_mcp_server/tools/download.py:71-72 | over any sequence of requests, no `.md` file is removed |
| `DownloadProperties.TrackedWithoutArtifactStaysSo` | src/arxiv_mcp_server/tools/download.py:160-174 | a tracked paper without a `.md` never gets one |
| `DownloadProperties.RunPreservesSettled` | src/arxiv_mcp_server/tools/download.py:176-197 | between requests, every entry keeps the record invariants, none is `converting`, and a `downloading` entry has no `.md` |
| `DownloadProperties.ReachableIsSettled` | src/arxiv_mcp_server/tools/download.py:19-33 | every state reachable from a fresh process, whatever `.md` files are already on disk, is settled: with one request at a time, `converting` is never observed |
| `DownloadProperties.TrackedPaperIsFrozen` | src/arxiv_mcp_server/tools/download.py:126-174 | after any requests, a tracked paper without a `.md` is still reported with the same status, `started_at`, `completed_at` and `error` |
| `DownloadProperties.NotFoundStrandsForever` | src/arxiv_mcp_server/tools/download.py:229-240 | after a "not found", whatever requests follow, a fetch for that paper answers `downloading` with the original start time and never starts another download |
| `DownloadProperties.AvailableForever` | src/arxiv_mcp_server/tools/download.py:145-158 | once a paper's `.md` exists, every later fetch for it answers `success` from disk and changes nothing |
| `DownloadProperties.TrackedNeverRefetched` | src/arxiv_mcp_server/tools/download.py:160-174 | no request downloads a paper that already has an entry |
| `DownloadProperties.AtMostOneDownload` | src/arxiv_mcp_server/tools/download.py:160-187 | served one at a time, any sequence of requests starts at most one download per paper |
| `DownloadProperties.NotFoundScenario` | src/arxiv_mcp_server/tools/download.py:114-240 | on a fresh server with no files, a check for `9999.99999` answers `unknown`, a fetch that arXiv cannot resolve answers `Paper 9999.99999 not found on arXiv`, and the next fetch answers `downloading` |
| `DownloadProperties.RestartScenario` | src/arxiv_mcp_server/tools/download.py:100-158 | on a fresh server whose disk already holds a paper's `.md`, a check answers "Paper is ready" with its location and a fetch answers "Paper already available" |

## Left out

- The arXiv client (`arxiv.Client`, `arxiv.Search`, `download_pdf`): network calls, modelled only by their outcome; the downloaded `.pdf` file is not tracked.
- `pymupdf4llm.to_markdown`, the `fitz` settings and the file write itself: foreign conversion and I/O, modelled by the conversion outcome and by adding the id to the artifact set.
- The `mkdir` in `get_paper_path` and the configured storage root: the root is a parameter and directory creation always succeeds.
- PaperPaths.PaperPath: does not model `pathlib` normalisation; the root is taken without a trailing separator, and an id containing `/` (or an absolute id, which `pathlib` would let replace the root) is joined as plain text.
- JSON serialisation, `isoformat` and the `TextContent` wrapping: responses are a datatype carrying the `status`, `message` and optional fields.
- The `download_tool` schema and logging: metadata and output without behaviour.
- Concurrency: the unguarded check-then-create race between simultaneous requests; requests are served one at a time.
- Real wall-clock time: the clock readings are parameters, and nothing is claimed about their order (so no `completed_at >= started_at`).
- Arguments of the wrong type (a non-string id, a non-boolean `check_status`); a missing `paper_id` is modelled (the generic `Error: 'paper_id'` response).
- The in-place mutation of the `ConversionStatus` object: modelled as replacing the map entry, which is equivalent because no other reference to the record outlives a request.
