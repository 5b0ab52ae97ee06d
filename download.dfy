/**
 * The download/convert status tracker of the `download_paper` tool.
 *
 * The process-wide status map and the storage directory together form a
 * `World`: the map from paper id to its `ConversionStatus`, and the set of ids
 * whose Markdown artifact exists on disk. The remote fetch and the PDF to
 * Markdown conversion are foreign calls; their results are parameters
 * (`FetchOutcome`, `ConversionOutcome`), and so are the two clock readings.
 *
 * `Convert` and `Handle` say what one call does to a World; the class
 * `DownloadServer` holds the same state in fields and runs the source's
 * step-by-step updates, proved to agree with them.
 */
module Download {

  import opened Wrappers
  import opened PaperPaths

  /** A reading of `datetime.now()`. */
  type Time = nat

  datatype Phase = Downloading | Converting | Success | Error {

    /** The `status` string stored in the record and sent to callers. */
    function Name(): string
    {
      match this
      case Downloading => "downloading"
      case Converting => "converting"
      case Success => "success"
      case Error => "error"
    }

    predicate IsTerminal()
    {
      this == Success || this == Error
    }
  }

  datatype ConversionStatus = ConversionStatus(
    paperId: string,
    status: Phase,
    startedAt: Time,
    completedAt: Option<Time>,
    error: Option<string>)

  /** What `next(client.results(...))` followed by `download_pdf` came to. */
  datatype FetchOutcome =
    | NotFound               // the search yields nothing: StopIteration
    | FetchFailed(reason: string)  // any other exception while searching or downloading
    | Fetched

  /**
   * What the converter's `try` block came to. A failure raised by `f.write`
   * happens after `open(md_path, "w")` created the file, so the Markdown
   * artifact then exists though the conversion failed (`fileOpened`).
   */
  datatype ConversionOutcome =
    | Converted
    | ConvertFailed(reason: string, fileOpened: bool)
  {
    predicate WritesMarkdown()
    {
      Converted? || fileOpened
    }
  }

  /** The tool's arguments; `paperId` is `None` when the key is missing. */
  datatype Request = Request(paperId: Option<string>, checkStatus: bool)

  /** One variant per JSON object the handler returns. */
  datatype Response =
    | PaperReady(resourceUri: string)
    | NoActivity
    | StatusReport(status: Phase, startedAt: Time, completion: Option<Time>, error: Option<string>)
    | AlreadyAvailable(resourceUri: string)
    | CurrentStatus(status: Phase, startedAt: Time)
    | Downloaded(resourceUri: string, startedAt: Time, completedAt: Time)
    | ConversionFailed(startedAt: Time, completedAt: Time, error: Option<string>)
    | NotOnArxiv(paperId: string)
    | Failed(detail: string)
  {
    /** The `status` field; the wire protocol knows exactly these values. */
    function Status(): (s: string)
      ensures s in {"success", "error", "downloading", "converting", "unknown"}
    {
      match this
      case PaperReady(_) => "success"
      case NoActivity => "unknown"
      case StatusReport(status, _, _, _) => status.Name()
      case AlreadyAvailable(_) => "success"
      case CurrentStatus(status, _) => status.Name()
      case Downloaded(_, _, _) => "success"
      case ConversionFailed(_, _, _) => "error"
      case NotOnArxiv(_) => "error"
      case Failed(_) => "error"
    }

    /** The `message` field. */
    function Message(): string
    {
      match this
      case PaperReady(_) => "Paper is ready"
      case NoActivity => "No download or conversion in progress"
      case StatusReport(status, _, _, _) => "Paper conversion " + status.Name()
      case AlreadyAvailable(_) => "Paper already available"
      case CurrentStatus(status, _) => "Paper conversion " + status.Name()
      case Downloaded(_, _, _) => "Paper downloaded and converted successfully"
      case ConversionFailed(_, _, error) =>
        "Conversion failed: " + (match error case Some(e) => e case None => "None")
      case NotOnArxiv(paperId) => "Paper " + paperId + " not found on arXiv"
      case Failed(detail) => "Error: " + detail
    }
  }

  /** The status map and the ids whose `<id>.md` exists. */
  datatype World = World(statuses: map<string, ConversionStatus>, artifacts: set<string>)

  /** The state after a request, and the response it returned. */
  datatype Reply = Reply(after: World, response: Response)

  /** The record invariants of a status entry stored under `id`. */
  predicate EntryWellFormed(id: string, s: ConversionStatus, artifacts: set<string>)
  {
    && s.paperId == id
    && (s.completedAt.Some? <==> s.status.IsTerminal())
    && (s.error.Some? <==> s.status == Error)
    && (s.status == Success ==> id in artifacts)
  }

  predicate WellFormed(w: World)
  {
    forall id | id in w.statuses :: EntryWellFormed(id, w.statuses[id], w.artifacts)
  }

  /**
   * What holds between sequential requests: `converting` exists only inside a
   * call, and an entry still `downloading` has no artifact.
   */
  predicate Settled(w: World)
  {
    && WellFormed(w)
    && forall id | id in w.statuses ::
         && w.statuses[id].status != Converting
         && (w.statuses[id].status == Downloading ==> id !in w.artifacts)
  }

  /** The ids a request may start work on: a fetch for an id with neither artifact nor entry. */
  function NewWork(w: World, req: Request): set<string>
  {
    match req.paperId
    case Some(id) =>
      if !req.checkStatus && id !in w.artifacts && id !in w.statuses then {id} else {}
    case None => {}
  }

  /** `convert_pdf_to_markdown`: the converter's effect on the world. */
  function Convert(w: World, paperId: string, outcome: ConversionOutcome, now: Time): World
  {
    var artifacts := if outcome.WritesMarkdown() then w.artifacts + {paperId} else w.artifacts;
    if paperId !in w.statuses then World(w.statuses, artifacts)
    else
      var s := w.statuses[paperId];
      var s' := match outcome
        case Converted => s.(status := Success, completedAt := Some(now))
        case ConvertFailed(reason, _) =>
          s.(status := Error, completedAt := Some(now), error := Some(reason));
      World(w.statuses[paperId := s'], artifacts)
  }

  /** The response to a check-only request. */
  function CheckOnly(w: World, root: string, paperId: string): Response
  {
    if paperId in w.statuses then
      var s := w.statuses[paperId];
      StatusReport(s.status, s.startedAt, s.completedAt, s.error)
    else if paperId in w.artifacts then PaperReady(MarkdownUri(root, paperId))
    else NoActivity
  }

  /** The entry inserted for a new request, before the download. */
  function Started(paperId: string, startTime: Time): ConversionStatus
  {
    ConversionStatus(paperId, Downloading, startTime, None, None)
  }

  /**
   * `handle_download`, as a decision table over the world. A new request's
   * entry ends where the converter leaves it when the fetch succeeded, and
   * stays `downloading` when it did not.
   */
  function Handle(w: World, root: string, req: Request, fetch: FetchOutcome,
                  conversion: ConversionOutcome, startTime: Time, endTime: Time): (r: Reply)
    ensures req.checkStatus || req.paperId.None? ==> r.after == w
    ensures forall id | id in w.statuses :: id in r.after.statuses && r.after.statuses[id] == w.statuses[id]
    ensures r.after.statuses.Keys <= w.statuses.Keys + NewWork(w, req)
    ensures w.artifacts <= r.after.artifacts <= w.artifacts + NewWork(w, req)
    ensures WellFormed(w) ==> WellFormed(r.after)
    ensures Settled(w) ==> Settled(r.after)
  {
    match req.paperId
    case None => Reply(w, Failed("'paper_id'"))
    case Some(id) =>
      if req.checkStatus then Reply(w, CheckOnly(w, root, id))
      else if id in w.artifacts then Reply(w, AlreadyAvailable(MarkdownUri(root, id)))
      else if id in w.statuses then
        Reply(w, CurrentStatus(w.statuses[id].status, w.statuses[id].startedAt))
      else
        match fetch
        case NotFound =>
          Reply(World(w.statuses[id := Started(id, startTime)], w.artifacts), NotOnArxiv(id))
        case FetchFailed(reason) =>
          Reply(World(w.statuses[id := Started(id, startTime)], w.artifacts), Failed(reason))
        case Fetched =>
          var artifacts := if conversion.WritesMarkdown() then w.artifacts + {id} else w.artifacts;
          match conversion
          case Converted =>
            Reply(World(w.statuses[id := ConversionStatus(id, Success, startTime, Some(endTime), None)], artifacts),
                  Downloaded(MarkdownUri(root, id), startTime, endTime))
          case ConvertFailed(reason, _) =>
            Reply(World(w.statuses[id := ConversionStatus(id, Error, startTime, Some(endTime), Some(reason))], artifacts),
                  ConversionFailed(startTime, endTime, Some(reason)))
  }

  /**
   * The converter run on the entry the handler has just moved to
   * `converting` gives the terminal state `Handle` describes.
   */
  lemma FetchedIsConvertAfterDownload(w: World, root: string, id: string, conversion: ConversionOutcome,
                                      startTime: Time, endTime: Time)
    requires id !in w.artifacts && id !in w.statuses
    ensures
      var converting := World(w.statuses[id := Started(id, startTime).(status := Converting)], w.artifacts);
      Convert(converting, id, conversion, endTime)
        == Handle(w, root, Request(Some(id), false), Fetched, conversion, startTime, endTime).after
  {
  }

  /** The module-level state of `download.py`: the status map and the storage directory. */
  class DownloadServer {

    const root: string
    var statuses: map<string, ConversionStatus>
    var artifacts: set<string>

    function State(): World
      reads this
    {
      World(statuses, artifacts)
    }

    /**
     * A fresh process: no status entries, and the storage directory holding
     * the `.md` files `existing` that earlier runs left behind.
     */
    constructor (root: string, existing: set<string>)
      ensures this.root == root && State() == World(map[], existing)
    {
      this.root := root;
      statuses := map[];
      artifacts := existing;
    }

    /** `convert_pdf_to_markdown`; never raises, records its outcome in the entry if one exists. */
    method ConvertPdfToMarkdown(paperId: string, outcome: ConversionOutcome, now: Time)
      modifies this
      ensures State() == Convert(old(State()), paperId, outcome, now)
    {
      match outcome
      case Converted =>
        artifacts := artifacts + {paperId};
        if paperId in statuses {
          var status := statuses[paperId];
          status := status.(status := Success);
          status := status.(completedAt := Some(now));
          statuses := statuses[paperId := status];
        }
      case ConvertFailed(reason, fileOpened) =>
        if fileOpened {
          artifacts := artifacts + {paperId};
        }
        if paperId in statuses {
          var status := statuses[paperId];
          status := status.(status := Error);
          status := status.(completedAt := Some(now));
          status := status.(error := Some(reason));
          statuses := statuses[paperId := status];
        }
    }

    /** `handle_download`, one request at a time. */
    method HandleDownload(req: Request, fetch: FetchOutcome, conversion: ConversionOutcome,
                          startTime: Time, endTime: Time) returns (response: Response)
      modifies this
      ensures Reply(State(), response) == Handle(old(State()), root, req, fetch, conversion, startTime, endTime)
    {
      if req.paperId.None? {
        return Failed("'paper_id'");
      }
      var paperId := req.paperId.value;

      if req.checkStatus {
        if paperId !in statuses {
          if paperId in artifacts {
            return PaperReady(FileUri(PaperPath(root, paperId, Markdown)));
          }
          return NoActivity;
        }
        var status := statuses[paperId];
        return StatusReport(status.status, status.startedAt, status.completedAt, status.error);
      }

      if paperId in artifacts {
        return AlreadyAvailable(FileUri(PaperPath(root, paperId, Markdown)));
      }

      if paperId in statuses {
        var status := statuses[paperId];
        return CurrentStatus(status.status, status.startedAt);
      }

      statuses := statuses[paperId := ConversionStatus(paperId, Downloading, startTime, None, None)];

      match fetch
      case NotFound =>
        return NotOnArxiv(paperId);
      case FetchFailed(reason) =>
        return Failed(reason);
      case Fetched => {
        var status := statuses[paperId];
        status := status.(status := Converting);
        statuses := statuses[paperId := status];

        ConvertPdfToMarkdown(paperId, conversion, endTime);

        status := statuses[paperId];
        if status.status == Success {
          response := Downloaded(FileUri(PaperPath(root, paperId, Markdown)),
                                 status.startedAt, status.completedAt.value);
        } else {
          response := ConversionFailed(status.startedAt, status.completedAt.value, status.error);
        }
      }
    }
  }
}
