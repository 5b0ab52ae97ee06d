/**
 * Properties of the download/convert state machine: what each branch of the
 * handler returns and changes, and what holds over any sequence of requests
 * served one after another.
 */
module DownloadProperties {

  import opened Wrappers
  import opened PaperPaths
  import opened Download

  /** One request, with what its foreign calls and clock readings returned. */
  datatype Call = Call(request: Request, fetch: FetchOutcome, conversion: ConversionOutcome,
                       startTime: Time, endTime: Time)

  function Step(w: World, root: string, c: Call): Reply
  {
    Handle(w, root, c.request, c.fetch, c.conversion, c.startTime, c.endTime)
  }

  /** The world after serving `calls` in order. */
  function Run(w: World, root: string, calls: seq<Call>): World
    decreases |calls|
  {
    if calls == [] then w else Run(Step(w, root, calls[0]).after, root, calls[1..])
  }

  /** How many of `calls` start a download of `id`. */
  function Attempts(w: World, root: string, calls: seq<Call>, id: string): nat
    decreases |calls|
  {
    if calls == [] then 0
    else
      (if id in NewWork(w, calls[0].request) then 1 else 0)
        + Attempts(Step(w, root, calls[0]).after, root, calls[1..], id)
  }

  // ---------------------------------------------------------------------
  // One request

  /** A status check with an entry reports that entry verbatim, artifact or not. */
  lemma CheckStatusReportsEntry(w: World, root: string, id: string, fetch: FetchOutcome,
                                conversion: ConversionOutcome, startTime: Time, endTime: Time)
    requires id in w.statuses
    ensures var r := Handle(w, root, Request(Some(id), true), fetch, conversion, startTime, endTime);
      var s := w.statuses[id];
      && r.after == w
      && r.response == StatusReport(s.status, s.startedAt, s.completedAt, s.error)
      && r.response.Status() == s.status.Name()
  {
  }

  /** A status check without an entry answers from the storage directory. */
  lemma CheckStatusWithoutEntry(w: World, root: string, id: string, fetch: FetchOutcome,
                                conversion: ConversionOutcome, startTime: Time, endTime: Time)
    requires id !in w.statuses
    ensures var r := Handle(w, root, Request(Some(id), true), fetch, conversion, startTime, endTime);
      && r.after == w
      && (r.response.Status() == "success" <==> id in w.artifacts)
      && (id in w.artifacts ==> r.response == PaperReady(MarkdownUri(root, id)))
      && (id !in w.artifacts ==> r.response == NoActivity && r.response.Status() == "unknown")
  {
  }

  /** A fetch for a paper already on disk is served from the cache, and again if repeated. */
  lemma AvailablePaperIsServedFromCache(w: World, root: string, id: string, fetch: FetchOutcome,
                                        conversion: ConversionOutcome, startTime: Time, endTime: Time)
    requires id in w.artifacts
    ensures var req := Request(Some(id), false);
      var r := Handle(w, root, req, fetch, conversion, startTime, endTime);
      && r == Reply(w, AlreadyAvailable(MarkdownUri(root, id)))
      && r.response.Status() == "success"
      && Handle(r.after, root, req, fetch, conversion, startTime, endTime) == r
  {
  }

  /**
   * A fetch for a tracked paper without an artifact reports the entry's phase
   * and changes nothing, whatever the remote side and the converter would do.
   */
  lemma TrackedPaperIsNotFetchedAgain(w: World, root: string, id: string,
                                      fetch: FetchOutcome, conversion: ConversionOutcome, startTime: Time, endTime: Time,
                                      fetch': FetchOutcome, conversion': ConversionOutcome, startTime': Time, endTime': Time)
    requires id !in w.artifacts && id in w.statuses
    ensures var req := Request(Some(id), false);
      var r := Handle(w, root, req, fetch, conversion, startTime, endTime);
      && r == Reply(w, CurrentStatus(w.statuses[id].status, w.statuses[id].startedAt))
      && r == Handle(w, root, req, fetch', conversion', startTime', endTime')
  {
  }

  /** A fetch for a new paper inserts exactly one entry, started now, and leaves the others alone. */
  lemma NewRequestInsertsOneEntry(w: World, root: string, id: string, fetch: FetchOutcome,
                                  conversion: ConversionOutcome, startTime: Time, endTime: Time)
    requires id !in w.artifacts && id !in w.statuses
    ensures var after := Handle(w, root, Request(Some(id), false), fetch, conversion, startTime, endTime).after;
      && after.statuses.Keys == w.statuses.Keys + {id}
      && (forall k | k in w.statuses :: after.statuses[k] == w.statuses[k])
      && after.statuses[id].paperId == id
      && after.statuses[id].startedAt == startTime
  {
  }

  /**
   * When the paper is not found, or the download raises, the response is an
   * error and the new entry stays `downloading`, with no completion time.
   */
  lemma FetchFailureStrandsEntry(w: World, root: string, id: string, fetch: FetchOutcome,
                                 conversion: ConversionOutcome, startTime: Time, endTime: Time)
    requires id !in w.artifacts && id !in w.statuses
    requires !fetch.Fetched?
    ensures var r := Handle(w, root, Request(Some(id), false), fetch, conversion, startTime, endTime);
      && r.after == World(w.statuses[id := Started(id, startTime)], w.artifacts)
      && r.after.statuses[id].status == Downloading
      && r.after.statuses[id].completedAt.None?
      && r.response.Status() == "error"
      && (fetch.NotFound? ==> r.response.Message() == "Paper " + id + " not found on arXiv")
      && (fetch.FetchFailed? ==> r.response.Message() == "Error: " + fetch.reason)
  {
  }

  /**
   * After a successful download the entry is terminal and complete, its
   * error is set exactly when it failed, and the response reports it: on
   * success, the artifact exists at the reported location.
   */
  lemma FetchedRequestCompletes(w: World, root: string, id: string,
                                conversion: ConversionOutcome, startTime: Time, endTime: Time)
    requires id !in w.artifacts && id !in w.statuses
    ensures var r := Handle(w, root, Request(Some(id), false), Fetched, conversion, startTime, endTime);
      var s := r.after.statuses[id];
      && id in r.after.statuses
      && s.status.IsTerminal()
      && s.startedAt == startTime && s.completedAt == Some(endTime)
      && (s.error.Some? <==> s.status == Error)
      && (s.status == Success <==> conversion.Converted?)
      && r.response.Status() == s.status.Name()
      && (s.status == Success ==> id in r.after.artifacts && r.response == Downloaded(MarkdownUri(root, id), startTime, endTime))
      && (s.status == Error ==>
            r.response.error == s.error && r.response.Message() == "Conversion failed: " + conversion.reason)
  {
  }

  /**
   * A conversion that fails while writing leaves the Markdown file behind:
   * check-only requests then report the error, fetch requests report the
   * paper as available.
   */
  lemma PartialWriteLooksAvailable(w: World, root: string, id: string, reason: string,
                                   startTime: Time, endTime: Time, later: Call)
    requires id !in w.artifacts && id !in w.statuses
    requires later.request.paperId == Some(id)
    ensures var after := Handle(w, root, Request(Some(id), false), Fetched,
                                ConvertFailed(reason, true), startTime, endTime).after;
      var next := Step(after, root, later);
      && after.statuses[id].status == Error
      && next.response.Status() == (if later.request.checkStatus then "error" else "success")
  {
  }

  /** The converter only touches the entry of its own paper, and creates none. */
  lemma ConverterEffect(w: World, id: string, outcome: ConversionOutcome, now: Time)
    ensures var w' := Convert(w, id, outcome, now);
      && w'.statuses.Keys == w.statuses.Keys
      && (forall k | k in w.statuses && k != id :: w'.statuses[k] == w.statuses[k])
      && (id in w'.artifacts <==> id in w.artifacts || outcome.WritesMarkdown())
      && w'.artifacts - {id} == w.artifacts - {id}
      && (id in w.statuses ==>
            var s, s' := w.statuses[id], w'.statuses[id];
            && s'.paperId == s.paperId && s'.startedAt == s.startedAt
            && s'.completedAt == Some(now)
            && (outcome.Converted? ==> s'.status == Success && s'.error == s.error && id in w'.artifacts)
            && (outcome.ConvertFailed? ==> s'.status == Error && s'.error == Some(outcome.reason)))
  {
  }

  /** Run on an entry that has not finished, the converter keeps the record invariants. */
  lemma ConvertPreservesWellFormed(w: World, id: string, outcome: ConversionOutcome, now: Time)
    requires WellFormed(w)
    requires id in w.statuses ==> !w.statuses[id].status.IsTerminal()
    ensures WellFormed(Convert(w, id, outcome, now))
  {
  }

  // ---------------------------------------------------------------------
  // Any number of requests

  /** No request ever changes or removes an existing entry. */
  lemma {:induction false} RunKeepsEntries(w: World, root: string, calls: seq<Call>)
    ensures forall id | id in w.statuses ::
      id in Run(w, root, calls).statuses && Run(w, root, calls).statuses[id] == w.statuses[id]
    decreases |calls|
  {
    if calls != [] {
      RunKeepsEntries(Step(w, root, calls[0]).after, root, calls[1..]);
    }
  }

  /** No request ever removes an artifact. */
  lemma {:induction false} RunKeepsArtifacts(w: World, root: string, calls: seq<Call>)
    ensures w.artifacts <= Run(w, root, calls).artifacts
    decreases |calls|
  {
    if calls != [] {
      RunKeepsArtifacts(Step(w, root, calls[0]).after, root, calls[1..]);
    }
  }

  /** A tracked paper without an artifact never gets one. */
  lemma {:induction false} TrackedWithoutArtifactStaysSo(w: World, root: string, calls: seq<Call>, id: string)
    requires id in w.statuses && id !in w.artifacts
    ensures id !in Run(w, root, calls).artifacts
    decreases |calls|
  {
    if calls != [] {
      var next := Step(w, root, calls[0]).after;
      assert id !in NewWork(w, calls[0].request);
      TrackedWithoutArtifactStaysSo(next, root, calls[1..], id);
    }
  }

  /** Between requests every entry keeps the record invariants and none is `converting`. */
  lemma {:induction false} RunPreservesSettled(w: World, root: string, calls: seq<Call>)
    requires Settled(w)
    ensures Settled(Run(w, root, calls))
    decreases |calls|
  {
    if calls != [] {
      RunPreservesSettled(Step(w, root, calls[0]).after, root, calls[1..]);
    }
  }

  /** From a fresh process, whatever `.md` files are already on disk, every reachable state is settled. */
  lemma ReachableIsSettled(root: string, files: set<string>, calls: seq<Call>)
    ensures Settled(Run(World(map[], files), root, calls))
  {
    RunPreservesSettled(World(map[], files), root, calls);
  }

  /**
   * A tracked paper without an artifact is frozen: after any requests, a
   * fetch still reports the same phase and start time, and a check the same entry.
   */
  lemma TrackedPaperIsFrozen(w: World, root: string, calls: seq<Call>, id: string, later: Call)
    requires id in w.statuses && id !in w.artifacts
    requires later.request.paperId == Some(id)
    ensures var s := w.statuses[id];
      Step(Run(w, root, calls), root, later).response
        == if later.request.checkStatus then StatusReport(s.status, s.startedAt, s.completedAt, s.error)
           else CurrentStatus(s.status, s.startedAt)
  {
    RunKeepsEntries(w, root, calls);
    TrackedWithoutArtifactStaysSo(w, root, calls, id);
  }

  /**
   * A paper not found on arXiv is stranded: whatever comes after, a fetch for
   * it reports `downloading` and never tries again.
   */
  lemma NotFoundStrandsForever(w: World, root: string, id: string, startTime: Time, endTime: Time,
                               conversion: ConversionOutcome, calls: seq<Call>, later: Call)
    requires id !in w.artifacts && id !in w.statuses
    requires later.request == Request(Some(id), false)
    ensures var stranded := Handle(w, root, Request(Some(id), false), NotFound, conversion, startTime, endTime).after;
      var r := Step(Run(stranded, root, calls), root, later);
      && r.response == CurrentStatus(Downloading, startTime)
      && r.response.Status() == "downloading"
      && Attempts(stranded, root, calls + [later], id) == 0
  {
    var stranded := Handle(w, root, Request(Some(id), false), NotFound, conversion, startTime, endTime).after;
    TrackedPaperIsFrozen(stranded, root, calls, id, later);
    TrackedNeverRefetched(stranded, root, calls + [later], id);
  }

  /** Once on disk, a paper is served from the cache by every later fetch. */
  lemma AvailableForever(w: World, root: string, calls: seq<Call>, id: string, later: Call)
    requires id in w.artifacts
    requires later.request == Request(Some(id), false)
    ensures var before := Run(w, root, calls);
      Step(before, root, later) == Reply(before, AlreadyAvailable(MarkdownUri(root, id)))
  {
    RunKeepsArtifacts(w, root, calls);
  }

  /** A paper with an entry is never downloaded again. */
  lemma {:induction false} TrackedNeverRefetched(w: World, root: string, calls: seq<Call>, id: string)
    requires id in w.statuses
    ensures Attempts(w, root, calls, id) == 0
    decreases |calls|
  {
    if calls != [] {
      TrackedNeverRefetched(Step(w, root, calls[0]).after, root, calls[1..], id);
    }
  }

  /** Served one at a time, requests start at most one download per paper. */
  lemma {:induction false} AtMostOneDownload(w: World, root: string, calls: seq<Call>, id: string)
    ensures Attempts(w, root, calls, id) <= 1
    decreases |calls|
  {
    if calls != [] {
      var next := Step(w, root, calls[0]).after;
      if id in NewWork(w, calls[0].request) {
        TrackedNeverRefetched(next, root, calls[1..], id);
      } else {
        AtMostOneDownload(next, root, calls[1..], id);
      }
    }
  }

  // ---------------------------------------------------------------------
  // A paper arXiv does not know, and one converted by an earlier run

  /**
   * A status check for an unseen id answers `unknown`; a fetch that the
   * remote side cannot resolve answers "not found", and leaves it `downloading`.
   */
  method NotFoundScenario(root: string) returns (first: Response, second: Response, third: Response)
    ensures first == NoActivity && first.Status() == "unknown"
    ensures second.Status() == "error" && second.Message() == "Paper 9999.99999 not found on arXiv"
    ensures third == CurrentStatus(Downloading, 1) && third.Status() == "downloading"
  {
    var server := new DownloadServer(root, {});
    var id := "9999.99999";
    first := server.HandleDownload(Request(Some(id), true), NotFound, Converted, 0, 0);
    assert server.State() == World(map[], {});
    second := server.HandleDownload(Request(Some(id), false), NotFound, Converted, 1, 1);
    assert second == NotOnArxiv(id);
    assert server.State() == World(map[id := Started(id, 1)], {});
    third := server.HandleDownload(Request(Some(id), false), Fetched, Converted, 2, 2);
  }

  /**
   * After a restart the status map is empty but the files remain: a check
   * answers "Paper is ready" from disk, and a fetch "Paper already available".
   */
  method RestartScenario(root: string) returns (check: Response, fetch: Response)
    ensures check == PaperReady(MarkdownUri(root, "2301.00001")) && check.Message() == "Paper is ready"
    ensures fetch == AlreadyAvailable(MarkdownUri(root, "2301.00001")) && fetch.Status() == "success"
  {
    var id := "2301.00001";
    var server := new DownloadServer(root, {id});
    check := server.HandleDownload(Request(Some(id), true), NotFound, Converted, 0, 0);
    fetch := server.HandleDownload(Request(Some(id), false), NotFound, Converted, 1, 1);
  }
}
