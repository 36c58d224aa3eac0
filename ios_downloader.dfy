/**
 * The iOS model downloader: a network-availability rule, a decision chain
 * for one model download (queue it, fail at once, serve it from the cache
 * or start a request), a queue that waits for the first network status
 * and is flushed once the network is available, and the completion
 * handler of a request.
 *
 * The network monitor, the file manager and the URL session are the
 * environment: the current network path, the documents directory, the set
 * of files that exist, and the outcome of each request are values the
 * model is given. Completion blocks are known by the handler name they
 * were created with.
 */
module IosDownloader {
  import opened Bridge

  /** `RNSpokestackDownloadError`, plus the errors the session and the file write report. */
  datatype DownloadError =
    | NetworkNotAvailable
    | NetworkStatusNotAvailable
    | NoResponse
    | DownloadUnsuccessful
    | DocumentsDirectoryNotAvailable
    | TransportError(message: string)
    | WriteError(message: string)

  const NetworkNotAvailableText: string :=
    "The network is not available. Check your network connection. If the network is cellular and you'd like to download over cellular, ensure allowCellular is set to true."
  const NetworkStatusNotAvailableText: string := "The network status has not yet been set by iOS."
  const NoResponseText: string := "A download completed but there was no response."
  const DownloadUnsuccessfulText: string := "A download completed but was not successful"
  const DocumentsDirectoryText: string :=
    "The documents directory was not accesible. Please ensure react-native-spokestack has access for caching model files."

  /** `errorDescription`: the fixed text of each downloader error; session and write errors keep their own. */
  function Description(e: DownloadError): (d: string)
    ensures e.TransportError? ==> d == e.message
    ensures e.WriteError? ==> d == e.message
    ensures e == NetworkNotAvailable ==> d == NetworkNotAvailableText
    ensures e == NetworkStatusNotAvailable ==> d == NetworkStatusNotAvailableText
    ensures e == NoResponse ==> d == NoResponseText
    ensures e == DownloadUnsuccessful ==> d == DownloadUnsuccessfulText
    ensures e == DocumentsDirectoryNotAvailable ==> d == DocumentsDirectoryText
  {
    match e
    case NetworkNotAvailable => NetworkNotAvailableText
    case NetworkStatusNotAvailable => NetworkStatusNotAvailableText
    case NoResponse => NoResponseText
    case DownloadUnsuccessful => DownloadUnsuccessfulText
    case DocumentsDirectoryNotAvailable => DocumentsDirectoryText
    case TransportError(m) => m
    case WriteError(m) => m
  }

  /** An `NWPath`: whether it is satisfied and whether it is expensive (cellular or a hotspot). */
  datatype NetworkPath = NetworkPath(satisfied: bool, isExpensive: bool)

  /** A model URL: its text, its host (absent for a URL without one) and its last path component. */
  datatype Url = Url(text: string, host: Option<string>, lastPathComponent: string)

  /** The two arguments a completion block is called with. */
  datatype Reply = Reply(error: Option<DownloadError>, path: Option<string>)

  /** A data task: the URL it fetches, the completion it reports to and the file it writes. */
  datatype Task = Task(url: Url, handler: string, destination: string)

  /** What the downloader does outside itself: call a completion block, or start a request. */
  datatype Action =
    | Complete(handler: string, reply: Reply)
    | Request(task: Task)

  /**
   * What the session reports to a data task's completion handler: a
   * transport error, the status code of an HTTP response (absent when the
   * response is missing or not HTTP), whether there is data, and the error
   * of writing it, if writing fails.
   */
  datatype TransferOutcome = TransferOutcome(error: Option<string>, status: Option<int>, hasData: bool,
                                             writeError: Option<string>)

  /** `isNetworkAvailable`: unknown until the first path arrives; then satisfied, and cheap unless cellular is allowed. */
  function NetworkAvailable(path: Option<NetworkPath>, allowCellular: bool): (r: bool)
    ensures path.None? ==> !r
    ensures path.Some? ==> (r <==> path.value.satisfied && (allowCellular || !path.value.isExpensive))
  {
    path.Some? && path.value.satisfied && (allowCellular || !path.value.isExpensive)
  }

  /**
   * `allowCellular` matters only for an expensive path: a satisfied cheap
   * path is available either way, a satisfied expensive one exactly when
   * cellular is allowed, an unsatisfied one never.
   */
  lemma CellularOnlyGatesExpensivePaths(p: NetworkPath, allowCellular: bool)
    ensures p.satisfied && !p.isExpensive ==> NetworkAvailable(Some(p), allowCellular)
    ensures p.satisfied && p.isExpensive ==> (NetworkAvailable(Some(p), allowCellular) <==> allowCellular)
    ensures !p.satisfied ==> !NetworkAvailable(Some(p), allowCellular)
  {
  }

  /** `appendingPathComponent`. */
  function Join(dir: string, name: string): string
  {
    dir + "/" + name
  }

  /**
   * `downloadModel` once the network status is known: a non-local URL
   * without network fails with `networkNotAvailable` and no path; a
   * missing documents directory fails; an existing file is served from the
   * cache unless models are refreshed; anything else starts a request for
   * the file named by the URL's last path component.
   */
  function Dispatch(available: bool, refreshModels: bool, documentsDir: Option<string>, files: set<string>,
                    url: Url, handler: string): (a: Action)
    ensures url.host != Some("localhost") && !available ==>
              a == Complete(handler, Reply(Some(NetworkNotAvailable), None))
    ensures (url.host == Some("localhost") || available) && documentsDir.None? ==>
              a == Complete(handler, Reply(Some(DocumentsDirectoryNotAvailable), None))
    ensures (url.host == Some("localhost") || available) && documentsDir.Some? ==>
              var dest := Join(documentsDir.value, url.lastPathComponent);
              (!refreshModels && dest in files ==> a == Complete(handler, Reply(None, Some(dest)))) &&
              (refreshModels || dest !in files ==> a == Request(Task(url, handler, dest)))
    ensures a.Complete? ==> a.handler == handler
    ensures a.Request? ==> a.task.url == url && a.task.handler == handler
  {
    if url.host != Some("localhost") && !available then
      Complete(handler, Reply(Some(NetworkNotAvailable), None))
    else if documentsDir.None? then
      Complete(handler, Reply(Some(DocumentsDirectoryNotAvailable), None))
    else
      var dest := Join(documentsDir.value, url.lastPathComponent);
      if !refreshModels && dest in files then Complete(handler, Reply(None, Some(dest)))
      else Request(Task(url, handler, dest))
  }

  /** A request is only ever started for a reachable URL, and never for a cached file unless models are refreshed. */
  lemma RequestOnlyWhenNeeded(available: bool, refreshModels: bool, documentsDir: Option<string>, files: set<string>,
                              url: Url, handler: string)
    requires Dispatch(available, refreshModels, documentsDir, files, url, handler).Request?
    ensures url.host == Some("localhost") || available
    ensures documentsDir.Some?
    ensures var t := Dispatch(available, refreshModels, documentsDir, files, url, handler).task;
            t.destination == Join(documentsDir.value, url.lastPathComponent) && (refreshModels || t.destination !in files)
  {
  }

  /** `dispatch` took one action for every entry of the queue and nothing else. */
  predicate DispatchesEach(acts: seq<Action>, queue: map<Url, string>, available: bool, refreshModels: bool,
                           documentsDir: Option<string>, files: set<string>)
  {
    |acts| == |queue.Keys| &&
    forall u :: u in queue ==> Dispatch(available, refreshModels, documentsDir, files, u, queue[u]) in acts
  }

  /** The loop of `downloadAll` over the queued entries, in some order, with the network status known. */
  method DispatchAll(queue: map<Url, string>, available: bool, refreshModels: bool, documentsDir: Option<string>,
                     files: set<string>) returns (acts: seq<Action>)
    ensures DispatchesEach(acts, queue, available, refreshModels, documentsDir, files)
  {
    acts := [];
    var pending := queue.Keys;
    while pending != {}
      invariant pending <= queue.Keys
      invariant |acts| == |queue.Keys| - |pending|
      invariant forall u :: u in queue.Keys - pending ==>
                  Dispatch(available, refreshModels, documentsDir, files, u, queue[u]) in acts
      decreases pending
    {
      var u :| u in pending;
      acts := acts + [Dispatch(available, refreshModels, documentsDir, files, u, queue[u])];
      pending := pending - {u};
    }
  }

  /**
   * The replies of a data task's completion handler AS WRITTEN: a
   * transport error is reported and the handler goes on, so the response
   * check reports a second time.
   */
  function RepliesAsWritten(o: TransferOutcome, dest: string): (rs: seq<Reply>)
    ensures o.error.None? ==> |rs| == 1
  {
    var first := if o.error.Some? then [Reply(Some(TransportError(o.error.value)), Some(dest))] else [];
    var carried := if o.error.Some? then Some(TransportError(o.error.value)) else None;
    first +
    (if o.status.None? then [Reply(Some(NoResponse), Some(dest))]
     else if o.status.value == 200 then
       (if o.hasData && o.writeError.Some? then [Reply(Some(WriteError(o.writeError.value)), Some(dest))]
        else [Reply(carried, Some(dest))])
     else [Reply(Some(DownloadUnsuccessful), Some(dest))])
  }

  /** A transport error makes the handler, as written, call the same completion twice. */
  lemma TransportErrorCompletesTwice(o: TransferOutcome, dest: string)
    requires o.error.Some?
    ensures |RepliesAsWritten(o, dest)| == 2
    ensures RepliesAsWritten(o, dest)[0] == Reply(Some(TransportError(o.error.value)), Some(dest))
    ensures RepliesAsWritten(o, dest)[1].error.Some?
  {
  }

  /** The concrete case: a request that times out without any response. */
  lemma TimeoutWithoutResponseCompletesTwice()
    ensures RepliesAsWritten(TransferOutcome(Some("timed out"), None, false, None), "/docs/model.tflite") ==
            [Reply(Some(TransportError("timed out")), Some("/docs/model.tflite")),
             Reply(Some(NoResponse), Some("/docs/model.tflite"))]
  {
  }

  /**
   * The handler with the evidently intended `return` after a transport
   * error: exactly one reply for every outcome.
   */
  function HandlerReply(o: TransferOutcome, dest: string): (r: Reply)
    ensures r.path == Some(dest)
    ensures o.error.Some? ==> r.error == Some(TransportError(o.error.value))
    ensures r.error.None? <==>
              o.error.None? && o.status == Some(200) && !(o.hasData && o.writeError.Some?)
  {
    if o.error.Some? then Reply(Some(TransportError(o.error.value)), Some(dest))
    else if o.status.None? then Reply(Some(NoResponse), Some(dest))
    else if o.status.value == 200 then
      (if o.hasData && o.writeError.Some? then Reply(Some(WriteError(o.writeError.value)), Some(dest))
       else Reply(None, Some(dest)))
    else Reply(Some(DownloadUnsuccessful), Some(dest))
  }

  /**
   * The correction changes nothing when the transfer succeeded at the
   * transport level, and otherwise keeps exactly the first reply.
   */
  lemma {:induction false} HandlerReplyAgrees(o: TransferOutcome, dest: string)
    ensures o.error.None? ==> RepliesAsWritten(o, dest) == [HandlerReply(o, dest)]
    ensures o.error.Some? ==> RepliesAsWritten(o, dest)[0] == HandlerReply(o, dest)
  {
    if o.error.Some? {
      TransportErrorCompletesTwice(o, dest);
    }
  }

  /** The file is written only by a transport-clean 200 response that carries data. */
  predicate Writes(o: TransferOutcome)
  {
    o.error.None? && o.status == Some(200) && o.hasData && o.writeError.None?
  }

  /** A written file is always reported as a success with its path. */
  lemma WrittenMeansSuccess(o: TransferOutcome, dest: string)
    requires Writes(o)
    ensures HandlerReply(o, dest) == Reply(None, Some(dest))
  {
  }

  /** The downloader object. */
  class Downloader {
    var allowCellular: bool
    var refreshModels: bool
    /** The last network path the monitor reported; absent until the first report. */
    var path: Option<NetworkPath>
    /** The downloads waiting for the first network status, by URL. */
    var queue: map<Url, string>
    /** The file manager's documents directory and the files that exist. */
    var documentsDir: Option<string>
    var files: set<string>
    /** Every completion called and every request started, in order. */
    var log: seq<Action>

    constructor(allowCellular: bool, refreshModels: bool, documentsDir: Option<string>, files: set<string>)
      ensures this.allowCellular == allowCellular && this.refreshModels == refreshModels
      ensures this.documentsDir == documentsDir && this.files == files
      ensures path.None? && queue == map[] && log == []
    {
      this.allowCellular := allowCellular;
      this.refreshModels := refreshModels;
      this.documentsDir := documentsDir;
      this.files := files;
      path := None;
      queue := map[];
      log := [];
    }

    predicate IsNetworkAvailable()
      reads this
    {
      NetworkAvailable(path, allowCellular)
    }

    /**
     * `downloadModel`: with no network status yet the completion is queued
     * under its URL, replacing any earlier one for the same URL; otherwise
     * the download is dispatched at once.
     */
    method DownloadModel(url: Url, handler: string)
      modifies this
      ensures path.None? ==> queue == old(queue)[url := handler] && log == old(log)
      ensures path.Some? ==>
                queue == old(queue) &&
                log == old(log) + [Dispatch(IsNetworkAvailable(), refreshModels, documentsDir, files, url, handler)]
      ensures path == old(path) && allowCellular == old(allowCellular) && refreshModels == old(refreshModels)
      ensures documentsDir == old(documentsDir) && files == old(files)
    {
      if path.None? {
        queue := queue[url := handler];
        return;
      }
      log := log + [Dispatch(IsNetworkAvailable(), refreshModels, documentsDir, files, url, handler)];
    }

    /**
     * `downloadAll`: a non-empty queue with the network available is
     * dispatched entry by entry and then emptied; otherwise nothing happens.
     */
    method DownloadAll()
      modifies this
      ensures old(queue) != map[] && old(IsNetworkAvailable()) ==>
                queue == map[] && |log| >= |old(log)| && log[..|old(log)|] == old(log) &&
                DispatchesEach(log[|old(log)|..], old(queue), true, refreshModels, documentsDir, files)
      ensures !(old(queue) != map[] && old(IsNetworkAvailable())) ==> queue == old(queue) && log == old(log)
      ensures path == old(path) && allowCellular == old(allowCellular) && refreshModels == old(refreshModels)
      ensures documentsDir == old(documentsDir) && files == old(files)
    {
      if queue != map[] && IsNetworkAvailable() {
        var acts := DispatchAll(queue, true, refreshModels, documentsDir, files);
        log := log + acts;
        assert log[|old(log)|..] == acts;
        queue := map[];
      }
    }

    /** The monitor's path update: record the path, then try the queue. */
    method PathUpdate(p: NetworkPath)
      modifies this
      ensures path == Some(p)
      ensures old(queue) != map[] && NetworkAvailable(Some(p), allowCellular) ==>
                queue == map[] && |log| >= |old(log)| && log[..|old(log)|] == old(log) &&
                DispatchesEach(log[|old(log)|..], old(queue), true, refreshModels, documentsDir, files)
      ensures !(old(queue) != map[] && NetworkAvailable(Some(p), allowCellular)) ==>
                queue == old(queue) && log == old(log)
      ensures allowCellular == old(allowCellular) && refreshModels == old(refreshModels)
      ensures documentsDir == old(documentsDir) && files == old(files)
    {
      path := Some(p);
      DownloadAll();
    }

    /** A started request finishes: the file is written if the transfer succeeded, and its completion is called once. */
    method TaskFinished(task: Task, o: TransferOutcome)
      requires Request(task) in log
      modifies this
      ensures log == old(log) + [Complete(task.handler, HandlerReply(o, task.destination))]
      ensures files == if Writes(o) then old(files) + {task.destination} else old(files)
      ensures path == old(path) && queue == old(queue) && documentsDir == old(documentsDir)
      ensures allowCellular == old(allowCellular) && refreshModels == old(refreshModels)
    {
      if Writes(o) {
        files := files + {task.destination};
      }
      log := log + [Complete(task.handler, HandlerReply(o, task.destination))];
    }
  }
}
