/**
 * `GhostDownloaderSocketServer.processTextMessage`: how one decoded text
 * frame from the browser extension turns into calls on the application.
 * The application's collaborators (window raising, the add-task dialog, the
 * download engine, the pop-up notification) are recorded as `Effect`s, in
 * the order the handler calls them.  The configuration is read once per
 * message and passed in as a snapshot.
 */
module Dispatcher {
  import opened Wrappers
  import opened Json

  /** The two configuration items the handler reads. */
  datatype Config = Config(raiseWindowOnReceive: bool, downloadFolder: string)

  /** A call the handler makes on a collaborator. */
  datatype Effect =
    | BringToTop
    | ShowAddTaskDialog(url: Json, headers: Object)
    | AddDownloadTask(url: Json, fileName: Json, filePath: string, headers: Object)
    | PopUp(message: Json)

  /** Why a frame was dropped: every one of these is caught and only logged. */
  datatype Failure =
    | DecodeFailure          // the text is not JSON
    | NotAnObject            // the top-level value has no `get`
    | MissingKey(key: string)  // `data[key]` raised KeyError
    | HeadersNotAnObject     // `headers.pop` is not a dict method call

  /** The four fields a download request must carry, as read from the frame. */
  datatype Request = Request(url: Json, headers: Object, referer: Json, filename: Json)

  datatype Message = Heartbeat | Download(request: Request)

  /** What handling one frame amounts to. */
  datatype Outcome = Ignored | Failed(failure: Failure) | Handled(calls: seq<Effect>)

  const RangeHeader := "range"
  const RefererHeader := "referer"
  const RequiredKeys := {"url", "headers", "referer", "filename"}

  /** `data.get("type") == "heartbeat"`: the first `type` member is the string `heartbeat`. */
  predicate IsHeartbeat(data: Object): (r: bool)
    ensures r ==> Member("type", JString("heartbeat")) in data
    ensures !("type" in Keys(data)) ==> !r
  {
    Get(data, "type") == Some(JString("heartbeat"))
  }

  /**
   * Reading the frame, in the order the handler reads it: the heartbeat
   * test, then `url`, `headers` (which must be a dict, as `pop` is called on
   * it before anything else is read), `referer` and `filename`.
   */
  function Decode(decoded: Option<Json>): (r: Result<Message, Failure>)
    ensures r == Ok(Heartbeat) <==> decoded.Some? && decoded.value.JObject? && IsHeartbeat(decoded.value.members)
    ensures r.Ok? && r.value.Download? ==>
      && decoded.Some? && decoded.value.JObject?
      && Get(decoded.value.members, "url") == Some(r.value.request.url)
      && Get(decoded.value.members, "headers") == Some(JObject(r.value.request.headers))
      && Get(decoded.value.members, "referer") == Some(r.value.request.referer)
      && Get(decoded.value.members, "filename") == Some(r.value.request.filename)
    ensures r.Err? && r.error.MissingKey? ==>
      decoded.Some? && decoded.value.JObject? && r.error.key in RequiredKeys && r.error.key !in Keys(decoded.value.members)
  {
    if decoded.None? then Err(DecodeFailure)
    else if !decoded.value.JObject? then Err(NotAnObject)
    else
      var data := decoded.value.members;
      if IsHeartbeat(data) then Ok(Heartbeat)
      else if Get(data, "url").None? then Err(MissingKey("url"))
      else if Get(data, "headers").None? then Err(MissingKey("headers"))
      else if !Get(data, "headers").value.JObject? then Err(HeadersNotAnObject)
      else if Get(data, "referer").None? then Err(MissingKey("referer"))
      else if Get(data, "filename").None? then Err(MissingKey("filename"))
      else Ok(Download(Request(
        Get(data, "url").value,
        Get(data, "headers").value.members,
        Get(data, "referer").value,
        Get(data, "filename").value)))
  }

  /**
   * The headers handed on: the exact (case-sensitive) key `range` dropped,
   * and a truthy `referer` stored under `referer`, replacing any earlier one.
   */
  function OutgoingHeaders(headers: Object, referer: Json): (out: Object)
    ensures RangeHeader !in Keys(out)
    ensures forall k | k != RangeHeader && k != RefererHeader :: Get(out, k) == Get(headers, k)
    ensures Truthy(referer) ==> Get(out, RefererHeader) == Some(referer)
    ensures !Truthy(referer) ==> Get(out, RefererHeader) == Get(headers, RefererHeader)
    ensures Keys(out) == Keys(headers) - {RangeHeader} + (if Truthy(referer) then {RefererHeader} else {})
    ensures UniqueKeys(headers) ==> UniqueKeys(out)
  {
    var stripped := Pop(headers, RangeHeader);
    if Truthy(referer) then Assign(stripped, RefererHeader, referer) else stripped
  }

  /** The label of the pop-up: the file name when it is truthy, the URL otherwise. */
  function PopUpLabel(request: Request): (shown: Json)
    ensures shown == request.filename || shown == request.url
    ensures Truthy(request.filename) ==> shown == request.filename
    ensures Truthy(request.filename) || Truthy(request.url) ==> Truthy(shown)
  {
    if Truthy(request.filename) then request.filename else request.url
  }

  /** The collaborator calls for a request, in the order they are made. */
  function Calls(request: Request, cfg: Config): (calls: seq<Effect>)
    ensures |calls| == 2
    ensures cfg.raiseWindowOnReceive <==> calls[0] == BringToTop
    ensures forall e | e in calls && (e.ShowAddTaskDialog? || e.AddDownloadTask?) ::
      e.url == request.url && e.headers == OutgoingHeaders(request.headers, request.referer)
    ensures !cfg.raiseWindowOnReceive ==> calls[1] == PopUp(PopUpLabel(request))
  {
    var headers := OutgoingHeaders(request.headers, request.referer);
    if cfg.raiseWindowOnReceive then
      [BringToTop, ShowAddTaskDialog(request.url, headers)]
    else
      [AddDownloadTask(request.url, request.filename, cfg.downloadFolder, headers), PopUp(PopUpLabel(request))]
  }

  /** The outcome of one frame: dropped with the reason `Decode` gives, ignored as a heartbeat, or the calls for its request. */
  function Interpret(decoded: Option<Json>, cfg: Config): (r: Outcome)
    ensures r.Failed? <==> Decode(decoded).Err?
    ensures r.Failed? ==> r.failure == Decode(decoded).error
    ensures r == Ignored <==> Decode(decoded) == Ok(Heartbeat)
    ensures r.Handled? ==>
      (Decode(decoded).Ok? && Decode(decoded).value.Download? && r.calls == Calls(Decode(decoded).value.request, cfg))
  {
    match Decode(decoded)
    case Err(failure) => Failed(failure)
    case Ok(Heartbeat) => Ignored
    case Ok(Download(request)) => Handled(Calls(request, cfg))
  }

  /** The collaborator calls one frame causes when no collaborator raises. */
  function Dispatch(decoded: Option<Json>, cfg: Config): (calls: seq<Effect>)
    ensures calls == [] || |calls| == 2
    ensures Decode(decoded).Ok? && Decode(decoded).value.Download? ==> calls == Calls(Decode(decoded).value.request, cfg)
    ensures Decode(decoded).Err? || Decode(decoded) == Ok(Heartbeat) ==> calls == []
  {
    if Interpret(decoded, cfg).Handled? then Interpret(decoded, cfg).calls else []
  }

  /**
   * The calls actually made when the collaborator call at position `k` of
   * `planned` raises (`raising == Some(k)`): that call is made, the handler's
   * `except` clause then skips the rest.
   */
  function Performed(planned: seq<Effect>, raising: Option<nat>): (made: seq<Effect>)
    ensures made <= planned
    ensures raising.None? ==> made == planned
    ensures raising.Some? && raising.value < |planned| ==> |made| == raising.value + 1
    ensures raising.Some? && raising.value >= |planned| ==> made == planned
  {
    if raising.Some? && raising.value < |planned| then planned[..raising.value + 1] else planned
  }

  // ---------------------------------------------------------------------
  // Properties of the handler

  /** A frame carries a download request exactly when it is an object, not a heartbeat, with all four keys and dict-valued headers. */
  ghost predicate IsDownloadRequest(decoded: Option<Json>) {
    && decoded.Some?
    && decoded.value.JObject?
    && !IsHeartbeat(decoded.value.members)
    && RequiredKeys <= Keys(decoded.value.members)
    && Get(decoded.value.members, "headers").value.JObject?
  }

  /** The handler calls some collaborator if and only if the frame is a well-formed download request. */
  lemma CallsExactlyForRequests(decoded: Option<Json>, cfg: Config)
    ensures Dispatch(decoded, cfg) != [] <==> IsDownloadRequest(decoded)
    ensures Dispatch(decoded, cfg) != [] ==> |Dispatch(decoded, cfg)| == 2
  {
  }

  /** A heartbeat is ignored whatever else it carries. */
  lemma HeartbeatIsIgnored(data: Object, cfg: Config)
    requires IsHeartbeat(data)
    ensures Interpret(Some(JObject(data)), cfg) == Ignored
    ensures Dispatch(Some(JObject(data)), cfg) == []
  {
  }

  /** Undecodable text, a non-object, a missing key or a non-dict `headers` is dropped with no call, on either branch. */
  lemma FailuresAreSilent(decoded: Option<Json>, cfg: Config)
    ensures decoded.None? ==> Interpret(decoded, cfg) == Failed(DecodeFailure)
    ensures decoded.Some? && !decoded.value.JObject? ==> Interpret(decoded, cfg) == Failed(NotAnObject)
    ensures (decoded.Some? && decoded.value.JObject? && !IsHeartbeat(decoded.value.members)
      && !(RequiredKeys <= Keys(decoded.value.members))) ==> Interpret(decoded, cfg).Failed?
    ensures (decoded.Some? && decoded.value.JObject? && !IsHeartbeat(decoded.value.members)
      && "url" !in Keys(decoded.value.members)) ==> Interpret(decoded, cfg) == Failed(MissingKey("url"))
    ensures (decoded.Some? && decoded.value.JObject? && !IsHeartbeat(decoded.value.members)
      && "url" in Keys(decoded.value.members) && "headers" !in Keys(decoded.value.members))
      ==> Interpret(decoded, cfg) == Failed(MissingKey("headers"))
    ensures (decoded.Some? && decoded.value.JObject? && !IsHeartbeat(decoded.value.members)
      && "url" in Keys(decoded.value.members) && "headers" in Keys(decoded.value.members)
      && Get(decoded.value.members, "headers").value.JObject? && "referer" !in Keys(decoded.value.members))
      ==> Interpret(decoded, cfg) == Failed(MissingKey("referer"))
    ensures (decoded.Some? && decoded.value.JObject? && !IsHeartbeat(decoded.value.members)
      && "url" in Keys(decoded.value.members) && "headers" in Keys(decoded.value.members)
      && Get(decoded.value.members, "headers").value.JObject? && "referer" in Keys(decoded.value.members)
      && "filename" !in Keys(decoded.value.members)) ==> Interpret(decoded, cfg) == Failed(MissingKey("filename"))
    ensures (decoded.Some? && decoded.value.JObject? && !IsHeartbeat(decoded.value.members)
      && "url" in Keys(decoded.value.members) && "headers" in Keys(decoded.value.members)
      && !Get(decoded.value.members, "headers").value.JObject?) ==> Interpret(decoded, cfg) == Failed(HeadersNotAnObject)
    ensures Interpret(decoded, cfg).Failed? ==> Dispatch(decoded, cfg) == []
  {
  }

  /** A missing `filename` drops the frame even on the interactive branch, which never uses it. */
  lemma MissingFilenameAbortsDialog(data: Object, cfg: Config)
    requires cfg.raiseWindowOnReceive && !IsHeartbeat(data) && "filename" !in Keys(data)
    ensures Dispatch(Some(JObject(data)), cfg) == []
  {
  }

  /** No collaborator ever receives a `range` header. */
  lemma RangeNeverForwarded(decoded: Option<Json>, cfg: Config)
    ensures forall e | e in Dispatch(decoded, cfg) && (e.ShowAddTaskDialog? || e.AddDownloadTask?) :: RangeHeader !in Keys(e.headers)
  {
  }

  /** With a falsy referer the headers are exactly the received ones, less the one `range` member, in their order. */
  lemma FalsyRefererOnlyStripsRange(headers: Object, referer: Json)
    requires UniqueKeys(headers) && !Truthy(referer)
    ensures RangeHeader !in Keys(headers) ==> OutgoingHeaders(headers, referer) == headers
    ensures RangeHeader in Keys(headers) ==>
      var i := IndexOf(headers, RangeHeader);
      OutgoingHeaders(headers, referer) == headers[..i] + headers[i + 1..]
  {
    if RangeHeader in Keys(headers) {
      PopRemovesOneMember(headers, RangeHeader);
    }
  }

  /** With a truthy referer, an existing `referer` member is overwritten in place; otherwise one is appended. */
  lemma TruthyRefererIsStored(headers: Object, referer: Json)
    requires Truthy(referer)
    ensures RefererHeader !in Keys(headers) ==> OutgoingHeaders(headers, referer) == Pop(headers, RangeHeader) + [Member(RefererHeader, referer)]
    ensures RefererHeader in Keys(headers) ==>
      var stripped := Pop(headers, RangeHeader);
      var i := IndexOf(stripped, RefererHeader);
      OutgoingHeaders(headers, referer) == stripped[..i] + [Member(RefererHeader, referer)] + stripped[i + 1..]
  {
    var stripped := Pop(headers, RangeHeader);
    if RefererHeader in Keys(headers) {
      AssignReplacesInPlace(stripped, RefererHeader, referer);
    }
  }

  /** Raise-window branch: bring the window up, then open the dialog; nothing is enqueued. */
  lemma InteractivePath(decoded: Option<Json>, cfg: Config, request: Request)
    requires cfg.raiseWindowOnReceive && Decode(decoded) == Ok(Download(request))
    ensures Dispatch(decoded, cfg) == [BringToTop, ShowAddTaskDialog(request.url, OutgoingHeaders(request.headers, request.referer))]
    ensures forall e | e in Dispatch(decoded, cfg) :: !e.AddDownloadTask? && !e.PopUp?
  {
  }

  /** Direct branch: enqueue into the configured folder, then notify with the file name, or the URL when it is falsy. */
  lemma DirectPath(decoded: Option<Json>, cfg: Config, request: Request)
    requires !cfg.raiseWindowOnReceive && Decode(decoded) == Ok(Download(request))
    ensures Dispatch(decoded, cfg) == [
      AddDownloadTask(request.url, request.filename, cfg.downloadFolder, OutgoingHeaders(request.headers, request.referer)),
      PopUp(PopUpLabel(request))]
    ensures forall e | e in Dispatch(decoded, cfg) :: !e.BringToTop? && !e.ShowAddTaskDialog?
  {
  }

  /** The wire form of a download request the extension sends. */
  function WireForm(request: Request): Json {
    JObject([
      Member("url", request.url),
      Member("headers", JObject(request.headers)),
      Member("referer", request.referer),
      Member("filename", request.filename)])
  }

  /** Decoding the wire form of a request gives that request back. */
  lemma DecodeWireForm(request: Request)
    ensures Decode(Some(WireForm(request))) == Ok(Download(request))
  {
    var data := WireForm(request).members;
    assert Keys(data[3..]) == {"filename"};
    assert Keys(data[2..]) == {"referer", "filename"};
    assert Keys(data[1..]) == {"headers", "referer", "filename"};
    assert Keys(data) == RequiredKeys;
    assert Get(data, "type") == None;
  }

  /** The request of the worked example: a capitalised `Range` header and a referer. */
  const ExampleRequest := Request(
    JString("http://x/y.zip"),
    [Member("Range", JString("bytes=0-1"))],
    JString("http://x"),
    JString("y.zip"))

  /**
   * The exact key `range` is the only one dropped: a `Range` header from the
   * extension reaches the download engine, next to the referer.
   */
  lemma CapitalisedRangeSurvives(folder: string)
    ensures Dispatch(Some(WireForm(ExampleRequest)), Config(false, folder)) == [
      AddDownloadTask(JString("http://x/y.zip"), JString("y.zip"), folder,
        [Member("Range", JString("bytes=0-1")), Member("referer", JString("http://x"))]),
      PopUp(JString("y.zip"))]
  {
    var request := ExampleRequest;
    DecodeWireForm(request);
    DirectPath(Some(WireForm(request)), Config(false, folder), request);
    ExampleHeaders();
    assert Truthy(request.filename);
  }

  lemma ExampleHeaders()
    ensures OutgoingHeaders(ExampleRequest.headers, ExampleRequest.referer)
      == [Member("Range", JString("bytes=0-1")), Member("referer", JString("http://x"))]
  {
  }
}
