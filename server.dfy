/**
 * `GhostDownloaderSocketServer`: the client list, the version announcement
 * sent to each new client, and the text-frame handler, as one object whose
 * methods are the three Qt slots.  What flows out of the object is recorded:
 * `outbox` holds the frames sent to clients, `effects` the collaborator
 * calls made by the handler.
 */
module SocketServer {
  import opened Wrappers
  import opened Json
  import opened Dispatcher
  import opened Registry

  /** A text frame sent to one client, before JSON encoding. */
  datatype Frame = Frame(to: ClientId, message: Json)

  /** The announcement each client receives on connecting. */
  function VersionAnnouncement(clientVersion: string, latestExtensionVersion: string): (j: Json)
    ensures j.JObject? && |j.members| == 3 && UniqueKeys(j.members)
    ensures Get(j.members, "type") == Some(JString("version"))
    ensures Get(j.members, "ClientVersion") == Some(JString(clientVersion))
    ensures Get(j.members, "LatestExtensionVersion") == Some(JString(latestExtensionVersion))
  {
    var members := [
      Member("type", JString("version")),
      Member("ClientVersion", JString(clientVersion)),
      Member("LatestExtensionVersion", JString(latestExtensionVersion))];
    assert Keys(members[2..]) == {"LatestExtensionVersion"};
    assert Keys(members[1..]) == {"ClientVersion", "LatestExtensionVersion"};
    assert UniqueKeys(members[2..]) && UniqueKeys(members[1..]);
    JObject(members)
  }

  class Server {
    const clientVersion: string
    const latestExtensionVersion: string
    // the version announcement, built once from the two version strings
    const announcement: Json

    var clients: seq<ClientId>
    var outbox: seq<Frame>
    var effects: seq<Effect>

    // every client ever handed to OnNewConnection, in order
    ghost var accepted: seq<ClientId>

    /**
     * Every registered client was accepted and is registered once, and the
     * outbox holds exactly one announcement per accepted client, in the
     * order the clients were accepted.
     */
    ghost predicate Valid()
      reads this`clients, this`outbox, this`accepted
      ensures Valid() ==> forall c | c in clients :: Frame(c, announcement) in outbox
    {
      && NoDuplicates(clients)
      && (forall c | c in clients :: c in accepted)
      && NoDuplicates(accepted)
      && |outbox| == |accepted|
      && (forall i | 0 <= i < |outbox| :: outbox[i] == Frame(accepted[i], announcement))
    }

    constructor (clientVersion: string, latestExtensionVersion: string)
      ensures Valid()
      ensures this.clientVersion == clientVersion && this.latestExtensionVersion == latestExtensionVersion
      ensures announcement == VersionAnnouncement(clientVersion, latestExtensionVersion)
      ensures clients == [] && outbox == [] && effects == [] && accepted == []
    {
      this.clientVersion := clientVersion;
      this.latestExtensionVersion := latestExtensionVersion;
      announcement := VersionAnnouncement(clientVersion, latestExtensionVersion);
      clients := [];
      outbox := [];
      effects := [];
      accepted := [];
    }

    /**
     * A new connection: the announcement is sent, then the client is
     * appended.  Each connection is a new socket object, so `c` has never
     * been accepted before.
     */
    method OnNewConnection(c: ClientId)
      requires Valid() && c !in accepted
      modifies this
      ensures Valid()
      ensures outbox == old(outbox) + [Frame(c, announcement)]
      ensures clients == old(clients) + [c]
      ensures effects == old(effects) && accepted == old(accepted) + [c]
    {
      outbox := outbox + [Frame(c, announcement)];
      accepted := accepted + [c];
      clients := clients + [c];
    }

    /** A disconnection: the client is removed if it is still registered. */
    method OnClientDisconnected(c: ClientId)
      requires Valid()
      modifies this
      ensures Valid()
      ensures clients == RemoveFirst(old(clients), c) && c !in clients
      ensures outbox == old(outbox) && effects == old(effects) && accepted == old(accepted)
    {
      RemoveIsIdempotent(clients, c);
      RemoveFirstOnlyDeletes(clients, c);
      if c in clients {
        clients := RemoveFirst(clients, c);
      }
    }

    /** Calls a collaborator: the call is recorded, and `raised` tells whether it threw. */
    method Invoke(e: Effect, position: nat, raising: Option<nat>) returns (raised: bool)
      modifies this`effects
      ensures effects == old(effects) + [e] && raised == (raising == Some(position))
      ensures clients == old(clients) && outbox == old(outbox) && accepted == old(accepted)
    {
      effects := effects + [e];
      raised := raising == Some(position);
    }

    /**
     * A text frame, already passed through `json.loads` (`None` when that
     * raised).  Each early `return` is an exception reaching the handler's
     * `except` clause; `raising` names the collaborator call, if any, that
     * throws.  Nothing but the effect log changes.
     */
    method ProcessTextMessage(decoded: Option<Json>, cfg: Config, raising: Option<nat>)
      requires Valid()
      modifies this`effects
      ensures Valid()
      ensures effects == old(effects) + Performed(Dispatch(decoded, cfg), raising)
      ensures clients == old(clients) && outbox == old(outbox) && accepted == old(accepted)
    {
      if decoded.None? || !decoded.value.JObject? {
        assert Decode(decoded).Err?;
        return;
      }
      var data := decoded.value.members;
      if Get(data, "type") == Some(JString("heartbeat")) {
        assert Decode(decoded) == Ok(Heartbeat);
        return;
      }
      var url := Get(data, "url");
      if url.None? {
        assert Decode(decoded) == Err(MissingKey("url"));
        return;
      }
      var headerValue := Get(data, "headers");
      if headerValue.None? || !headerValue.value.JObject? {
        assert Decode(decoded).Err?;
        return;
      }
      var headers := headerValue.value.members;
      headers := Pop(headers, RangeHeader);
      var referer := Get(data, "referer");
      if referer.None? {
        assert Decode(decoded) == Err(MissingKey("referer"));
        return;
      }
      if Truthy(referer.value) {
        headers := Assign(headers, RefererHeader, referer.value);
      }
      var filename := Get(data, "filename");
      if filename.None? {
        assert Decode(decoded) == Err(MissingKey("filename"));
        return;
      }
      var request := Request(url.value, headerValue.value.members, referer.value, filename.value);
      assert Decode(decoded) == Ok(Download(request));
      assert headers == OutgoingHeaders(request.headers, request.referer);

      CallCollaborators(request, headers, cfg, raising);
    }

    /**
     * The branch on the raise-window flag: the collaborator calls for a
     * request whose headers have been rewritten.
     */
    method CallCollaborators(request: Request, headers: Object, cfg: Config, raising: Option<nat>)
      requires headers == OutgoingHeaders(request.headers, request.referer)
      modifies this`effects
      ensures effects == old(effects) + Performed(Calls(request, cfg), raising)
    {
      var raised;
      if cfg.raiseWindowOnReceive {
        raised := Invoke(BringToTop, 0, raising);
        if raised {
          return;
        }
        raised := Invoke(ShowAddTaskDialog(request.url, headers), 1, raising);
      } else {
        raised := Invoke(AddDownloadTask(request.url, request.filename, cfg.downloadFolder, headers), 0, raising);
        if raised {
          return;
        }
        if Truthy(request.filename) {
          raised := Invoke(PopUp(request.filename), 1, raising);
        } else {
          raised := Invoke(PopUp(request.url), 1, raising);
        }
      }
    }
  }

  /**
   * A session on one connection: an undecodable frame and a frame with a
   * missing key change nothing, and the next well-formed request on the same
   * connection is handled in full.
   */
  method FailedFramesDoNotBlockTheNext(cfg: Config, request: Request)
  {
    var server := new Server("3.5.0", "1.2.0");
    server.OnNewConnection(7);
    assert server.outbox == [Frame(7, VersionAnnouncement("3.5.0", "1.2.0"))];

    server.ProcessTextMessage(None, cfg, None);
    var partial := JObject([Member("url", request.url)]);
    FailuresAreSilent(Some(partial), cfg);
    server.ProcessTextMessage(Some(partial), cfg, None);
    assert server.effects == [];

    DecodeWireForm(request);
    server.ProcessTextMessage(Some(WireForm(request)), cfg, None);
    assert server.effects == Calls(request, cfg);
    assert server.clients == [7];

    server.OnClientDisconnected(7);
    server.OnClientDisconnected(7);
    assert server.clients == [];
  }

  /**
   * A session on one connection where the first collaborator call throws:
   * only that call is made, the connection stays registered, and the same
   * request sent again is handled in full.
   */
  method FailedCallDoesNotBlockTheNext(cfg: Config, request: Request)
  {
    var server := new Server("3.5.0", "1.2.0");
    server.OnNewConnection(7);
    DecodeWireForm(request);
    var planned := Calls(request, cfg);
    assert Performed(planned, Some(0)) == [planned[0]];

    server.ProcessTextMessage(Some(WireForm(request)), cfg, Some(0));
    assert server.effects == [planned[0]];
    assert server.clients == [7];

    server.ProcessTextMessage(Some(WireForm(request)), cfg, None);
    assert server.effects == [planned[0]] + planned;
  }
}
