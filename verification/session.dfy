/**
 The session controller of the peerflix web server: the single global
 `connection`, the `stop` helper and the `/play`, `/stop`, `/status` and
 `/{omx_command}` handlers, with every callback of the asynchronous `/play`
 sequence turned into an event of its own.

 The libraries the server drives (read-torrent, peerflix, omxctrl, rimraf,
 fs) are not modelled; each call into them is an `Effect` the step emits, and
 each value they hand back is a field of the `Event` that delivers it.
 */
module Session {
  import opened Wrappers
  import ScratchCache
  import Player
  import Decimal

  /** Identity of one `peerflix(...)` result, in creation order. */
  type SessionId = nat
  /** Identity of one HTTP request, so that a reply can be matched to it. */
  type RequestId = nat

  /** The metadata `readTorrent` resolves a URL to, as far as the server reads it. */
  datatype Torrent = Torrent(name: string, length: int)

  /** What the current connection object reports at the moment of a status
      query: its swarm counters, and the name and length of the torrent it
      holds (`connection.torrent`, which peerflix fills in itself). */
  datatype EngineSnapshot = EngineSnapshot(
    downloadSpeed: real, uploadSpeed: real, paused: bool, downloaded: int, uploaded: int,
    torrentName: string, torrentLength: int)

  /** The value of the global `connection` when it is not null. */
  datatype Conn = Conn(id: SessionId, torrent: Torrent, scratch: string)

  /** What is known of the stream server of one connection ever created:
      the request whose `reply` its `listening` handler holds, whether its
      `once('error')` handler has yet to run, and whether `destroy` was called. */
  datatype ServerRec = ServerRec(request: RequestId, errorHandlerArmed: bool, destroyed: bool)

  datatype Controller = Controller(
    connection: Option<Conn>,
    servers: map<SessionId, ServerRec>,
    nextId: SessionId)

  /** Options handed to `peerflix`: the peer ceiling and the buffer size,
      which the server passes as the string form of 1.5 MiB. */
  const MaxConnections: nat := 100
  const BufferSize: string := "1572864"

  /** JSON values of a status reply. */
  datatype Value = VStr(s: string) | VReal(x: real) | VInt(i: int) | VBool(b: bool)

  datatype Body =
    | NoContent
    | PortBody(port: nat)
    | StatusBody(fields: map<string, Value>)
    | BadRequest(message: string)
    | ResolveFailed(error: string)

  datatype Effect =
    | Purge                                   // clearTorrentCache()
    | Destroy(session: SessionId)             // connection.destroy()
    | OmxStop                                 // omx.stop()
    | ReadTorrent(request: RequestId, url: string)
    | Spawn(session: SessionId, torrent: Torrent, scratch: string, connections: nat, buffer: string)
    | Listen0(session: SessionId)             // connection.server.listen(0)
    | NullServer                              // `connection.server` read while connection is null
    | OmxPlay(url: string, args: seq<string>)
    | OmxCall(driverMethod: string)           // omx[actualCommand]()
    | Reply(request: RequestId, body: Body)

  datatype Event =
    | PlayRequest(request: RequestId, url: Option<string>)
      /** the `readTorrent` callback with a torrent; `uuid` is what `uuid.v4()` returns */
    | ResolveOk(request: RequestId, torrent: Torrent, uuid: string)
    | ResolveErr(request: RequestId, error: string)
      /** an `error` event on the stream server of `session` */
    | BindError(session: SessionId)
      /** a `listening` event on the stream server of `session`; `port` is what
          `connection.server.address().port` reads at that moment */
    | Listening(session: SessionId, port: nat)
    | StopRequest(request: RequestId)
      /** `playerState` is what `omx.getState()` returns */
    | StatusRequest(request: RequestId, playerState: int, engine: EngineSnapshot)
    | CommandRequest(request: RequestId, name: string)

  datatype Outcome = Outcome(next: Controller, effects: seq<Effect>)

  /** The connections whose `destroy` has not been called. */
  function Live(c: Controller): set<SessionId> {
    set s | s in c.servers && !c.servers[s].destroyed
  }

  /** The bookkeeping the model keeps consistent: identities are handed out in
      order, the global connection is a created, undestroyed one, and it is
      the only one. */
  predicate Inv(c: Controller) {
    && (forall s :: s in c.servers ==> s < c.nextId)
    && (c.connection.Some? ==>
          c.connection.value.id in c.servers && !c.servers[c.connection.value.id].destroyed)
    && (forall s :: s in c.servers && !c.servers[s].destroyed ==>
          c.connection.Some? && c.connection.value.id == s)
  }

  /** At most one connection is live, and it is the global one. */
  lemma InvLive(c: Controller)
    requires Inv(c)
    ensures Live(c) == if c.connection.Some? then {c.connection.value.id} else {}
    ensures |Live(c)| <= 1
  {
  }

  /** The state at process start; `server.start` purges the scratch cache. */
  function Boot(): (r: Outcome)
    ensures Inv(r.next) && Live(r.next) == {}
    ensures r.next.connection.None?
    ensures r.effects == [Purge]
  {
    Outcome(Controller(None, map[], 0), [Purge])
  }

  function MarkDestroyed(servers: map<SessionId, ServerRec>, s: SessionId): map<SessionId, ServerRec> {
    if s in servers then servers[s := servers[s].(destroyed := true)] else servers
  }

  /** The `stop` helper: purge the scratch cache, then, if there is a
      connection, destroy it, forget it and stop the player. */
  function Stop(c: Controller): (r: Outcome)
    ensures |r.effects| >= 1 && r.effects[0] == Purge
    ensures r.next.connection.None?
    ensures r.next.nextId == c.nextId
    ensures c.connection.None? ==> r == Outcome(c, [Purge])
    ensures c.connection.Some? ==>
              r.effects == [Purge, Destroy(c.connection.value.id), OmxStop]
    ensures forall s :: s in r.next.servers <==> s in c.servers
    ensures forall s :: s in c.servers ==>
              r.next.servers[s].request == c.servers[s].request &&
              r.next.servers[s].errorHandlerArmed == c.servers[s].errorHandlerArmed &&
              (r.next.servers[s].destroyed <==>
                 c.servers[s].destroyed || (c.connection.Some? && s == c.connection.value.id))
    ensures Inv(c) ==> Inv(r.next) && Live(r.next) == {}
  {
    match c.connection
    case None => Outcome(c, [Purge])
    case Some(conn) =>
      Outcome(Controller(None, MarkDestroyed(c.servers, conn.id), c.nextId),
              [Purge, Destroy(conn.id), OmxStop])
  }

  /** JavaScript truthiness of the `url` field of the `/play` payload. */
  predicate Truthy(url: Option<string>) {
    url.Some? && url.value != ""
  }

  const UrlRequired: string := "Torrent URL Required"
  const Interrupted: string := "Stream was interrupted"
  const InvalidCommand: string := "Invalid OMX Player command"

  /** `/play`, up to the call to `readTorrent`. */
  function OnPlayRequest(c: Controller, req: RequestId, url: Option<string>): (r: Outcome)
    ensures r.next == c
    ensures !Truthy(url) ==> r.effects == [Reply(req, BadRequest(UrlRequired))]
    ensures Truthy(url) ==> r.effects == [ReadTorrent(req, url.value)]
  {
    if Truthy(url) then Outcome(c, [ReadTorrent(req, url.value)])
    else Outcome(c, [Reply(req, BadRequest(UrlRequired))])
  }

  /** The `readTorrent` callback with an error: answer 400 and touch nothing. */
  function OnResolveErr(c: Controller, req: RequestId, error: string): (r: Outcome)
    ensures r.next == c
    ensures r.effects == [Reply(req, ResolveFailed(error))]
  {
    Outcome(c, [Reply(req, ResolveFailed(error))])
  }

  /** The `readTorrent` callback with a torrent: stop any current connection,
      then create the new one streaming into `peerflix-<uuid>`, arm its
      one-shot error handler and register its listening handler. */
  function OnResolveOk(c: Controller, req: RequestId, torrent: Torrent, uuid: string): (r: Outcome)
    ensures r.next.connection == Some(Conn(c.nextId, torrent, ScratchCache.ScratchName(uuid)))
    ensures r.next.nextId == c.nextId + 1
    ensures ScratchCache.IsScratchEntry(r.next.connection.value.scratch)
    ensures c.connection.None? ==>
              r.effects == [Spawn(c.nextId, torrent, ScratchCache.ScratchName(uuid), MaxConnections, BufferSize)]
    ensures c.connection.Some? ==>
              r.effects == [Purge, Destroy(c.connection.value.id), OmxStop,
                            Spawn(c.nextId, torrent, ScratchCache.ScratchName(uuid), MaxConnections, BufferSize)]
    ensures c.nextId in r.next.servers &&
            r.next.servers[c.nextId] == ServerRec(req, true, false)
    ensures r.next.servers.Keys == c.servers.Keys + {c.nextId}
    ensures forall s :: s in c.servers && s != c.nextId ==>
              r.next.servers[s].request == c.servers[s].request &&
              r.next.servers[s].errorHandlerArmed == c.servers[s].errorHandlerArmed &&
              (r.next.servers[s].destroyed <==>
                 c.servers[s].destroyed || (c.connection.Some? && s == c.connection.value.id))
    ensures Inv(c) ==> Inv(r.next) && Live(r.next) == {c.nextId}
  {
    var pre := if c.connection.Some? then Stop(c) else Outcome(c, []);
    var id := c.nextId;
    var scratch := ScratchCache.ScratchName(uuid);
    Outcome(Controller(Some(Conn(id, torrent, scratch)),
                       pre.next.servers[id := ServerRec(req, true, false)],
                       id + 1),
            pre.effects + [Spawn(id, torrent, scratch, MaxConnections, BufferSize)])
  }

  /** `connection.server.once('error', ...)`: the first error on a server
      calls `listen(0)` on the server of whatever connection is current; a
      later error finds no handler. */
  function OnBindError(c: Controller, s: SessionId): (r: Outcome)
    ensures r.next.connection == c.connection && r.next.nextId == c.nextId
    ensures |r.effects| <= 1
    ensures |r.effects| == 1 <==> s in c.servers && c.servers[s].errorHandlerArmed
    ensures |r.effects| == 1 ==>
              r.effects[0] == if c.connection.Some? then Listen0(c.connection.value.id) else NullServer
    ensures s in r.next.servers ==> !r.next.servers[s].errorHandlerArmed
    ensures r.next.servers.Keys == c.servers.Keys
    ensures forall t :: t in c.servers && t != s ==> r.next.servers[t] == c.servers[t]
    ensures s in c.servers ==>
              r.next.servers[s] == c.servers[s].(errorHandlerArmed := false)
    ensures Live(r.next) == Live(c)
    ensures Inv(c) ==> Inv(r.next)
  {
    if s in c.servers && c.servers[s].errorHandlerArmed then
      var next := c.(servers := c.servers[s := c.servers[s].(errorHandlerArmed := false)]);
      assert Live(next) == Live(c);
      match c.connection
      case Some(conn) => Outcome(next, [Listen0(conn.id)])
      case None => Outcome(next, [NullServer])
    else
      Outcome(c, [])
  }

  /** The local URL handed to the player. */
  function LocalUrl(port: nat): string {
    "http://localhost:" + Decimal.ToDecimal(port) + "/"
  }

  /** Distinct ports give distinct URLs. */
  lemma LocalUrlInjective(p1: nat, p2: nat)
    ensures LocalUrl(p1) == LocalUrl(p2) <==> p1 == p2
  {
    var pre := "http://localhost:";
    if LocalUrl(p1) == LocalUrl(p2) {
      var d1, d2 := Decimal.ToDecimal(p1), Decimal.ToDecimal(p2);
      assert LocalUrl(p1)[|pre|..|LocalUrl(p1)| - 1] == d1;
      assert LocalUrl(p2)[|pre|..|LocalUrl(p2)| - 1] == d2;
      Decimal.ToDecimalInjective(p1, p2);
    }
  }

  predicate NoPlay(effects: seq<Effect>) {
    forall i :: 0 <= i < |effects| ==> !effects[i].OmxPlay?
  }

  /** The `listening` handler of the server of `s`: the guard asks only
      whether some connection is current, not whether it is `s`'s. */
  function OnListening(c: Controller, s: SessionId, port: nat): (r: Outcome)
    ensures r.next == c
    ensures s !in c.servers ==> r.effects == []
    ensures s in c.servers && c.connection.None? ==>
              NoPlay(r.effects) &&
              r.effects == [Reply(c.servers[s].request, BadRequest(Interrupted))]
    ensures s in c.servers && c.connection.Some? ==>
              r.effects == [OmxPlay(LocalUrl(port), Player.PlayArgs),
                            Reply(c.servers[s].request, PortBody(port))]
  {
    if s !in c.servers then Outcome(c, [])
    else
      var req := c.servers[s].request;
      if c.connection.None? then Outcome(c, [Reply(req, BadRequest(Interrupted))])
      else Outcome(c, [OmxPlay(LocalUrl(port), Player.PlayArgs), Reply(req, PortBody(port))])
  }

  /** `/stop`: run `stop`, then answer with an empty 200. */
  function OnStop(c: Controller, req: RequestId): (r: Outcome)
    ensures r.next == Stop(c).next
    ensures r.next.connection.None?
    ensures r.effects == Stop(c).effects + [Reply(req, NoContent)]
  {
    var o := Stop(c);
    Outcome(o.next, o.effects + [Reply(req, NoContent)])
  }

  /** The seven transfer and metadata fields of a status reply. */
  const TransferKeys: set<string> :=
    {"downloadSpeed", "uploadSpeed", "paused", "downloaded", "uploaded", "name", "size"}

  /** The `/status` body: the player state name, plus the transfer and
      metadata fields when there is a connection. A state code outside
      `states` gives `undefined`, which the JSON reply leaves out, so the
      body then has no `status` key. */
  function StatusFields(connection: Option<Conn>, playerState: int, engine: EngineSnapshot): (r: map<string, Value>)
    ensures "status" in r <==> 0 <= playerState < |Player.States|
    ensures "status" in r ==> r["status"] == VStr(Player.States[playerState])
    ensures "status" !in TransferKeys
    ensures forall k :: k in TransferKeys ==> (k in r <==> connection.Some?)
    ensures forall k :: k in r ==> k == "status" || k in TransferKeys
    ensures connection.Some? ==>
              && r["downloadSpeed"] == VReal(engine.downloadSpeed)
              && r["uploadSpeed"] == VReal(engine.uploadSpeed)
              && r["paused"] == VBool(engine.paused)
              && r["downloaded"] == VInt(engine.downloaded)
              && r["uploaded"] == VInt(engine.uploaded)
              && r["name"] == VStr(engine.torrentName)
              && r["size"] == VInt(engine.torrentLength)
  {
    var bare := match Player.StateName(playerState)
                case Some(name) => map["status" := VStr(name)]
                case None => map[];
    match connection
    case None => bare
    case Some(_) =>
      bare + map[
        "downloadSpeed" := VReal(engine.downloadSpeed),
        "uploadSpeed" := VReal(engine.uploadSpeed),
        "paused" := VBool(engine.paused),
        "downloaded" := VInt(engine.downloaded),
        "uploaded" := VInt(engine.uploaded),
        "name" := VStr(engine.torrentName),
        "size" := VInt(engine.torrentLength)]
  }

  function OnStatus(c: Controller, req: RequestId, playerState: int, engine: EngineSnapshot): (r: Outcome)
    ensures r.next == c
    ensures r.effects == [Reply(req, StatusBody(StatusFields(c.connection, playerState, engine)))]
  {
    Outcome(c, [Reply(req, StatusBody(StatusFields(c.connection, playerState, engine)))])
  }

  /** `/{omx_command}`: a name of the vocabulary calls its driver method,
      any other name is refused without a player call. */
  function OnCommand(c: Controller, req: RequestId, name: string): (r: Outcome)
    ensures r.next == c
    ensures name in Player.OmxCtrlMap ==>
              r.effects == [OmxCall(Player.OmxCtrlMap[name]), Reply(req, NoContent)]
    ensures name !in Player.OmxCtrlMap ==>
              r.effects == [Reply(req, BadRequest(InvalidCommand))]
  {
    match Player.Lookup(name)
    case Some(m) => Outcome(c, [OmxCall(m), Reply(req, NoContent)])
    case None => Outcome(c, [Reply(req, BadRequest(InvalidCommand))])
  }

  /** One event, dispatched to its handler. */
  function Step(c: Controller, e: Event): (r: Outcome)
    ensures Inv(c) ==> Inv(r.next)
    ensures Inv(c) ==> |Live(r.next)| <= 1
  {
    var r := match e
      case PlayRequest(req, url) => OnPlayRequest(c, req, url)
      case ResolveOk(req, torrent, uuid) => OnResolveOk(c, req, torrent, uuid)
      case ResolveErr(req, error) => OnResolveErr(c, req, error)
      case BindError(s) => OnBindError(c, s)
      case Listening(s, port) => OnListening(c, s, port)
      case StopRequest(req) => OnStop(c, req)
      case StatusRequest(req, k, engine) => OnStatus(c, req, k, engine)
      case CommandRequest(req, name) => OnCommand(c, req, name);
    if Inv(c) then InvLive(r.next); r else r
  }

}
