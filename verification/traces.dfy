/**
 Properties of whole runs of the session controller: event sequences in any
 interleaving the callbacks may take, starting from process start.
 */
module Traces {
  import opened Wrappers
  import opened Session
  import ScratchCache
  import Player

  /** The state and the effects after the events, in order. */
  function Run(c: Controller, events: seq<Event>): (r: Outcome)
    ensures Inv(c) ==> Inv(r.next) && |Live(r.next)| <= 1
    decreases |events|
  {
    if |events| == 0 then
      if Inv(c) then InvLive(c); Outcome(c, []) else Outcome(c, [])
    else
      var first := Step(c, events[0]);
      var rest := Run(first.next, events[1..]);
      Outcome(rest.next, first.effects + rest.effects)
  }

  /** After every prefix of every run from process start, at most one
      connection has been created and not destroyed. */
  lemma SingleSession(events: seq<Event>, k: nat)
    requires k <= |events|
    ensures |Live(Run(Boot().next, events[..k]).next)| <= 1
    ensures Live(Run(Boot().next, events[..k]).next) <=
              (var conn := Run(Boot().next, events[..k]).next.connection;
               if conn.Some? then {conn.value.id} else {})
  {
    InvLive(Run(Boot().next, events[..k]).next);
  }

  /** A second `stop` straight after a first only purges, and leaves the
      state as the first left it. */
  lemma StopIdempotent(c: Controller)
    ensures Stop(Stop(c).next) == Outcome(Stop(c).next, [Purge])
  {
  }

  /** Starting over a live connection destroys it before the new one is
      spawned, and the superseded server is dead afterwards. */
  lemma SupersedeDestroysFirst(c: Controller, req: RequestId, torrent: Torrent, uuid: string)
    requires Inv(c) && c.connection.Some?
    ensures var r := OnResolveOk(c, req, torrent, uuid);
            var prev := c.connection.value.id;
            && r.effects[1] == Destroy(prev)
            && r.effects[3].Spawn?
            && r.effects[3].session == c.nextId != prev
            && r.next.servers[prev].destroyed
            && prev !in Live(r.next)
  {
  }

  /** The scratch directory of any connection `/play` creates is one the
      purge deletes whenever the listing shows it. */
  lemma ScratchOfPlayIsPurged(c: Controller, req: RequestId, torrent: Torrent, uuid: string, names: seq<string>)
    requires ScratchCache.ScratchName(uuid) in names
    ensures OnResolveOk(c, req, torrent, uuid).next.connection.value.scratch
              in ScratchCache.Purge(ScratchCache.Entries(names))
  {
  }

  /** Commands neither read nor change the connection. */
  lemma CommandIgnoresConnection(c1: Controller, c2: Controller, req: RequestId, name: string)
    ensures Step(c1, CommandRequest(req, name)).next == c1
    ensures Step(c1, CommandRequest(req, name)).effects == Step(c2, CommandRequest(req, name)).effects
  {
  }

  /** Straight after `stop`, before any new connection, a `listening` never
      reaches the player: the request is told the stream was interrupted. */
  lemma StaleStartGuard(c: Controller, s: SessionId, port: nat)
    requires s in c.servers
    ensures var r := Step(Stop(c).next, Listening(s, port));
            && NoPlay(r.effects)
            && r.effects == [Reply(c.servers[s].request, BadRequest(Interrupted))]
  {
  }

  /** The guard checks only that some connection is current: a `listening`
      from a server that was already destroyed still starts playback and
      answers its own request with the port the current connection reads. */
  lemma GuardIgnoresOrigin(c: Controller, s: SessionId, port: nat)
    requires Inv(c) && s in c.servers && c.servers[s].destroyed && c.connection.Some?
    ensures s != c.connection.value.id
    ensures Step(c, Listening(s, port)).effects ==
              [OmxPlay(LocalUrl(port), Player.PlayArgs), Reply(c.servers[s].request, PortBody(port))]
  {
  }

  /** A `/stop` sent while `readTorrent` is still pending does not cancel the
      start: the callback creates the connection and its `listening` starts
      playback. */
  lemma StopWhileResolving()
    ensures var o1 := Step(Boot().next, PlayRequest(1, Some("m")));
            var o2 := Step(o1.next, StopRequest(2));
            var o3 := Step(o2.next, ResolveOk(1, Torrent("clip.mp4", 1000), "u"));
            var o4 := Step(o3.next, Listening(0, 5555));
            && o1.effects == [ReadTorrent(1, "m")]
            && o2.next.connection.None?
            && o3.next.connection.Some?
            && o4.effects == [OmxPlay(LocalUrl(5555), Player.PlayArgs), Reply(1, PortBody(5555))]
  {
  }

  /** How many more `listen(0)` retries the error handler of `s` can still
      make: one before `s` exists, one while armed, none once it has run. */
  function RetryBudget(c: Controller, s: SessionId): nat {
    if s !in c.servers then 1
    else if c.servers[s].errorHandlerArmed then 1
    else 0
  }

  /** Whether this event is an error on `s`'s server that the handler answers. */
  function RetriedBy(c: Controller, e: Event, s: SessionId): nat {
    if e == BindError(s) && |OnBindError(c, s).effects| == 1 then 1 else 0
  }

  function Retries(c: Controller, events: seq<Event>, s: SessionId): nat
    decreases |events|
  {
    if |events| == 0 then 0
    else RetriedBy(c, events[0], s) + Retries(Step(c, events[0]).next, events[1..], s)
  }

  lemma StepRetryBudget(c: Controller, e: Event, s: SessionId)
    requires Inv(c)
    ensures RetriedBy(c, e, s) + RetryBudget(Step(c, e).next, s) <= RetryBudget(c, s)
  {
    match e
    case ResolveOk(req, torrent, uuid) =>
      if s == c.nextId {
        assert s !in c.servers;
      }
    case _ =>
  }

  lemma {:induction false} RetriesWithinBudget(c: Controller, events: seq<Event>, s: SessionId)
    requires Inv(c)
    ensures Retries(c, events, s) <= RetryBudget(c, s)
    decreases |events|
  {
    if |events| > 0 {
      StepRetryBudget(c, events[0], s);
      RetriesWithinBudget(Step(c, events[0]).next, events[1..], s);
    }
  }

  /** Over any run from process start, the error handler of a server causes
      at most one retry. */
  lemma AtMostOneRetry(events: seq<Event>, s: SessionId)
    ensures Retries(Boot().next, events, s) <= 1
  {
    RetriesWithinBudget(Boot().next, events, s);
  }

  /** A concrete session: the torrent `clip.mp4` of 1000 bytes resolves, its
      stream binds port 5555, the player is sent to that port, and a status
      query sees the torrent. */
  lemma ExamplePlay()
    ensures var clip := Torrent("clip.mp4", 1000);
            var c := OnResolveOk(Boot().next, 1, clip, "u").next;
            var fields := StatusFields(c.connection, 0, EngineSnapshot(0.0, 0.0, false, 0, 0, "clip.mp4", 1000));
            && c.connection == Some(Conn(0, clip, "peerflix-u"))
            && OnListening(c, 0, 5555).effects ==
                 [OmxPlay("http://localhost:5555/", ["-o", "alsa", "--blank"]), Reply(1, PortBody(5555))]
            && fields["status"] == VStr("PLAYING")
            && fields["name"] == VStr("clip.mp4")
            && fields["size"] == VInt(1000)
            && fields["downloaded"] == VInt(0)
  {
    assert Decimal.ToDecimal(5555) == "5555" by {
      assert Decimal.ToDecimal(5) == "5";
      assert Decimal.ToDecimal(55) == "55";
      assert Decimal.ToDecimal(555) == "555";
    }
    var clip := Torrent("clip.mp4", 1000);
    var c := OnResolveOk(Boot().next, 1, clip, "u").next;
    assert ScratchCache.ScratchName("u") == "peerflix-u" by {
      assert ScratchCache.Marker + "u" == "peerflix-u";
    }
    assert LocalUrl(5555) == "http://localhost:5555/";
    assert Player.StateName(0) == Some("PLAYING");
  }

  /** The same session stopped: the connection is destroyed and a status
      query with the player idle sees only the state name. */
  lemma ExampleStop()
    ensures var clip := Torrent("clip.mp4", 1000);
            var c := OnResolveOk(Boot().next, 1, clip, "u").next;
            var r := OnStop(c, 3);
            && r.effects == [Purge, Destroy(0), OmxStop, Reply(3, NoContent)]
            && StatusFields(r.next.connection, 2, EngineSnapshot(0.0, 0.0, false, 0, 0, "clip.mp4", 1000))
                 == map["status" := VStr("IDLE")]
  {
  }

}
