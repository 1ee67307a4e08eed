# peerflix-web session controller, in Dafny

A model of the control core of peerflix-web (`server.js`), a small HTTP
server that resolves a torrent, streams it with peerflix into a scratch
directory under the system temp directory, and hands the local stream URL to
omxplayer. The core is the single global `connection` and the handlers that
create, supersede, observe and stop it:

- `wrappers.dfy` — `Option`, the model's `null`/`undefined`.
- `decimal.dfy` — decimal rendering of a port number and its inverse.
- `scratch_cache.dfy` — `clearTorrentCache` as a pure filter over a
  directory listing, and the `peerflix-<uuid>` naming of scratch directories.
- `player.dfy` — the omxplayer vocabulary: `states`, `omxCtrlMap`, the play
  arguments.
- `session.dfy` — the controller state, the `stop` helper, and one pure step
  function per route or callback, each returning the next state and the list
  of effects (library calls and replies) it performs.
- `traces.dfy` — properties of whole event sequences: at most one live
  connection, idempotent stop, at most one bind retry per server, the
  listening guard.

Every asynchronous callback of `/play` is its own event (`ResolveOk`,
`ResolveErr`, `BindError`, `Listening`), so events may arrive in any
interleaving. Each call into a library (`readTorrent`, `peerflix`,
`destroy`, `listen(0)`, `omx.play`, `omx.stop`, `omx[...]()`,
`clearTorrentCache`) is an `Effect`; each value a library hands back
(`uuid.v4()`, `omx.getState()`, the swarm counters and the torrent name and
length read from the connection object, `server.address().port`) is a field
of the event that carries it.

The controller records every connection it has created: the request whose
`reply` its `listening` handler holds, whether its `once('error')` handler is
still armed, and whether `destroy` was called. A connection is live when it is
not destroyed. Connection identities count up from 0, as each `peerflix(...)`
call returns a new object; the uuid only names the scratch directory.

Behaviour of the code that the model keeps as written:

- The `listening` handler and the `error` handler of a server both read the
  global `connection`, not their own server. The guard at line 169 does not
  compare session identities; it only asks whether some connection exists.
  A superseded server that still reports `listening` starts playback at the
  current connection's port and answers its own request
  (`Traces.GuardIgnoresOrigin`).
- The bind retry calls `listen(0)` on the current connection's server, which
  need not be the server that failed. With no connection it dereferences
  null (`NullServer`).
- A second bind error finds no handler and is not reported to the client.
- A resolve error does not stop the running connection.
- A `/stop` while `readTorrent` is pending does not cancel the start; the
  callback still creates the connection and playback starts
  (`Traces.StopWhileResolving`).
- Superseding a connection purges the scratch cache only because `stop` is
  called. A `/play` with no current connection does not purge.

## Model

| member | source | states |
|---|---|---|
| ScratchCache.Head | server.js:53 | `substr(0, len)` yields the first `len` characters, or the whole string when it is shorter, and is always a prefix |
| ScratchCache.ScratchEntryIsPrefix | server.js:53 | the 9-character `substr` test holds exactly when the name starts with `peerflix-`; shorter names never match |
| ScratchCache.ScratchName | server.js:160 | a connection's scratch directory is `peerflix-` followed by the uuid, so it passes the purge test, and the uuid can be read back from it |
| ScratchCache.ScratchNameInjective | server.js:160 | different uuids name different scratch directories |
| ScratchCache.Removed | server.js:52-56 | the deleted entries are exactly the listed ones with the prefix |
| ScratchCache.RemovedAppend | server.js:52-56 | filtering a listing in two parts and joining the results equals filtering the whole, so deleted entries keep their listing order |
| ScratchCache.Kept | server.js:52-56 | the entries left are exactly the listed ones without the prefix |
| ScratchCache.PurgePartitions | server.js:52-56 | deleted and kept entries together are the listing as a multiset: nothing lost, nothing duplicated |
| ScratchCache.Purge | server.js:46-58 | a readdir error deletes nothing; otherwise an entry is deleted if and only if it is listed and has the prefix |
| ScratchCache.Readdir | server.js:47-48 | a read hands the callback the directory's entries when it succeeds and an error otherwise |
| ScratchCache.AfterPurge | server.js:46-58 | after a purge whose read failed the directory is unchanged; otherwise it holds exactly the unprefixed entries; in both cases the directory is what was there minus what was deleted, as multisets |
| ScratchCache.PurgeTwiceRemovesNothing | server.js:46-58 | after a purge that listed the directory, a second purge deletes nothing, whether its own read succeeds or fails |
| ScratchCache.PurgeAfterFailedRead | server.js:46-58 | after a purge whose read failed, a purge that reads the directory deletes every prefixed entry |
| ScratchCache.PurgeEntries | server.js:52-56 | the `forEach` loop deletes the same entries as the filter, each of them prefixed |
| Player.StateName | server.js:27 | `states[code]` is a name for codes 0 to 2 and `undefined` for any other code |
| Player.StateNameInjective | server.js:27 | the three state codes have three different names |
| Player.Lookup | server.js:217-218 | a command selects a driver method if and only if it is a key of `omxCtrlMap`, and the method is that key's value |
| Player.VocabularySize | server.js:28-43 | the command vocabulary has exactly 14 names |
| Player.CommandsDistinct | server.js:28-43 | no two command names drive the same player method |
| Decimal.ToDecimal | server.js:170 | a port renders to a non-empty digit string without a leading zero that reads back as the same number |
| Decimal.ToDecimalInjective | server.js:170 | different ports render to different strings |
| Session.InvLive | server.js:26 | under the controller invariant the live connections are at most one, and that one is the global connection |
| Session.Boot | server.js:124-127 | at start there is no connection, nothing is live, and the only effect is a purge |
| Session.Stop | server.js:60-66 | stop always purges first; with no connection it does nothing else; with one it destroys that connection once, stops the player, clears the connection, and leaves nothing live |
| Session.OnPlayRequest | server.js:152-154 | an absent or empty URL is answered `Torrent URL Required`, any other URL starts resolution; the state is unchanged either way |
| Session.OnResolveErr | server.js:154-155 | a resolve error is answered 400 with the error and leaves the whole state, existing connection included, unchanged |
| Session.OnResolveOk | server.js:156-166 | an existing connection is stopped and destroyed before the new one is spawned with 100 peers, the 1.5 MiB buffer and a `peerflix-` scratch directory; the new connection is the only live one and its error handler is armed; every earlier server keeps its request and handler state, and only the superseded one becomes destroyed |
| Session.OnBindError | server.js:164-166 | an error on a server with its handler armed causes exactly one retry, `listen(0)` on the current connection's server or `NullServer` when there is none, and disarms the handler; otherwise nothing happens; liveness and the connection are untouched |
| Session.LocalUrlInjective | server.js:170 | different ports give different player URLs |
| Session.OnListening | server.js:168-172 | with no connection the request is told `Stream was interrupted` and the player is not called; with one the player gets the local URL of the port and `-o alsa --blank`, and the request gets the same port |
| Session.OnStop | server.js:184-187 | `/stop` performs `stop` and then answers an empty 200, leaving no connection |
| Session.StatusFields | server.js:194-206 | the status body carries `status` if and only if `getState()` indexes `states`, with that name; the seven transfer and metadata fields are present if and only if there is a connection, each copied from what the connection object reports |
| Session.OnStatus | server.js:194-208 | a status query answers the status body and leaves the state unchanged |
| Session.OnCommand | server.js:216-222 | a vocabulary name calls its mapped driver method and answers 200; any other name is answered `Invalid OMX Player command` with no player call; the state is unchanged |
| Session.Step | server.js:148-224 | every event keeps the controller invariant and leaves at most one live connection |
| Traces.Run | server.js:151-177 | any sequence of events from a consistent state ends in a consistent state with at most one live connection |
| Traces.SingleSession | server.js:156-162 | after every prefix of every run from process start at most one connection is live, and it is the global one |
| Traces.StopIdempotent | server.js:60-66 | a second consecutive stop only purges and leaves the state as the first left it |
| Traces.SupersedeDestroysFirst | server.js:156-162 | a new torrent destroys the current connection before spawning one with a different identity, and the old one is no longer live |
| Traces.ScratchOfPlayIsPurged | server.js:160 | the scratch directory of any connection `/play` creates is deleted by any purge whose listing shows it |
| Traces.CommandIgnoresConnection | server.js:216-222 | a command's effects do not depend on the connection and it leaves the state unchanged |
| Traces.StaleStartGuard | server.js:168-169 | a `listening` that arrives straight after `stop`, before any new connection, never reaches the player and answers `Stream was interrupted` |
| Traces.StopWhileResolving | server.js:154-171 | a `/stop` while `readTorrent` is pending does not cancel the start: the callback still creates the connection and its `listening` starts playback and answers the port |
| Traces.GuardIgnoresOrigin | server.js:168-171 | a `listening` from a destroyed server still starts playback while another connection is current |
| Traces.StepRetryBudget | server.js:164-166 | no event raises a server's remaining retry allowance, and a retry consumes it |
| Traces.RetriesWithinBudget | server.js:164-166 | over any run a server's error handler retries no more than its remaining allowance |
| Traces.AtMostOneRetry | server.js:164-166 | over any run from process start each server's error handler causes at most one `listen(0)` |
| Traces.ExamplePlay | server.js:158-171 | the torrent `clip.mp4` of 1000 bytes bound on port 5555 sends the player to `http://localhost:5555/`, answers port 5555, and status shows `PLAYING`, the name and the size |
| Traces.ExampleStop | server.js:184-187 | stopping that session destroys connection 0, stops the player, and status with an idle player shows only `IDLE` |

## Left out

- ScratchCache.Head: JavaScript's `substr` counts UTF-16 code units, while a Dafny `char` is a Unicode scalar value, so `Head` differs from `substr(0, len)` on names with characters outside the Basic Multilingual Plane among the first `len` units. The nine-character test against the ASCII `peerflix-` gives the same verdict either way.
- The temp-directory part of the scratch path (`path.join(tempDir, ...)`): the model keeps only the entry name `peerflix-<uuid>`, which is a direct child of the temp directory that the purge lists.
- Console logging (server.js:49, 126): the readdir error is swallowed without an effect.
- Hapi server setup, route registration, the static-file routes and the Good logging reporters (server.js:69-146): transport and logging plumbing.
- The internals of `readTorrent`, `peerflix`, `omxctrl`, `rimraf` and `fs.readdir`: foreign libraries, reduced to effects and event fields.
- Real asynchrony: callbacks are events in any order. The model does not restrict the environment to well-formed callback orders, so the properties hold for every order.
- The asynchronous gap between a `Purge` effect and the `readdir` result: the filter (`ScratchCache.Purge`) is modelled on a listing, not tied to the moment of the effect.
- Process crashes: a second `error` event on a server finds no listener, which in Node throws; the model records no effect for it. `NullServer` marks the null dereference of the retry handler, but the model keeps running after it.
- A `listening` handler that fires twice and replies twice: the model lets it fire any number of times but does not model Hapi's reaction to a second reply.
- `server.address()` returning null before a server is bound: the port is an input of the `Listening` event.
- `rimraf.sync` throwing while deleting an entry.
- `/play` payloads whose `url` is not a string (numbers, booleans, objects) and a missing payload: the URL is an optional string.
- Swarm statistic values and the torrent name and length read from the connection object: they are inputs of the status event, and the model does not relate them to the torrent `readTorrent` resolved. The 1.5 MiB buffer is the string `"1572864"` that `(1.5 * 1024 * 1024).toString()` yields.
- The prototype-key behaviour of the plain `omxCtrlMap` object (a name such as `toString` finds an inherited function): the map is a finite 14-entry map.
- The unused `kickass` import and the `PORT` environment/argument fallback (server.js:22): configuration.
- Uniqueness of `uuid.v4()`: the uuid is an input string; connection identity does not depend on it.
- Timeouts for resolution or binding and a player-launch failure path: the code has neither.
