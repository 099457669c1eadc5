/**
 * What both generations of the per-guild player share: the endpoint
 * normalisation, the voice transport seen from the player (an abstract
 * connection plus the trace of calls made on it), the runner slot that
 * `_connect` fills, and the reconnect loop that runs in that slot.
 *
 * The transport itself (`_native_voice`) is not modelled: a connection is a
 * record of what `is_playing()`, `is_paused()` and `get_state()` answer, and
 * every call the player makes on the connector or the connection is
 * appended to `trace`.
 */
module Voice {
  import opened Results
  import opened Json

  /** An open voice connection, as the player observes it. */
  datatype Link = Link(playing: bool, paused: bool, state: Value)

  /** A call on the connector or the connection. */
  datatype Command =
    | UpdateSocket(token: Value, guild: Value, endpoint: string)
    | Connect
    | Run
    | Play(url: Value)
    | Stop
    | Pause
    | Resume
    | Disconnect
    | GetState

  /**
   * The transport-facing fields of a player: the connector's session id,
   * `_connection`, `_runner` (a task number), how many runner tasks were
   * created, which were cancelled, and the calls made so far.
   */
  datatype Wire = Wire(
    sessionId: Value,
    connection: Option<Link>,
    runner: Option<nat>,
    spawned: nat,
    cancelled: seq<nat>,
    trace: seq<Command>)

  /** A new player: no session, no connection, no runner, nothing called. */
  const Fresh: Wire := Wire(Null, None, None, 0, [], [])

  /**
   * The runner slot holds the newest task, which was not cancelled, and
   * every older task was cancelled.
   */
  predicate AtMostOneLive(w: Wire) {
    && (w.runner.Some? ==> w.runner.value == w.spawned - 1 && w.runner.value !in w.cancelled)
    && (w.runner.None? ==> w.spawned == 0)
    && (forall t :: t in w.cancelled ==> t < w.spawned)
    && (forall t :: 0 <= t < w.spawned && Some(t) != w.runner ==> t in w.cancelled)
  }

  // Op dispatch

  /** The op handlers a player can have. */
  datatype Op = VoiceUpdateOp | DestroyOp | PlayOp | StopOp | SetPauseStateOp | SetPositionOp | SetFilterOp | DebugOp

  /** The `op` string each handler is registered under. */
  function OpName(o: Op): string {
    match o
    case VoiceUpdateOp => "voice_update"
    case DestroyOp => "destroy"
    case PlayOp => "play"
    case StopOp => "stop"
    case SetPauseStateOp => "set_pause_state"
    case SetPositionOp => "set_position"
    case SetFilterOp => "set_filter"
    case DebugOp => "debug"
  }

  /** The handler registered under `n`, if any. */
  function OpNamed(n: string): (r: Option<Op>)
    ensures r.Some? ==> OpName(r.value) == n
  {
    if n == "voice_update" then Some(VoiceUpdateOp)
    else if n == "destroy" then Some(DestroyOp)
    else if n == "play" then Some(PlayOp)
    else if n == "stop" then Some(StopOp)
    else if n == "set_pause_state" then Some(SetPauseStateOp)
    else if n == "set_position" then Some(SetPositionOp)
    else if n == "set_filter" then Some(SetFilterOp)
    else if n == "debug" then Some(DebugOp)
    else None
  }

  /**
   * `table.get(op)` for a handler table holding the ops in `table`: a list
   * or dict `op` cannot be looked up; any other value finds the handler
   * registered under it, if there is one.
   */
  function HandlerFor(table: set<Op>, op: Value): Result<Option<Op>> {
    if !Hashable(op) then Failure(TypeError("unhashable type"))
    else if op.Str? && OpNamed(op.s).Some? && OpNamed(op.s).value in table then Success(OpNamed(op.s))
    else Success(None)
  }

  /** Each handler in the table is found under its own name and no other; nothing outside the table is found. */
  lemma HandlerForSpec(table: set<Op>, op: Value, o: Op)
    ensures HandlerFor(table, op) == Success(Some(o)) <==> o in table && op == Str(OpName(o))
  {
    if op == Str(OpName(o)) {
      match o
      case VoiceUpdateOp =>
      case DestroyOp =>
      case PlayOp =>
      case StopOp =>
      case SetPauseStateOp =>
      case SetPositionOp =>
      case SetFilterOp =>
      case DebugOp =>
    }
  }

  // Endpoint normalisation

  /** `s.rpartition(c)[0]`: everything before the last `c`, or `''` when there is none. */
  function BeforeLast(s: string, c: char): (r: string)
    ensures c !in s ==> r == []
    ensures c in s ==> |r| < |s| && s[..|r|] == r && s[|r|] == c && c !in s[|r| + 1..]
    decreases |s|
  {
    if |s| == 0 then []
    else if s[|s| - 1] == c then s[..|s| - 1]
    else
      var t := s[..|s| - 1];
      assert c in s <==> c in t by {
        assert s == t + [s[|s| - 1]];
      }
      var r := BeforeLast(t, c);
      assert c in t ==> s[|r| + 1..] == t[|r| + 1..] + [s[|s| - 1]];
      r
  }

  /** `s.removeprefix(p)`. */
  function RemovePrefix(s: string, p: string): (r: string)
    ensures p <= s ==> p + r == s
    ensures !(p <= s) ==> r == s
  {
    if p <= s then s[|p|..] else s
  }

  /**
   * `endpoint.rpartition(':')[0].removeprefix('wss://')`: drop everything
   * from the last `':'` on, then a leading `wss://`. An endpoint without a
   * `':'` becomes empty.
   */
  function StripEndpoint(e: string): (r: string)
    ensures ':' !in e ==> r == ""
    ensures ':' in e ==> exists i :: 0 <= i < |e| && e[i] == ':' && ':' !in e[i + 1..] && r == RemovePrefix(e[..i], "wss://")
  {
    var head := BeforeLast(e, ':');
    assert ':' in e ==> e[|head|] == ':' && e[..|head|] == head;
    RemovePrefix(head, "wss://")
  }

  /** A port goes, and so does `wss://`. */
  lemma StripEndpointPort()
    ensures StripEndpoint("wss://h:443") == "h"
  {
    var e := "wss://h:443";
    assert e[..|e| - 1] == "wss://h:44" && e[|e| - 1] == '3';
    assert "wss://h:44"[..9] == "wss://h:4";
    assert "wss://h:4"[..8] == "wss://h:";
    assert "wss://h:"[..7] == "wss://h";
    assert BeforeLast(e, ':') == "wss://h";
    assert "wss://" <= "wss://h";
  }

  /** Only the last colon counts: earlier ones stay. */
  lemma StripEndpointLastColon()
    ensures StripEndpoint("wss://a:b:1") == "a:b"
  {
    var e := "wss://a:b:1";
    assert e[..|e| - 1] == "wss://a:b:" && e[|e| - 1] == '1';
    assert "wss://a:b:"[..9] == "wss://a:b";
    assert BeforeLast(e, ':') == "wss://a:b";
    assert "wss://" <= "wss://a:b";
  }

  /** With no port, the colon of the scheme is the last one: only the scheme's name is left. */
  lemma StripEndpointNoPort()
    ensures StripEndpoint("wss://h") == "wss"
  {
    var e := "wss://h";
    assert e[..6] == "wss://" && e[6] == 'h';
    assert "wss://"[..5] == "wss:/" && "wss://"[5] == '/';
    assert "wss:/"[..4] == "wss:" && "wss:/"[4] == '/';
    assert "wss:"[..3] == "wss" && "wss:"[3] == ':';
    assert BeforeLast("wss:", ':') == "wss";
    assert BeforeLast("wss:/", ':') == "wss";
    assert BeforeLast("wss://", ':') == "wss";
    assert BeforeLast(e, ':') == "wss";
    assert !("wss://" <= "wss");
  }

  // Connection handling

  /**
   * `_connect()`: ask the connector for a connection (`attempt`; `None`
   * stands for `TimeoutError`), then cancel the runner if there is one and
   * start a new one.
   */
  function AfterConnect(w: Wire, attempt: Option<Link>): Wire {
    var asked := w.(trace := w.trace + [Connect]);
    match attempt
    case None => asked
    case Some(l) =>
      asked.(connection := Some(l), runner := Some(w.spawned), spawned := w.spawned + 1,
             cancelled := w.cancelled + (if w.runner.Some? then [w.runner.value] else []))
  }

  /**
   * After a successful connect exactly one runner exists, it is new, and the
   * runner before it (if any) was cancelled; a timed-out connect changes
   * neither the connection nor the runner. Either way at most one runner is
   * live.
   */
  lemma ConnectReplacesRunner(w: Wire, attempt: Option<Link>)
    requires AtMostOneLive(w)
    ensures var v := AfterConnect(w, attempt);
      && AtMostOneLive(v)
      && v.trace == w.trace + [Connect]
      && (attempt.None? ==> v.connection == w.connection && v.runner == w.runner && v.cancelled == w.cancelled)
      && (attempt.Some? ==>
            && v.connection == attempt && v.runner == Some(w.spawned) && v.spawned == w.spawned + 1
            && v.runner.value !in v.cancelled
            && (w.runner.Some? ==> w.runner.value in v.cancelled))
  {
    var v := AfterConnect(w, attempt);
    if attempt.Some? {
      forall t | 0 <= t < v.spawned && Some(t) != v.runner
        ensures t in v.cancelled
      {
        if Some(t) != w.runner {
          assert t in w.cancelled;
        }
      }
    }
  }

  /** `_disconnect()` on the transport: nothing without a connection, else one `disconnect()` and the connection is gone. */
  function AfterDisconnect(w: Wire): (v: Wire)
    ensures w.connection.None? ==> v == w
    ensures w.connection.Some? ==> v.connection.None? && v.trace == w.trace + [Disconnect]
    ensures v.runner == w.runner && v.spawned == w.spawned && v.cancelled == w.cancelled && v.sessionId == w.sessionId
  {
    if w.connection.None? then w else w.(connection := None, trace := w.trace + [Disconnect])
  }

  // The reconnect loop

  /**
   * How one `await self._connection.run(loop)` ended: `ConnectionClosed`,
   * `ConnectionError`, `ReconnectError` (with what the reconnect's
   * `_connect` got; `None` is its `TimeoutError`), or a normal return.
   */
  datatype RunOutcome = Closed | ConnectionFailed | ReconnectRequested(attempt: Option<Link>) | Returned

  /** Where the reconnect handler is after the outcomes given: still running, returned, or crashed. */
  datatype HandlerEnd = Running | Finished | Crashed(error: Error)

  /**
   * `_reconnect_handler()` over a finite list of `run` outcomes. Without a
   * connection the call on it raises `missing`. A closed or failed
   * connection, or a normal return, disconnects and ends the loop; a
   * reconnect request reconnects (after a back-off delay, not modelled) and
   * loops, also when that reconnect timed out. A successful reconnect
   * cancels the running task and starts a new one, which carries on the
   * same loop.
   */
  function Reconnect(w: Wire, outcomes: seq<RunOutcome>, missing: Error): (HandlerEnd, Wire)
    decreases |outcomes|
  {
    if w.connection.None? then (Crashed(missing), w)
    else if |outcomes| == 0 then (Running, w)
    else
      var ran := w.(trace := w.trace + [Run]);
      match outcomes[0]
      case ReconnectRequested(attempt) => Reconnect(AfterConnect(ran, attempt), outcomes[1..], missing)
      case _ => (Finished, AfterDisconnect(ran))
  }

  /**
   * From a live connection the loop never crashes: it is still running
   * exactly when every outcome so far asked for a reconnect, and it has
   * finished (with the connection dropped by a final `disconnect()`) exactly
   * when some outcome closed, failed or returned. Calls are only ever
   * appended and at most one runner stays live.
   */
  lemma {:induction false} ReconnectSpec(w: Wire, outcomes: seq<RunOutcome>, missing: Error)
    requires w.connection.Some? && AtMostOneLive(w)
    ensures var (end, v) := Reconnect(w, outcomes, missing);
      && AtMostOneLive(v)
      && w.trace <= v.trace
      && !end.Crashed?
      && (end == Running <==> forall i :: 0 <= i < |outcomes| ==> outcomes[i].ReconnectRequested?)
      && (end == Running ==> v.connection.Some?)
      && (end == Finished ==> v.connection.None? && |v.trace| > 0 && v.trace[|v.trace| - 1] == Disconnect)
    decreases |outcomes|
  {
    if |outcomes| > 0 {
      var ran := w.(trace := w.trace + [Run]);
      match outcomes[0]
      case ReconnectRequested(attempt) =>
        ConnectReplacesRunner(ran, attempt);
        var next := AfterConnect(ran, attempt);
        ReconnectSpec(next, outcomes[1..], missing);
        assert forall i :: 1 <= i < |outcomes| ==> outcomes[i] == outcomes[1..][i - 1];
      case _ =>
    }
  }
}
