/**
 * The older per-guild player (`src/player.py`): a seven-entry handler
 * table (no `debug`), a `voice_update` that indexes its keys directly, a
 * `play` that looks the track up before asking whether it is connected, five
 * handlers that are not written yet, and a `_disconnect` that also removes
 * the player from the connection's registry.
 *
 * `self._server.search.search_youtube(query, raw=True)` is the `search`
 * argument (the search itself is modelled in `LegacySearch`).
 */
module LegacyPlayer {
  import opened Results
  import opened Json
  import opened Voice
  import TrackCodec
  import Gateway

  /** The handler table of the older player: `debug` is not in it. */
  const Ops: set<Op> := {VoiceUpdateOp, DestroyOp, PlayOp, StopOp, SetPauseStateOp, SetPositionOp, SetFilterOp}

  /** A handler's result: the new state, and the exception it ended with (if any). */
  datatype Step = Step(wire: Wire, error: Option<Error>)

  /** What the outside world answers during one payload: the connector's connect, and the raw search. */
  datatype Env = Env(attempt: Option<Link>, search: Value -> Result<seq<Value>>)

  /**
   * `_voice_update(data)`: store `data['session_id']`, read `data['token']`
   * and `data['guild_id']` (a missing one raises, and a stored session id
   * stays stored); an endpoint that is `None` (or absent) ends the handler
   * without connecting; otherwise normalise it, update the socket and
   * connect.
   */
  function VoiceUpdateStep(w: Wire, d: Value, attempt: Option<Link>): Step {
    match Subscript(d, "session_id")
    case Failure(e) => Step(w, Some(e))
    case Success(sid) =>
      var stored := w.(sessionId := sid);
      var token := Subscript(d, "token");
      var guild := Subscript(d, "guild_id");
      if token.Failure? then Step(stored, Some(token.error))
      else if guild.Failure? then Step(stored, Some(guild.error))
      else
        var endpoint := Get(d.fields, "endpoint", Null);
        if endpoint == Null then Step(stored, None)
        else if !endpoint.Str? then Step(stored, Some(AttributeError("rpartition")))
        else
          var updated := stored.(trace := stored.trace + [UpdateSocket(token.value, guild.value, StripEndpoint(endpoint.s))]);
          Step(AfterConnect(updated, attempt), if attempt.None? then Some(TimeoutError) else None)
  }

  /** The lookups of `_play(data)`: decode `data['track_id']`, search its `id`, take the first result. */
  function FirstTrack(d: Value, search: Value -> Result<seq<Value>>): Result<Value> {
    var tid :- Subscript(d, "track_id");
    var decoded :- TrackCodec.DecodeId(tid);
    var query :- Subscript(decoded, "id");
    var tracks :- search(query);
    if |tracks| == 0 then Failure(IndexError) else Success(tracks[0])
  }

  /** `_play(data)`: the lookups happen in any case; only a connected player plays the track's `url`. */
  function PlayStep(w: Wire, d: Value, search: Value -> Result<seq<Value>>): Step {
    match FirstTrack(d, search)
    case Failure(e) => Step(w, Some(e))
    case Success(track) =>
      if w.connection.None? then Step(w, None)
      else
        match Subscript(track, "url")
        case Failure(e) => Step(w, Some(e))
        case Success(url) => Step(w.(trace := w.trace + [Play(url)]), None)
  }

  /**
   * `_disconnect()`: nothing without a connection; otherwise disconnect,
   * drop the connection, and `del websocket['players'][guild_id]`.
   */
  function DisconnectStep(w: Wire, players: map<Value, nat>, guild: Value): (Step, map<Value, nat>) {
    if w.connection.None? then (Step(w, None), players)
    else
      var v := AfterDisconnect(w);
      var k := Gateway.Key(guild);
      if k in players then (Step(v, None), players - {k}) else (Step(v, Some(KeyError("guild_id"))), players)
  }

  /** The handler `h` applied to `d`; five handlers are placeholders that raise. */
  function Handle(h: Op, w: Wire, d: Value, env: Env): Step {
    match h
    case VoiceUpdateOp => VoiceUpdateStep(w, d, env.attempt)
    case PlayOp => PlayStep(w, d, env.search)
    case _ => Step(w, Some(NotImplementedError))
  }

  /** `handle_payload(payload)`: an op outside the table is logged and dropped; a known one gets `payload['d']`. */
  function Dispatch(w: Wire, payload: Value, env: Env): Step {
    match Subscript(payload, "op")
    case Failure(e) => Step(w, Some(e))
    case Success(op) =>
      match HandlerFor(Ops, op)
      case Failure(e) => Step(w, Some(e))
      case Success(None) => Step(w, None)
      case Success(Some(h)) =>
        match Subscript(payload, "d")
        case Failure(e) => Step(w, Some(e))
        case Success(d) => Handle(h, w, d, env)
  }

  /**
   * `debug`, and every other op outside the seven-entry table, is dropped
   * with nothing changed; a table op runs exactly its handler.
   */
  lemma DispatchSpec(w: Wire, payload: Value, env: Env, h: Op)
    requires payload.Obj? && HasKey(payload.fields, "op") && HasKey(payload.fields, "d")
    ensures var op := Lookup(payload.fields, "op").value;
      && (op == Str(OpName(DebugOp)) ==> Dispatch(w, payload, env) == Step(w, None))
      && (op.Str? && OpNamed(op.s).None? ==> Dispatch(w, payload, env) == Step(w, None))
      && (h != DebugOp && op == Str(OpName(h)) ==> Dispatch(w, payload, env) == Handle(h, w, Lookup(payload.fields, "d").value, env))
  {
    var op := Lookup(payload.fields, "op").value;
    assert Subscript(payload, "op") == Success(op);
    if op == Str(OpName(DebugOp)) {
      assert OpNamed(op.s) == Some(DebugOp);
      assert HandlerFor(Ops, op) == Success(None);
    }
    if h != DebugOp && op == Str(OpName(h)) {
      HandlerForSpec(Ops, op, h);
      assert HandlerFor(Ops, op) == Success(Some(h));
    }
  }

  /**
   * A missing `session_id` raises with nothing changed; a missing `token`
   * or `guild_id` raises after the session id was stored; a `None`
   * endpoint keeps the new session id but never connects, and an endpoint
   * that is not a string raises there. A string endpoint updates the socket
   * with the token, the guild id and the endpoint without its scheme and
   * port, and then connects.
   */
  lemma VoiceUpdateSpec(w: Wire, d: Value, attempt: Option<Link>)
    requires d.Obj?
    ensures var r := VoiceUpdateStep(w, d, attempt);
      var stored := w.(sessionId := Get(d.fields, "session_id", Null));
      var complete := HasKey(d.fields, "session_id") && HasKey(d.fields, "token") && HasKey(d.fields, "guild_id");
      var endpoint := Get(d.fields, "endpoint", Null);
      && (!HasKey(d.fields, "session_id") ==> r == Step(w, Some(KeyError("session_id"))))
      && (HasKey(d.fields, "session_id") ==> r.wire.sessionId == Lookup(d.fields, "session_id").value)
      && (HasKey(d.fields, "session_id") && !HasKey(d.fields, "token") ==>
            r == Step(stored, Some(KeyError("token"))))
      && (HasKey(d.fields, "session_id") && HasKey(d.fields, "token") && !HasKey(d.fields, "guild_id") ==>
            r == Step(stored, Some(KeyError("guild_id"))))
      && (complete && endpoint == Null ==> r == Step(stored, None))
      && (complete && endpoint != Null && !endpoint.Str? ==> r == Step(stored, Some(AttributeError("rpartition"))))
      && (complete && endpoint.Str? ==>
            var update := UpdateSocket(Lookup(d.fields, "token").value, Lookup(d.fields, "guild_id").value, StripEndpoint(endpoint.s));
            && r.wire == AfterConnect(stored.(trace := w.trace + [update]), attempt)
            && (r.error.None? <==> attempt.Some?))
  {
  }

  /** Without a connection nothing is played, but the track is still decoded and searched for (and those can raise). */
  lemma PlayNeedsConnection(w: Wire, d: Value, search: Value -> Result<seq<Value>>)
    ensures w.connection.None? ==> PlayStep(w, d, search).wire == w
    ensures PlayStep(w, d, search).error.None? && PlayStep(w, d, search).wire != w ==>
      && w.connection.Some?
      && FirstTrack(d, search).Success?
      && PlayStep(w, d, search).wire.trace == w.trace + [Play(Lookup(FirstTrack(d, search).value.fields, "url").value)]
    ensures FirstTrack(d, search).Failure? ==> PlayStep(w, d, search) == Step(w, Some(FirstTrack(d, search).error))
  {
  }

  /** `destroy`, `stop`, `set_pause_state`, `set_position` and `set_filter` always raise and change nothing. */
  lemma PlaceholdersRaise(w: Wire, d: Value, env: Env, h: Op)
    requires h in {DestroyOp, StopOp, SetPauseStateOp, SetPositionOp, SetFilterOp}
    ensures Handle(h, w, d, env) == Step(w, Some(NotImplementedError))
  {
  }

  /**
   * `_disconnect()` does nothing without a connection; with one it
   * disconnects once and removes exactly the player's own registry entry.
   */
  lemma DisconnectRemovesOwnEntry(w: Wire, players: map<Value, nat>, guild: Value)
    ensures var (r, after) := DisconnectStep(w, players, guild);
      && (w.connection.None? ==> r == Step(w, None) && after == players)
      && (w.connection.Some? ==>
            && r.wire.connection.None? && r.wire.trace == w.trace + [Disconnect]
            && after.Keys == players.Keys - {Gateway.Key(guild)}
            && (forall k :: k in after ==> after[k] == players[k]))
  {
  }

  class Player {
    const owner: Gateway.Connection
    const guild: Value
    const userId: string
    var sessionId: Value
    var connection: Option<Link>
    var runner: Option<nat>
    var spawned: nat
    var cancelled: seq<nat>
    var trace: seq<Command>

    function State(): Wire
      reads this
    {
      Wire(sessionId, connection, runner, spawned, cancelled, trace)
    }

    ghost predicate Valid()
      reads this
    {
      AtMostOneLive(State())
    }

    /** `Player(app, websocket, guild_id, user_id)`: no connection and no runner yet. */
    constructor(owner: Gateway.Connection, guild: Value, userId: string)
      ensures this.owner == owner && this.guild == guild && this.userId == userId
      ensures State() == Fresh && Valid()
    {
      this.owner := owner;
      this.guild := guild;
      this.userId := userId;
      sessionId := Null;
      connection := None;
      runner := None;
      spawned := 0;
      cancelled := [];
      trace := [];
    }

    /** `is_playing()`: false when not connected. */
    function IsPlaying(): (r: bool)
      reads this
      ensures connection.None? ==> !r
      ensures connection.Some? ==> r == connection.value.playing
    {
      if connection.Some? then connection.value.playing else false
    }

    /** `is_paused()`: false when not connected. */
    function IsPaused(): (r: bool)
      reads this
      ensures connection.None? ==> !r
      ensures connection.Some? ==> r == connection.value.paused
    {
      if connection.Some? then connection.value.paused else false
    }

    /** `_debug_info()`: `{}` when not connected. */
    function DebugInfo(): (r: Value)
      reads this
      ensures connection.None? ==> r == Obj([])
      ensures connection.Some? ==> r == connection.value.state
    {
      if connection.Some? then connection.value.state else Obj([])
    }

    /** `_connect()`. */
    method Connect(attempt: Option<Link>) returns (error: Option<Error>)
      requires Valid()
      modifies this
      ensures Valid()
      ensures State() == AfterConnect(old(State()), attempt)
      ensures error == if attempt.None? then Some(TimeoutError) else None
    {
      ConnectReplacesRunner(State(), attempt);
      trace := trace + [Command.Connect];
      if attempt.None? {
        return Some(TimeoutError);
      }
      connection := attempt;
      if runner.Some? {
        cancelled := cancelled + [runner.value];
      }
      runner := Some(spawned);
      spawned := spawned + 1;
      error := None;
    }

    /** `_disconnect()`. */
    method Disconnect() returns (error: Option<Error>)
      modifies this, owner`players
      ensures (Step(State(), error), owner.players) == DisconnectStep(old(State()), old(owner.players), guild)
    {
      if connection.None? {
        return None;
      }
      trace := trace + [Command.Disconnect];
      connection := None;
      var k := Gateway.Key(guild);
      if k !in owner.players {
        return Some(KeyError("guild_id"));
      }
      owner.players := owner.players - {k};
      error := None;
    }

    /**
     * `_reconnect_handler()`, over the outcomes of successive `run` calls.
     * The loop is the current player's, but `run` on a missing connection
     * raises `AttributeError`, and the final disconnect also removes the
     * registry entry.
     */
    method ReconnectHandler(outcomes: seq<RunOutcome>) returns (end: HandlerEnd)
      requires Valid()
      modifies this, owner`players
      ensures Valid()
      ensures var (loopEnd, w) := Reconnect(old(State()), outcomes, AttributeError("run"));
        var k := Gateway.Key(guild);
        && State() == w
        && (loopEnd.Finished? && k in old(owner.players) ==> owner.players == old(owner.players) - {k} && end == Finished)
        && (loopEnd.Finished? && k !in old(owner.players) ==> owner.players == old(owner.players) && end == Crashed(KeyError("guild_id")))
        && (!loopEnd.Finished? ==> owner.players == old(owner.players) && end == loopEnd)
    {
      var i := 0;
      while true
        invariant i <= |outcomes| && Valid() && owner.players == old(owner.players)
        invariant Reconnect(old(State()), outcomes, AttributeError("run")) == Reconnect(State(), outcomes[i..], AttributeError("run"))
        decreases |outcomes| - i
      {
        if connection.None? {
          return Crashed(AttributeError("run"));
        }
        if i == |outcomes| {
          return Running;
        }
        trace := trace + [Run];
        match outcomes[i]
        case ReconnectRequested(attempt) =>
          assert outcomes[i..][1..] == outcomes[i + 1..];
          var _ := Connect(attempt);
          i := i + 1;
        case _ =>
          var error := Disconnect();
          return if error.Some? then Crashed(error.value) else Finished;
      }
    }

    /** `_voice_update(data)`. */
    method VoiceUpdate(d: Value, attempt: Option<Link>) returns (error: Option<Error>)
      requires Valid()
      modifies this
      ensures Valid()
      ensures Step(State(), error) == VoiceUpdateStep(old(State()), d, attempt)
    {
      var sid := Subscript(d, "session_id");
      if sid.Failure? {
        return Some(sid.error);
      }
      sessionId := sid.value;
      var token := Subscript(d, "token");
      if token.Failure? {
        return Some(token.error);
      }
      var guild := Subscript(d, "guild_id");
      if guild.Failure? {
        return Some(guild.error);
      }
      var endpoint := Get(d.fields, "endpoint", Null);
      if endpoint == Null {
        return None;
      }
      if !endpoint.Str? {
        return Some(AttributeError("rpartition"));
      }
      trace := trace + [UpdateSocket(token.value, guild.value, StripEndpoint(endpoint.s))];
      error := Connect(attempt);
    }

    /** `_play(data)`. */
    method Play(d: Value, search: Value -> Result<seq<Value>>) returns (error: Option<Error>)
      modifies this
      ensures Step(State(), error) == PlayStep(old(State()), d, search)
    {
      var track := FirstTrack(d, search);
      if track.Failure? {
        return Some(track.error);
      }
      if connection.None? {
        return None;
      }
      var url := Subscript(track.value, "url");
      if url.Failure? {
        return Some(url.error);
      }
      trace := trace + [Command.Play(url.value)];
      error := None;
    }

    /** `handle_payload(payload)`. */
    method HandlePayload(payload: Value, env: Env) returns (error: Option<Error>)
      requires Valid()
      modifies this
      ensures Valid()
      ensures Step(State(), error) == Dispatch(old(State()), payload, env)
    {
      var op := Subscript(payload, "op");
      if op.Failure? {
        return Some(op.error);
      }
      var handler := HandlerFor(Ops, op.value);
      if handler.Failure? {
        return Some(handler.error);
      }
      if handler.value.None? {
        return None;
      }
      var d := Subscript(payload, "d");
      if d.Failure? {
        return Some(d.error);
      }
      match handler.value.value
      case VoiceUpdateOp => error := VoiceUpdate(d.value, env.attempt);
      case PlayOp => error := Play(d.value, env.search);
      case _ => error := Some(NotImplementedError);
    }
  }
}
