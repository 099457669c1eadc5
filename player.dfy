/**
 * The current per-guild player (`swish/player.py`): a handler table keyed
 * by op name, each handler a chain of guard clauses that log and return, and
 * the connection handling shared with the older player.
 *
 * A handler's effect on the player is a function from the transport-facing
 * state (`Voice.Wire`) to a new state and the exception it raised, if any;
 * `Player` carries that state in fields and its methods update them.
 * `_get_playback_url` of the application is the `playbackUrl` argument.
 */
module SwishPlayer {
  import opened Results
  import opened Json
  import opened Voice
  import TrackCodec
  import Gateway

  /** The handler table of the current player: every op, `debug` included. */
  const Ops: set<Op> := {VoiceUpdateOp, DestroyOp, PlayOp, StopOp, SetPauseStateOp, SetPositionOp, SetFilterOp, DebugOp}

  /** A handler's result: the new state, and the exception it ended with (if any). */
  datatype Step = Step(wire: Wire, error: Option<Error>)

  /** What the outside world answers during one payload: the connector's connect, and the playback-URL lookup. */
  datatype Env = Env(attempt: Option<Link>, playbackUrl: Value -> Result<Value>)

  /**
   * `_voice_update(data)`: `session_id`, `token` and `endpoint` must each be
   * truthy (checked in that order), or the handler returns untouched. Then
   * the session id is stored, the endpoint normalised, the socket updated
   * with `data['guild_id']`, and the player connects.
   */
  function VoiceUpdateStep(w: Wire, d: Value, attempt: Option<Link>): Step {
    match DictGet(d, "session_id", Null)
    case Failure(e) => Step(w, Some(e))
    case Success(sid) =>
      var token := Get(d.fields, "token", Null);
      var endpoint := Get(d.fields, "endpoint", Null);
      if !Truthy(sid) || !Truthy(token) || !Truthy(endpoint) then Step(w, None)
      else
        var stored := w.(sessionId := sid);
        if !endpoint.Str? then Step(stored, Some(AttributeError("rpartition")))
        else
          match Subscript(d, "guild_id")
          case Failure(e) => Step(stored, Some(e))
          case Success(guild) =>
            var updated := stored.(trace := stored.trace + [UpdateSocket(token, guild, StripEndpoint(endpoint.s))]);
            Step(AfterConnect(updated, attempt), if attempt.None? then Some(TimeoutError) else None)
  }

  /** `_destroy(data)`: disconnect, then `del websocket['players'][guild_id]`, which raises if the entry is gone. */
  function DestroyStep(w: Wire, players: map<Value, nat>, guild: Value): (Step, map<Value, nat>) {
    var v := AfterDisconnect(w);
    var k := Gateway.Key(guild);
    if k in players then (Step(v, None), players - {k}) else (Step(v, Some(KeyError("guild_id"))), players)
  }

  /**
   * The lookups of `_play(data)` before anything is played: the track id
   * (`None` when missing or falsy), the decoded handle, its `url`, and the
   * playback URL found for it.
   */
  function PlayRequest(d: Value, playbackUrl: Value -> Result<Value>): Result<Option<(Value, Value)>> {
    var tid :- DictGet(d, "track_id", Null);
    if !Truthy(tid) then Success(None)
    else
      var info :- TrackCodec.DecodeId(tid);
      var u :- Subscript(info, "url");
      var url :- playbackUrl(u);
      Success(Some((url, info)))
  }

  /**
   * `_play(data)`: nothing without a connection or a track id; otherwise
   * play the looked-up URL. The log line after that reads the handle's
   * `title` and `author`, which raises when either is missing.
   */
  function PlayStep(w: Wire, d: Value, playbackUrl: Value -> Result<Value>): Step {
    if w.connection.None? then Step(w, None)
    else
      match PlayRequest(d, playbackUrl)
      case Failure(e) => Step(w, Some(e))
      case Success(None) => Step(w, None)
      case Success(Some((url, info))) =>
        var played := w.(trace := w.trace + [Play(url)]);
        var title := Subscript(info, "title");
        var author := Subscript(info, "author");
        Step(played, if title.Failure? then Some(title.error) else if author.Failure? then Some(author.error) else None)
  }

  /** `_stop(data)`: stop only a connection that is playing. */
  function StopStep(w: Wire): Wire {
    if w.connection.None? || !w.connection.value.playing then w
    else w.(trace := w.trace + [Stop])
  }

  /**
   * `_set_pause_state(data)`: nothing without a connection or with a
   * missing or falsy `state`; otherwise `pause()` (or `resume()` for a
   * falsy state) when `state != is_paused()`.
   */
  function SetPauseStateStep(w: Wire, d: Value): Step {
    if w.connection.None? then Step(w, None)
    else
      match DictGet(d, "state", Null)
      case Failure(e) => Step(w, Some(e))
      case Success(state) =>
        if !Truthy(state) then Step(w, None)
        else if !EqualsBool(state, w.connection.value.paused) then
          Step(w.(trace := w.trace + [if Truthy(state) then Pause else Resume]), None)
        else Step(w, None)
  }

  /** `_set_position(data)`: only checks (connection, playing, `position`); the rest is not written yet. */
  function SetPositionError(w: Wire, d: Value): Option<Error> {
    if w.connection.None? || !w.connection.value.playing then None
    else
      match DictGet(d, "position", Null)
      case Failure(e) => Some(e)
      case Success(_) => None
  }

  /** `_debug(data)`: ask a live connection for its state (which is then printed). */
  function DebugStep(w: Wire): Wire {
    if w.connection.None? then w else w.(trace := w.trace + [GetState])
  }

  /** The handler `h` applied to `d`. */
  function Handle(h: Op, w: Wire, players: map<Value, nat>, guild: Value, d: Value, env: Env): (Step, map<Value, nat>) {
    match h
    case VoiceUpdateOp => (VoiceUpdateStep(w, d, env.attempt), players)
    case DestroyOp => DestroyStep(w, players, guild)
    case PlayOp => (PlayStep(w, d, env.playbackUrl), players)
    case StopOp => (Step(StopStep(w), None), players)
    case SetPauseStateOp => (SetPauseStateStep(w, d), players)
    case SetPositionOp => (Step(w, SetPositionError(w, d)), players)
    case SetFilterOp => (Step(w, None), players)
    case DebugOp => (Step(DebugStep(w), None), players)
  }

  /** `handle_payload(payload)`: look the op up; an unknown op is logged and dropped; a known one gets `payload['d']`. */
  function Dispatch(w: Wire, players: map<Value, nat>, guild: Value, payload: Value, env: Env): (Step, map<Value, nat>) {
    match Subscript(payload, "op")
    case Failure(e) => (Step(w, Some(e)), players)
    case Success(op) =>
      match HandlerFor(Ops, op)
      case Failure(e) => (Step(w, Some(e)), players)
      case Success(None) => (Step(w, None), players)
      case Success(Some(h)) =>
        match Subscript(payload, "d")
        case Failure(e) => (Step(w, Some(e)), players)
        case Success(d) => Handle(h, w, players, guild, d, env)
  }

  /**
   * An op outside the table runs no handler and changes nothing; the op
   * named `OpName(h)` runs exactly handler `h` on `payload['d']`.
   */
  lemma DispatchSpec(w: Wire, players: map<Value, nat>, guild: Value, payload: Value, env: Env, h: Op)
    requires payload.Obj? && HasKey(payload.fields, "op") && HasKey(payload.fields, "d")
    ensures var op := Lookup(payload.fields, "op").value;
      var d := Lookup(payload.fields, "d").value;
      && (op.Str? && OpNamed(op.s).None? ==> Dispatch(w, players, guild, payload, env) == (Step(w, None), players))
      && (op == Str(OpName(h)) ==> Dispatch(w, players, guild, payload, env) == Handle(h, w, players, guild, d, env))
  {
    HandlerForSpec(Ops, Lookup(payload.fields, "op").value, h);
  }

  /**
   * `voice_update` leaves the player untouched unless `session_id`, `token`
   * and `endpoint` are all truthy. When they are, and the endpoint is a
   * string and `guild_id` is present, the session id is stored, the socket
   * is updated with the normalised endpoint and then the player connects.
   */
  lemma VoiceUpdateSpec(w: Wire, d: Value, attempt: Option<Link>)
    requires d.Obj?
    ensures var sid := Get(d.fields, "session_id", Null);
      var token := Get(d.fields, "token", Null);
      var endpoint := Get(d.fields, "endpoint", Null);
      var r := VoiceUpdateStep(w, d, attempt);
      && (!Truthy(sid) || !Truthy(token) || !Truthy(endpoint) ==> r == Step(w, None))
      && (Truthy(sid) && Truthy(token) && Truthy(endpoint) ==> r.wire.sessionId == sid)
      && (Truthy(sid) && Truthy(token) && endpoint.Str? && endpoint.s != [] && HasKey(d.fields, "guild_id") ==>
            var guild := Lookup(d.fields, "guild_id").value;
            && r.wire.trace == w.trace + [UpdateSocket(token, guild, StripEndpoint(endpoint.s)), Connect]
            && (attempt.Some? ==> r.wire.connection == attempt && r.error.None?))
  {
  }

  /** Without a connection, `play`, `stop`, `set_pause_state`, `set_position` and `debug` call nothing on the transport. */
  lemma NoConnectionNoCommand(w: Wire, players: map<Value, nat>, guild: Value, d: Value, env: Env, h: Op)
    requires w.connection.None?
    requires h in {PlayOp, StopOp, SetPauseStateOp, SetPositionOp, DebugOp}
    ensures Handle(h, w, players, guild, d, env) == (Step(w, None), players)
  {
  }

  /**
   * `set_position` and `set_filter` never touch the player; `stop` and
   * `set_position` do nothing while nothing plays, and `play` nothing
   * without a track id.
   */
  lemma QuietHandlers(w: Wire, players: map<Value, nat>, guild: Value, d: Value, env: Env)
    ensures Handle(SetPositionOp, w, players, guild, d, env).0.wire == w
    ensures Handle(SetFilterOp, w, players, guild, d, env) == (Step(w, None), players)
    ensures w.connection.Some? && !w.connection.value.playing ==>
      Handle(StopOp, w, players, guild, d, env) == (Step(w, None), players)
      && Handle(SetPositionOp, w, players, guild, d, env) == (Step(w, None), players)
    ensures d.Obj? && !Truthy(Get(d.fields, "track_id", Null)) ==> PlayStep(w, d, env.playbackUrl) == Step(w, None)
  {
  }

  /**
   * `set_pause_state` never resumes: a false state counts as missing. It
   * pauses at most once per call, and for `True` (or `1`) exactly when the
   * connection is not paused already.
   */
  lemma PauseNeverResumes(w: Wire, d: Value)
    ensures var r := SetPauseStateStep(w, d);
      && (r.wire == w || r.wire == w.(trace := w.trace + [Pause]))
      && (d.Obj? && w.connection.Some? && EqualsBool(Get(d.fields, "state", Null), true) ==>
            (r.wire.trace == w.trace + [Pause] <==> !w.connection.value.paused))
  {
  }

  /**
   * `destroy` disconnects (once, if connected) and removes exactly its own
   * guild's entry from the registry; a player whose entry is already gone
   * raises `KeyError` after disconnecting.
   */
  lemma DestroyRemovesOwnEntry(w: Wire, players: map<Value, nat>, guild: Value)
    ensures var (r, after) := DestroyStep(w, players, guild);
      && r.wire.connection.None?
      && (w.connection.Some? ==> r.wire.trace == w.trace + [Disconnect])
      && after.Keys == players.Keys - {Gateway.Key(guild)}
      && (forall k :: k in after ==> after[k] == players[k])
      && (r.error.None? <==> Gateway.Key(guild) in players)
  {
  }

  class Player {
    /** The connection this player was created on; `_destroy` edits its registry. */
    const owner: Gateway.Connection
    const guild: Value
    var sessionId: Value
    var connection: Option<Link>
    var runner: Option<nat>
    var spawned: nat
    var cancelled: seq<nat>
    var trace: seq<Command>

    function State(): Wire
      reads this
    {
      Wire(sessionId, connection, runner, spawned, cancelled, trace)
    }

    ghost predicate Valid()
      reads this
    {
      AtMostOneLive(State())
    }

    /** `Player(websocket, guild_id)`: no connection and no runner yet. */
    constructor(owner: Gateway.Connection, guild: Value)
      ensures this.owner == owner && this.guild == guild
      ensures State() == Fresh && Valid()
    {
      this.owner := owner;
      this.guild := guild;
      sessionId := Null;
      connection := None;
      runner := None;
      spawned := 0;
      cancelled := [];
      trace := [];
    }

    /** `_connect()`. */
    method Connect(attempt: Option<Link>) returns (error: Option<Error>)
      requires Valid()
      modifies this
      ensures Valid()
      ensures State() == AfterConnect(old(State()), attempt)
      ensures error == if attempt.None? then Some(TimeoutError) else None
    {
      ConnectReplacesRunner(State(), attempt);
      trace := trace + [Command.Connect];
      if attempt.None? {
        return Some(TimeoutError);
      }
      connection := attempt;
      if runner.Some? {
        cancelled := cancelled + [runner.value];
      }
      runner := Some(spawned);
      spawned := spawned + 1;
      error := None;
    }

    /** `_disconnect()`. */
    method Disconnect()
      modifies this
      ensures State() == AfterDisconnect(old(State()))
    {
      if connection.None? {
        return;
      }
      trace := trace + [Command.Disconnect];
      connection := None;
    }

    /** `_reconnect_handler()`, over the outcomes of successive `run` calls; `assert` guards the connection. */
    method ReconnectHandler(outcomes: seq<RunOutcome>) returns (end: HandlerEnd)
      requires Valid()
      modifies this
      ensures Valid()
      ensures (end, State()) == Reconnect(old(State()), outcomes, AssertionError)
    {
      var i := 0;
      while true
        invariant i <= |outcomes| && Valid()
        invariant Reconnect(old(State()), outcomes, AssertionError) == Reconnect(State(), outcomes[i..], AssertionError)
        decreases |outcomes| - i
      {
        if connection.None? {
          return Crashed(AssertionError);
        }
        if i == |outcomes| {
          return Running;
        }
        trace := trace + [Run];
        match outcomes[i]
        case ReconnectRequested(attempt) =>
          assert outcomes[i..][1..] == outcomes[i + 1..];
          var _ := Connect(attempt);
          i := i + 1;
        case _ =>
          Disconnect();
          return Finished;
      }
    }

    /** `_voice_update(data)`. */
    method VoiceUpdate(d: Value, attempt: Option<Link>) returns (error: Option<Error>)
      requires Valid()
      modifies this
      ensures Valid()
      ensures Step(State(), error) == VoiceUpdateStep(old(State()), d, attempt)
    {
      if !d.Obj? {
        return Some(AttributeError("get"));
      }
      var sid := Get(d.fields, "session_id", Null);
      var token := Get(d.fields, "token", Null);
      var endpoint := Get(d.fields, "endpoint", Null);
      if !Truthy(sid) || !Truthy(token) || !Truthy(endpoint) {
        return None;
      }
      sessionId := sid;
      if !endpoint.Str? {
        return Some(AttributeError("rpartition"));
      }
      var stripped := StripEndpoint(endpoint.s);
      var guild := Subscript(d, "guild_id");
      if guild.Failure? {
        return Some(guild.error);
      }
      trace := trace + [UpdateSocket(token, guild.value, stripped)];
      error := Connect(attempt);
    }

    /** `_destroy(data)`. */
    method Destroy() returns (error: Option<Error>)
      modifies this, owner`players
      ensures (Step(State(), error), owner.players) == DestroyStep(old(State()), old(owner.players), guild)
    {
      Disconnect();
      var k := Gateway.Key(guild);
      if k !in owner.players {
        return Some(KeyError("guild_id"));
      }
      owner.players := owner.players - {k};
      error := None;
    }

    /** `_play(data)`. */
    method Play(d: Value, playbackUrl: Value -> Result<Value>) returns (error: Option<Error>)
      modifies this
      ensures Step(State(), error) == PlayStep(old(State()), d, playbackUrl)
    {
      if connection.None? {
        return None;
      }
      var request := PlayRequest(d, playbackUrl);
      if request.Failure? {
        return Some(request.error);
      }
      if request.value.None? {
        return None;
      }
      var (url, info) := request.value.value;
      trace := trace + [Command.Play(url)];
      var title := Subscript(info, "title");
      if title.Failure? {
        return Some(title.error);
      }
      var author := Subscript(info, "author");
      error := if author.Failure? then Some(author.error) else None;
    }

    /** `_stop(data)`. */
    method Stop()
      modifies this
      ensures State() == StopStep(old(State()))
    {
      if connection.None? || !connection.value.playing {
        return;
      }
      trace := trace + [Command.Stop];
    }

    /** `_set_pause_state(data)`. */
    method SetPauseState(d: Value) returns (error: Option<Error>)
      modifies this
      ensures Step(State(), error) == SetPauseStateStep(old(State()), d)
    {
      if connection.None? {
        return None;
      }
      if !d.Obj? {
        return Some(AttributeError("get"));
      }
      var state := Get(d.fields, "state", Null);
      if !Truthy(state) {
        return None;
      }
      if !EqualsBool(state, connection.value.paused) {
        trace := trace + [if Truthy(state) then Pause else Resume];
      }
      error := None;
    }

    /** `_set_position(data)`: changes nothing. */
    method SetPosition(d: Value) returns (error: Option<Error>)
      ensures error == SetPositionError(State(), d)
      ensures connection.None? || !connection.value.playing ==> error.None?
    {
      if connection.None? || !connection.value.playing {
        return None;
      }
      error := if d.Obj? then None else Some(AttributeError("get"));
    }

    /** `_debug(data)`. */
    method Debug()
      modifies this
      ensures State() == DebugStep(old(State()))
    {
      if connection.None? {
        return;
      }
      trace := trace + [GetState];
    }

    /** `handle_payload(payload)`: find the handler and run it to completion. */
    method HandlePayload(payload: Value, env: Env) returns (error: Option<Error>)
      requires Valid()
      modifies this, owner`players
      ensures Valid()
      ensures (Step(State(), error), owner.players) == Dispatch(old(State()), old(owner.players), guild, payload, env)
    {
      var op := Subscript(payload, "op");
      if op.Failure? {
        return Some(op.error);
      }
      var handler := HandlerFor(Ops, op.value);
      if handler.Failure? {
        return Some(handler.error);
      }
      if handler.value.None? {
        return None;
      }
      var d := Subscript(payload, "d");
      if d.Failure? {
        return Some(d.error);
      }
      match handler.value.value
      case VoiceUpdateOp => error := VoiceUpdate(d.value, env.attempt);
      case DestroyOp => error := Destroy();
      case PlayOp => error := Play(d.value, env.playbackUrl);
      case StopOp => Stop(); error := None;
      case SetPauseStateOp => error := SetPauseState(d.value);
      case SetPositionOp => error := SetPosition(d.value);
      case SetFilterOp => error := None;
      case DebugOp => Debug(); error := None;
    }
  }
}
