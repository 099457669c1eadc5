/**
 * The websocket gateway (`App.websocket_handler`), written the same way in
 * the current server (`swish/app.py`) and the older one (`src/app.py`):
 * three header checks, then a loop over incoming frames that discards
 * malformed envelopes, finds or creates the guild's player in a
 * per-connection registry, and hands the payload to it, one frame at a time.
 *
 * A frame is what `message.json()` made of the message, or the fact that it
 * failed. Players are represented by handles (the order in which they were
 * created); what a player does with a payload is modelled with the players,
 * and the loop sees only its outcome: the entry it deleted and the exception
 * it raised.
 */
module Gateway {
  import opened Results
  import opened Json

  /** The request's header lines, in the order they arrived. */
  type Headers = seq<(string, string)>

  /** ASCII case folding, the way header names are compared. */
  function LowerChar(c: char): char {
    if 'A' <= c <= 'Z' then (c as int + 32) as char else c
  }

  function Fold(name: string): (r: string)
    ensures |r| == |name| && forall i :: 0 <= i < |name| ==> r[i] == LowerChar(name[i])
  {
    seq(|name|, i requires 0 <= i < |name| => LowerChar(name[i]))
  }

  /** `request.headers.get(name)`: the first line whose name matches, ignoring case. */
  function Header(h: Headers, name: string): Option<string>
    decreases |h|
  {
    if |h| == 0 then None
    else if Fold(h[0].0) == Fold(name) then Some(h[0].1)
    else Header(h[1..], name)
  }

  /**
   * A header is found exactly when some line's name matches ignoring case,
   * and then it is the value of the first such line.
   */
  lemma {:induction false} HeaderSpec(h: Headers, name: string)
    ensures Header(h, name).None? <==> forall i :: 0 <= i < |h| ==> Fold(h[i].0) != Fold(name)
    ensures Header(h, name).Some? ==>
      exists i :: (0 <= i < |h| && Fold(h[i].0) == Fold(name) && Header(h, name) == Some(h[i].1)
        && forall j :: 0 <= j < i ==> Fold(h[j].0) != Fold(name))
    decreases |h|
  {
    if |h| > 0 && Fold(h[0].0) != Fold(name) {
      HeaderSpec(h[1..], name);
      assert forall i :: 1 <= i < |h| ==> h[1..][i - 1] == h[i];
      if Header(h, name).Some? {
        var i :| 0 <= i < |h[1..]| && Fold(h[1..][i].0) == Fold(name) && Header(h[1..], name) == Some(h[1..][i].1)
          && forall j :: 0 <= j < i ==> Fold(h[1..][j].0) != Fold(name);
        assert Fold(h[i + 1].0) == Fold(name) && Header(h, name) == Some(h[i + 1].1);
        assert forall j :: 0 <= j < i + 1 ==> Fold(h[j].0) != Fold(name) by {
          forall j | 0 <= j < i + 1 ensures Fold(h[j].0) != Fold(name) {
            if j > 0 {
              assert h[j] == h[1..][j - 1];
            }
          }
        }
      }
    } else if |h| > 0 {
      assert Fold(h[0].0) == Fold(name) && Header(h, name) == Some(h[0].1);
    }
  }

  /** Header names are looked up without regard to ASCII case: `user-agent` is `User-Agent`. */
  lemma HeaderIgnoresCase(h: Headers, name: string, other: string)
    requires Fold(name) == Fold(other)
    ensures Header(h, name) == Header(h, other)
  {
    HeaderSpec(h, name);
    HeaderSpec(h, other);
  }

  /** The handshake's verdict: a close code and message, or the connection's identity. */
  datatype Admission =
    | Closed(code: int, message: string)
    | Admitted(userAgent: string, clientName: string, userId: string)

  /** The header is there, and not empty. */
  predicate Present(v: Option<string>) {
    v.Some? && v.value != ""
  }

  /**
   * The header checks, in order: a missing or empty `User-Agent` or
   * `User-Id` closes with 4000, an `Authorization` other than the configured
   * password closes with 4001. Each check refuses exactly when the earlier
   * ones passed and its own header is wrong; a connection that passes all
   * three records the user agent, `"<user agent> (<remote>)"` and the user id.
   */
  function Admit(h: Headers, remote: string, password: string): (a: Admission)
    ensures var ua := Header(h, "User-Agent");
      var id := Header(h, "User-Id");
      var authOk := Header(h, "Authorization") == Some(password);
      && (a == Closed(4000, "Missing \"User-Agent\" header.") <==> !Present(ua))
      && (a == Closed(4000, "Missing \"User-Id\" header.") <==> Present(ua) && !Present(id))
      && (a == Closed(4001, "Authorization failed.") <==> Present(ua) && Present(id) && !authOk)
      && (a.Admitted? <==> Present(ua) && Present(id) && authOk)
      && (a.Admitted? ==> a == Admitted(ua.value, ua.value + " (" + remote + ")", id.value))
  {
    var ua := Header(h, "User-Agent");
    if ua.None? || ua.value == "" then Closed(4000, "Missing \"User-Agent\" header.")
    else
      var clientName := ua.value + " (" + remote + ")";
      var userId := Header(h, "User-Id");
      if userId.None? || userId.value == "" then Closed(4000, "Missing \"User-Id\" header.")
      else if Header(h, "Authorization") != Some(password) then Closed(4001, "Authorization failed.")
      else Admitted(ua.value, clientName, userId.value)
  }

  /** Every header name written in lower case. */
  function LowerNames(h: Headers): (r: Headers)
    ensures |r| == |h| && forall i :: 0 <= i < |h| ==> r[i] == (Fold(h[i].0), h[i].1)
  {
    seq(|h|, i requires 0 <= i < |h| => (Fold(h[i].0), h[i].1))
  }

  /** A client that sends its header names in lower case is admitted or refused exactly as one that does not. */
  lemma AdmitIgnoresNameCase(h: Headers, remote: string, password: string)
    ensures Admit(LowerNames(h), remote, password) == Admit(h, remote, password)
  {
    forall name: string ensures Header(LowerNames(h), name) == Header(h, name) {
      LowerNamesHeader(h, name);
    }
  }

  lemma {:induction false} LowerNamesHeader(h: Headers, name: string)
    ensures Header(LowerNames(h), name) == Header(h, name)
    decreases |h|
  {
    if |h| > 0 {
      assert Fold(Fold(h[0].0)) == Fold(h[0].0);
      assert LowerNames(h)[1..] == LowerNames(h[1..]);
      LowerNamesHeader(h[1..], name);
    }
  }

  /** An incoming message: `message.json()` raised, or gave this value. */
  datatype Frame = Undecodable | Decoded(payload: Value)

  /** What the loop does with one frame. */
  datatype Step =
    | Discard
    | Raise(error: Error)
    | Route(key: Value, payload: Value)

  /**
   * The envelope checks: `'op' in payload`, `'d' in payload`, then
   * `payload['d'].get('guild_id')`, which must be truthy. A payload or `d`
   * of the wrong kind makes one of these raise.
   */
  function GuildOf(p: Value): Result<Option<Value>> {
    var hasOp :- Contains(p, "op");
    if !hasOp then Success(None)
    else
      var hasD :- Contains(p, "d");
      if !hasD then Success(None)
      else
        var d :- Subscript(p, "d");
        var g :- DictGet(d, "guild_id", Null);
        if Truthy(g) then Success(Some(g)) else Success(None)
  }

  /** The registry key of a guild id: `True` and `1` are the same dict key. */
  function Key(g: Value): Value {
    if g == Bool(true) then Int(1) else g
  }

  function Classify(frame: Frame): Step {
    match frame
    case Undecodable => Discard
    case Decoded(p) =>
      match GuildOf(p)
      case Failure(e) => Raise(e)
      case Success(None) => Discard
      case Success(Some(g)) =>
        if Hashable(g) then Route(Key(g), p) else Raise(TypeError("unhashable type"))
  }

  /**
   * For a dict payload: a frame is discarded exactly when it lacks `op`,
   * lacks `d`, or its `d` is a dict whose `guild_id` is missing or falsy; a
   * `d` that is not a dict raises; otherwise it is routed by its guild id.
   * A frame that is not JSON is discarded.
   */
  lemma ClassifySpec(frame: Frame)
    ensures frame.Undecodable? ==> Classify(frame) == Discard
    ensures frame.Decoded? && frame.payload.Obj? ==>
      var p := frame.payload.fields;
      var d := Lookup(p, "d");
      && (Classify(frame) == Discard <==>
            !HasKey(p, "op") || !HasKey(p, "d") || (d.value.Obj? && !Truthy(Get(d.value.fields, "guild_id", Null))))
      && (HasKey(p, "op") && HasKey(p, "d") && !d.value.Obj? ==> Classify(frame).Raise?)
      && (Classify(frame).Route? ==>
            && d.value.Obj? && Truthy(Get(d.value.fields, "guild_id", Null))
            && Classify(frame) == Route(Key(Get(d.value.fields, "guild_id", Null)), frame.payload))
  {
  }

  /** How `Player(...)` ends: with a new player, or with an exception. */
  datatype Construction = Builds | Raises(error: Error)

  /**
   * Calling the player class with `given` positional arguments when its
   * `__init__` declares `declared` (after `self`): a count mismatch raises
   * `TypeError` before the body runs; otherwise the body decides.
   */
  function CallConstructor(given: nat, declared: nat, body: Construction): Construction {
    if given != declared then Raises(TypeError("__init__() takes a different number of positional arguments"))
    else body
  }

  /** `Player(self, websocket, guild_id, user_id)`: both gateways pass four arguments. */
  const GatewayArguments: nat := 4
  /** The current player's `__init__(self, websocket, guild_id)`. */
  const SwishPlayerParameters: nat := 2
  /** The older player's `__init__(self, app, websocket, guild_id, user_id)`. */
  const LegacyPlayerParameters: nat := 4

  /** The connection's state as values: registry, payloads handed over, next handle, and the exception that ended the loop. */
  datatype Registry = Registry(players: map<Value, nat>, handled: seq<(nat, Value)>, next: nat, failure: Option<Error>)

  /**
   * How `await player.handle_payload(payload)` ends: whether the player
   * deleted its own registry entry (`destroy`, or a disconnect), and the
   * exception it raised, if any.
   */
  datatype Outcome = Outcome(leaves: bool, raised: Option<Error>)

  /**
   * What a player's `handle_payload` does, given every payload handed over
   * earlier on this connection, the player's handle and the payload. The
   * players' own modules say which outcomes each op has.
   */
  type Handler = (seq<(nat, Value)>, nat, Value) -> Outcome

  /** A handler that neither raises nor deletes its entry, whatever it is given. */
  ghost predicate Quiet(handler: Handler) {
    forall past, h, p :: handler(past, h, p) == Outcome(false, None)
  }

  /** One pass of the loop body. */
  function StepOnce(s: Registry, frame: Frame, construct: Construction, handler: Handler): Registry {
    match Classify(frame)
    case Discard => s
    case Raise(e) => s.(failure := Some(e))
    case Route(k, p) =>
      if k !in s.players && construct.Raises? then s.(failure := Some(construct.error))
      else
        var h := if k in s.players then s.players[k] else s.next;
        var registered := s.players[k := h];
        var o := handler(s.handled, h, p);
        Registry(
          if o.leaves then registered - {k} else registered,
          s.handled + [(h, p)],
          if k in s.players then s.next else s.next + 1,
          if o.raised.Some? then o.raised else s.failure)
  }

  /** The loop over `frames`; an exception ends it and later frames are never read. */
  function Run(s: Registry, frames: seq<Frame>, construct: Construction, handler: Handler): Registry
    decreases |frames|
  {
    if |frames| == 0 || s.failure.Some? then s
    else Run(StepOnce(s, frames[0], construct, handler), frames[1..], construct, handler)
  }

  /**
   * A frame that is not routed leaves the registry and the handled payloads
   * alone. A routed frame reuses the guild's player if there is one and
   * creates one only if there is not; either way exactly this payload is
   * handed over, last, and no other entry changes. The key stays registered
   * unless the player deleted its entry, and the loop goes on unless the
   * player raised.
   */
  lemma StepOnceSpec(s: Registry, frame: Frame, construct: Construction, handler: Handler)
    requires forall k :: k in s.players ==> s.players[k] < s.next
    ensures var t := StepOnce(s, frame, construct, handler);
      && (forall k :: k in t.players ==> t.players[k] < t.next)
      && (!Classify(frame).Route? ==> t.players == s.players && t.handled == s.handled)
      && (Classify(frame).Route? ==>
            var k := Classify(frame).key;
            && (forall k' :: k' in s.players && k' != k ==> k' in t.players && t.players[k'] == s.players[k'])
            && (k in s.players || construct.Builds? ==>
                  var h := if k in s.players then s.players[k] else s.next;
                  var o := handler(s.handled, h, Classify(frame).payload);
                  && (k in s.players ==> h == s.players[k])
                  && (k !in s.players ==> h !in s.players.Values)
                  && t.players.Keys == (if o.leaves then s.players.Keys - {k} else s.players.Keys + {k})
                  && (!o.leaves ==> t.players[k] == h)
                  && t.handled == s.handled + [(h, Classify(frame).payload)]
                  && (t.failure.Some? <==> s.failure.Some? || o.raised.Some?)))
  {
  }

  /** The payloads routed from `frames`, in order, up to the first frame that raises. */
  function RoutedPayloads(frames: seq<Frame>): seq<Value>
    decreases |frames|
  {
    if |frames| == 0 then []
    else
      match Classify(frames[0])
      case Discard => RoutedPayloads(frames[1..])
      case Raise(_) => []
      case Route(_, p) => [p] + RoutedPayloads(frames[1..])
  }

  /** The keys routed from `frames`, up to the first frame that raises. */
  function RoutedKeys(frames: seq<Frame>): set<Value>
    decreases |frames|
  {
    if |frames| == 0 then {}
    else
      match Classify(frames[0])
      case Discard => RoutedKeys(frames[1..])
      case Raise(_) => {}
      case Route(k, _) => {k} + RoutedKeys(frames[1..])
  }

  /** The payloads of a handled list. */
  function Payloads(handled: seq<(nat, Value)>): seq<Value> {
    seq(|handled|, i requires 0 <= i < |handled| => handled[i].1)
  }

  /**
   * Once the loop has ended with an exception, frames that arrive after
   * the ones it read change nothing: they are never read.
   */
  lemma {:induction false} RunStopsAtFailure(s: Registry, a: seq<Frame>, b: seq<Frame>, construct: Construction, handler: Handler)
    requires Run(s, a, construct, handler).failure.Some?
    ensures Run(s, a + b, construct, handler) == Run(s, a, construct, handler)
    decreases |a|
  {
    if |a| > 0 && s.failure.None? {
      assert (a + b)[0] == a[0] && (a + b)[1..] == a[1..] + b;
      RunStopsAtFailure(StepOnce(s, a[0], construct, handler), a[1..], b, construct, handler);
    }
  }

  /**
   * A player whose `handle_payload` raises ends the connection's loop on
   * that frame: the payload was handed over, last, and none of the frames
   * after it is read (the older server's `stop`, then `play`, leaves the
   * `play` frame unread).
   */
  lemma RaisingHandlerEndsLoop(s: Registry, frame: Frame, rest: seq<Frame>, construct: Construction, handler: Handler)
    requires s.failure.None? && Classify(frame).Route?
    requires Classify(frame).key in s.players
    requires handler(s.handled, s.players[Classify(frame).key], Classify(frame).payload).raised.Some?
    ensures var t := Run(s, [frame] + rest, construct, handler);
      && t == StepOnce(s, frame, construct, handler)
      && t.failure == handler(s.handled, s.players[Classify(frame).key], Classify(frame).payload).raised
      && t.handled == s.handled + [(s.players[Classify(frame).key], Classify(frame).payload)]
  {
    assert ([frame] + rest)[0] == frame && ([frame] + rest)[1..] == rest;
  }

  /**
   * Whatever the players do, the payloads handed over are the routed ones,
   * in arrival order, each once, up to the frame whose handler raised;
   * when no handler raised, all of them.
   */
  lemma {:induction false} RunHandsOverInOrder(s: Registry, frames: seq<Frame>, handler: Handler)
    requires s.failure.None?
    ensures var t := Run(s, frames, Builds, handler);
      && |s.handled| <= |t.handled|
      && t.handled[..|s.handled|] == s.handled
      && Payloads(t.handled[|s.handled|..]) <= RoutedPayloads(frames)
      && (t.failure.None? ==> Payloads(t.handled[|s.handled|..]) == RoutedPayloads(frames))
    decreases |frames|
  {
    var t := Run(s, frames, Builds, handler);
    if |frames| == 0 {
      assert Payloads(t.handled[|s.handled|..]) == [];
    } else {
      var u := StepOnce(s, frames[0], Builds, handler);
      match Classify(frames[0])
      case Discard =>
        RunHandsOverInOrder(u, frames[1..], handler);
      case Raise(_) =>
        assert t == u;
        assert Payloads(t.handled[|s.handled|..]) == [];
      case Route(k, p) =>
        assert u.handled == s.handled + [u.handled[|s.handled|]] && u.handled[|s.handled|].1 == p;
        if u.failure.Some? {
          assert t == u;
          assert t.handled[|s.handled|..] == [u.handled[|s.handled|]];
          assert Payloads(t.handled[|s.handled|..]) == [p];
        } else {
          RunHandsOverInOrder(u, frames[1..], handler);
          assert t.handled[..|u.handled|] == u.handled;
          assert t.handled[..|s.handled|] == s.handled;
          assert t.handled[|s.handled|..] == [u.handled[|s.handled|]] + t.handled[|u.handled|..];
          PayloadsCons(u.handled[|s.handled|], t.handled[|u.handled|..]);
        }
    }
  }

  lemma PayloadsCons(x: (nat, Value), handled: seq<(nat, Value)>)
    ensures Payloads([x] + handled) == [x.1] + Payloads(handled)
  {
    assert forall i :: 0 <= i < |handled| ==> ([x] + handled)[i + 1] == handled[i];
  }

  /**
   * When players can be built and no player raises or deletes its entry,
   * every routed payload is handed over exactly once, in arrival order, and
   * the registry ends with exactly the keys it had plus the routed ones,
   * the old entries untouched.
   */
  lemma {:induction false} RunRegistersGuilds(s: Registry, frames: seq<Frame>, handler: Handler)
    requires s.failure.None? && Quiet(handler)
    requires forall k :: k in s.players ==> s.players[k] < s.next
    ensures var t := Run(s, frames, Builds, handler);
      && Payloads(t.handled) == Payloads(s.handled) + RoutedPayloads(frames)
      && t.players.Keys == s.players.Keys + RoutedKeys(frames)
      && (forall k :: k in s.players ==> t.players[k] == s.players[k])
    decreases |frames|
  {
    if |frames| > 0 {
      var u := StepOnce(s, frames[0], Builds, handler);
      StepOnceSpec(s, frames[0], Builds, handler);
      match Classify(frames[0])
      case Discard =>
        RunRegistersGuilds(u, frames[1..], handler);
      case Raise(_) =>
      case Route(k, p) =>
        var h := if k in s.players then s.players[k] else s.next;
        assert handler(s.handled, h, p) == Outcome(false, None);
        RunRegistersGuilds(u, frames[1..], handler);
        PayloadsAppend(s.handled, u.handled[|s.handled|]);
    }
  }

  lemma PayloadsAppend(handled: seq<(nat, Value)>, x: (nat, Value))
    ensures Payloads(handled + [x]) == Payloads(handled) + [x.1]
  {
    assert forall i :: 0 <= i < |handled| ==> (handled + [x])[i] == handled[i];
  }

  /**
   * When building a player raises, the registry never gains an entry: from
   * an empty registry it stays empty, nothing is handed over, no player's
   * handler runs, and the first routed frame ends the loop with that
   * exception.
   */
  lemma {:induction false} RunWithoutPlayers(s: Registry, frames: seq<Frame>, e: Error, handler: Handler)
    requires s.failure.None? && s.players == map[] && s.handled == []
    ensures var t := Run(s, frames, Raises(e), handler);
      && t.players == map[] && t.handled == []
      && (RoutedPayloads(frames) != [] ==> t.failure == Some(e))
    decreases |frames|
  {
    if |frames| > 0 {
      var u := StepOnce(s, frames[0], Raises(e), handler);
      if u.failure.None? {
        RunWithoutPlayers(u, frames[1..], e, handler);
      }
    }
  }

  /**
   * The current gateway as written: the call never matches the current
   * player's `__init__`, so whatever that body and the players' handlers
   * do, no player is ever registered, no payload is ever handed over, and
   * the first routed frame ends the connection with `TypeError`. The older
   * gateway's call matches its player and the body decides.
   */
  lemma SwishGatewayNeverRegisters(frames: seq<Frame>, body: Construction, handler: Handler)
    ensures CallConstructor(GatewayArguments, LegacyPlayerParameters, body) == body
    ensures var t := Run(Registry(map[], [], 0, None), frames, CallConstructor(GatewayArguments, SwishPlayerParameters, body), handler);
      && t.players == map[] && t.handled == []
      && (RoutedPayloads(frames) != [] ==> t.failure.Some? && t.failure.value.TypeError?)
  {
    var c := CallConstructor(GatewayArguments, SwishPlayerParameters, body);
    assert c.Raises? && c.error.TypeError?;
    RunWithoutPlayers(Registry(map[], [], 0, None), frames, c.error, handler);
  }

  /** The per-connection state `websocket[...]` holds after a successful handshake. */
  class Connection {
    const userAgent: string
    const clientName: string
    const userId: string
    var players: map<Value, nat>
    var handled: seq<(nat, Value)>
    var next: nat
    var failure: Option<Error>

    function Snapshot(): Registry
      reads this
    {
      Registry(players, handled, next, failure)
    }

    /** The handshake's last step: record the identity, start with an empty registry. */
    constructor(userAgent: string, clientName: string, userId: string)
      ensures this.userAgent == userAgent && this.clientName == clientName && this.userId == userId
      ensures Snapshot() == Registry(map[], [], 0, None)
    {
      this.userAgent := userAgent;
      this.clientName := clientName;
      this.userId := userId;
      players := map[];
      handled := [];
      next := 0;
      failure := None;
    }

    /**
     * The loop body for one frame: skip it, raise, or find the guild's
     * player (creating and registering it if there is none) and hand it
     * the payload; the player may then have deleted its entry or raised.
     */
    method Receive(frame: Frame, construct: Construction, handler: Handler)
      requires failure.None?
      modifies this
      ensures Snapshot() == StepOnce(old(Snapshot()), frame, construct, handler)
    {
      var step := Classify(frame);
      match step
      case Discard =>
      case Raise(e) =>
        failure := Some(e);
      case Route(k, p) =>
        var player: nat;
        if k in players {
          player := players[k];
        } else {
          if construct.Raises? {
            failure := Some(construct.error);
            return;
          }
          player := next;
          next := next + 1;
          players := players[k := player];
        }
        var outcome := handler(handled, player, p);
        handled := handled + [(player, p)];
        if outcome.leaves {
          players := players - {k};
        }
        if outcome.raised.Some? {
          failure := outcome.raised;
        }
    }

    /** `async for message in websocket`: frames one at a time, until one raises or none are left. */
    method Serve(frames: seq<Frame>, construct: Construction, handler: Handler)
      requires failure.None?
      modifies this
      ensures Snapshot() == Run(old(Snapshot()), frames, construct, handler)
    {
      var i := 0;
      while i < |frames| && failure.None?
        invariant i <= |frames|
        invariant Run(old(Snapshot()), frames, construct, handler) == Run(Snapshot(), frames[i..], construct, handler)
      {
        assert frames[i..][1..] == frames[i + 1..];
        Receive(frames[i], construct, handler);
        i := i + 1;
      }
    }
  }

  /**
   * `websocket_handler`: the handshake, then (only when admitted) the frame
   * loop on a fresh connection. A refused handshake reads no frame.
   */
  method Handle(h: Headers, remote: string, password: string, frames: seq<Frame>, construct: Construction, handler: Handler)
    returns (admission: Admission, conn: Connection?)
    ensures admission == Admit(h, remote, password)
    ensures admission.Closed? <==> conn == null
    ensures conn != null ==>
      && fresh(conn)
      && conn.userAgent == admission.userAgent && conn.clientName == admission.clientName && conn.userId == admission.userId
      && conn.Snapshot() == Run(Registry(map[], [], 0, None), frames, construct, handler)
  {
    admission := Admit(h, remote, password);
    if admission.Closed? {
      return admission, null;
    }
    conn := new Connection(admission.userAgent, admission.clientName, admission.userId);
    conn.Serve(frames, construct, handler);
  }
}
