/**
 * The example bot (`bot.py`) and its twin under `tests/bot.py`: the voice
 * protocol object that collects Discord's two voice events and forwards
 * them to the server as one `voice_update`, the `{'op', 'd'}` envelope, and
 * the `play` command's payload. The accumulator is written identically in
 * both files; only the `play` payload differs.
 *
 * Sending a payload appends it to `sent`; Discord's events and the HTTP
 * search answer are arguments.
 */
module BotClient {
  import opened Results
  import opened Json
  import JsonText
  import Gateway

  /** `_send_payload(op, data)`: the envelope put on the websocket. */
  function Envelope(op: string, d: Value): (r: Value)
    ensures Subscript(r, "op") == Success(Str(op)) && Subscript(r, "d") == Success(d)
  {
    var r := Obj([("op", Str(op)), ("d", d)]);
    assert HasKey(r.fields, "op") by { assert r.fields[0].0 == "op"; }
    assert HasKey(r.fields, "d") by { assert r.fields[1].0 == "d"; }
    r
  }

  /**
   * Every envelope whose data carries a truthy, hashable `guild_id` passes
   * the gateway's envelope checks and is routed to that guild.
   */
  lemma EnvelopeRouted(op: string, d: Value)
    requires d.Obj? && Truthy(Get(d.fields, "guild_id", Null)) && Hashable(Get(d.fields, "guild_id", Null))
    ensures Gateway.Classify(Gateway.Decoded(Envelope(op, d))) == Gateway.Route(Gateway.Key(Get(d.fields, "guild_id", Null)), Envelope(op, d))
  {
    var p := Envelope(op, d);
    assert Gateway.GuildOf(p) == Success(Some(Get(d.fields, "guild_id", Null)));
  }

  /** `{'session_id': session_id, **server_update}`. */
  function VoiceUpdateData(sessionId: Value, serverUpdate: Dict): Dict {
    Merge([("session_id", sessionId)], serverUpdate)
  }

  /** Assigning the entries of `b` into `a` when none of its keys is in `a` appends them in order. */
  lemma {:induction false} MergeFresh(a: Dict, b: Dict)
    requires UniqueKeys(b)
    requires forall i :: 0 <= i < |b| ==> !HasKey(a, b[i].0)
    ensures Merge(a, b) == a + b
    decreases |b|
  {
    if |b| > 0 {
      var a' := Put(a, b[0].0, b[0].1);
      assert a' == a + [b[0]];
      var rest := b[1..];
      assert UniqueKeys(rest) by {
        forall x, y | 0 <= x < y < |rest| ensures rest[x].0 != rest[y].0 {
          assert rest[x] == b[x + 1] && rest[y] == b[y + 1];
        }
      }
      forall i | 0 <= i < |rest| ensures !HasKey(a', rest[i].0) {
        assert rest[i] == b[i + 1];
        var k := rest[i].0;
        assert b[0].0 != k && !HasKey(a, k);
        forall j | 0 <= j < |a'| ensures a'[j].0 != k {
          if j < |a| {
            assert a'[j] == a[j];
          }
        }
      }
      MergeFresh(a', rest);
      assert a' + rest == a + b;
    }
  }

  /**
   * The data sent is the session id followed by every field of the server
   * update, in order (when the server update has no `session_id` of its own).
   */
  lemma VoiceUpdateDataShape(sessionId: Value, serverUpdate: Dict)
    requires UniqueKeys(serverUpdate) && !HasKey(serverUpdate, "session_id")
    ensures VoiceUpdateData(sessionId, serverUpdate) == [("session_id", sessionId)] + serverUpdate
  {
    var a := [("session_id", sessionId)];
    forall i | 0 <= i < |serverUpdate| ensures !HasKey(a, serverUpdate[i].0) {
      assert serverUpdate[i].0 != "session_id";
    }
    MergeFresh(a, serverUpdate);
  }

  /** Both parts are there: a truthy session id and a non-empty server update. */
  predicate Ready(sessionId: Value, serverUpdate: Option<Dict>) {
    Truthy(sessionId) && serverUpdate.Some? && serverUpdate.value != []
  }

  /** `_dispatch_voice_update()`: what it sends, given the two stored parts. */
  function Dispatched(sessionId: Value, serverUpdate: Option<Dict>): seq<Value> {
    if Ready(sessionId, serverUpdate) then [Envelope("voice_update", Obj(VoiceUpdateData(sessionId, serverUpdate.value)))]
    else []
  }

  /** One of Discord's two voice events, with its data. */
  datatype Event = ServerUpdate(data: Dict) | StateUpdate(data: Dict)

  /** The voice protocol's stored parts and what it has sent. */
  datatype Handshake = Handshake(sessionId: Value, serverUpdate: Option<Dict>, sent: seq<Value>)

  /** An event handler: store this event's part, then try to dispatch. */
  function OnEvent(h: Handshake, e: Event): Handshake {
    var stored :=
      match e
      case ServerUpdate(data) => h.(serverUpdate := Some(data))
      case StateUpdate(data) => h.(sessionId := Get(data, "session_id", Null));
    stored.(sent := stored.sent + Dispatched(stored.sessionId, stored.serverUpdate))
  }

  /** The events in arrival order. */
  function Replay(h: Handshake, events: seq<Event>): Handshake
    decreases |events|
  {
    if |events| == 0 then h else Replay(OnEvent(h, events[0]), events[1..])
  }

  /**
   * Nothing is sent while a part is missing: without any server-update
   * event, or without any voice-state event carrying a truthy session id,
   * the handshake sends nothing, whichever order the events come in.
   */
  lemma {:induction false} NothingBeforeBothParts(h: Handshake, events: seq<Event>)
    requires
      || (h.serverUpdate.None? && forall i :: 0 <= i < |events| ==> events[i].StateUpdate?)
      || (!Truthy(h.sessionId) &&
          forall i :: 0 <= i < |events| ==> events[i].ServerUpdate? || !Truthy(Get(events[i].data, "session_id", Null)))
    ensures Replay(h, events).sent == h.sent
    decreases |events|
  {
    if |events| > 0 {
      var next := OnEvent(h, events[0]);
      assert next.sent == h.sent;
      assert forall i :: 1 <= i < |events| ==> events[1..][i - 1] == events[i];
      NothingBeforeBothParts(next, events[1..]);
    }
  }

  /**
   * There is no once-only guard: once both parts are there, every further
   * server update with data and every voice-state event with a truthy
   * session id sends one more `voice_update`. A voice-state event without a
   * session id resets it and blocks sending.
   */
  lemma EveryReadyEventSends(h: Handshake, e: Event)
    ensures e.ServerUpdate? && Truthy(h.sessionId) && e.data != [] ==> |OnEvent(h, e).sent| == |h.sent| + 1
    ensures e.StateUpdate? && h.serverUpdate.Some? && h.serverUpdate.value != [] && Truthy(Get(e.data, "session_id", Null)) ==>
      |OnEvent(h, e).sent| == |h.sent| + 1
    ensures e.StateUpdate? && !HasKey(e.data, "session_id") ==> OnEvent(h, e).sessionId == Null && OnEvent(h, e).sent == h.sent
  {
  }

  /** The bot's `discord.VoiceProtocol` subclass, `Player`. */
  class VoiceProtocol {
    var sessionId: Value
    var serverUpdate: Option<Dict>
    var sent: seq<Value>

    function State(): Handshake
      reads this
    {
      Handshake(sessionId, serverUpdate, sent)
    }

    constructor()
      ensures State() == Handshake(Null, None, [])
    {
      sessionId := Null;
      serverUpdate := None;
      sent := [];
    }

    /** `_dispatch_voice_update()`: send only when both parts are there. */
    method DispatchVoiceUpdate()
      modifies this
      ensures State() == old(State()).(sent := old(sent) + Dispatched(sessionId, serverUpdate))
    {
      if !Truthy(sessionId) || serverUpdate.None? || serverUpdate.value == [] {
        return;
      }
      sent := sent + [Envelope("voice_update", Obj(VoiceUpdateData(sessionId, serverUpdate.value)))];
    }

    /** `on_voice_server_update(data)`. */
    method OnVoiceServerUpdate(data: Dict)
      modifies this
      ensures State() == OnEvent(old(State()), ServerUpdate(data))
    {
      serverUpdate := Some(data);
      DispatchVoiceUpdate();
    }

    /** `on_voice_state_update(data)`. */
    method OnVoiceStateUpdate(data: Dict)
      modifies this
      ensures State() == OnEvent(old(State()), StateUpdate(data))
    {
      sessionId := Get(data, "session_id", Null);
      DispatchVoiceUpdate();
    }
  }

  /** The `play` command of `bot.py`: the guild id as a string and the `id` of the first search result. */
  function PlayData(guildId: nat, results: seq<Value>): (r: Result<Value>)
    ensures |results| == 0 ==> r == Failure(IndexError)
    ensures |results| > 0 && results[0].Obj? && HasKey(results[0].fields, "id") ==>
      r.Success? && Subscript(r.value, "track_id") == Subscript(results[0], "id")
  {
    if |results| == 0 then Failure(IndexError)
    else
      var id :- Subscript(results[0], "id");
      var d := Obj([("guild_id", Str(JsonText.NatText(guildId))), ("track_id", id)]);
      assert d.fields[1].0 == "track_id";
      Success(d)
  }

  /** The `play` command of `tests/bot.py`: the whole first search result goes as `track_id`. */
  function TestPlayData(guildId: nat, results: seq<Value>): (r: Result<Value>)
    ensures |results| == 0 ==> r == Failure(IndexError)
    ensures |results| > 0 ==> r.Success? && Subscript(r.value, "track_id") == Success(results[0])
  {
    if |results| == 0 then Failure(IndexError)
    else
      var d := Obj([("guild_id", Str(JsonText.NatText(guildId))), ("track_id", results[0])]);
      assert d.fields[1].0 == "track_id";
      Success(d)
  }

  /** Both `play` payloads reach the guild's player: their `guild_id` is a non-empty string. */
  lemma PlayPayloadsRouted(guildId: nat, results: seq<Value>)
    ensures PlayData(guildId, results).Success? ==>
      Gateway.Classify(Gateway.Decoded(Envelope("play", PlayData(guildId, results).value))).Route?
    ensures TestPlayData(guildId, results).Success? ==>
      Gateway.Classify(Gateway.Decoded(Envelope("play", TestPlayData(guildId, results).value))).Route?
  {
    var g := Str(JsonText.NatText(guildId));
    assert Truthy(g);
    if PlayData(guildId, results).Success? {
      var d := PlayData(guildId, results).value;
      assert d.fields[0] == ("guild_id", g);
      assert Get(d.fields, "guild_id", Null) == g;
      EnvelopeRouted("play", d);
    }
    if TestPlayData(guildId, results).Success? {
      var d := TestPlayData(guildId, results).value;
      assert d.fields[0] == ("guild_id", g);
      assert Get(d.fields, "guild_id", Null) == g;
      EnvelopeRouted("play", d);
    }
  }
}
