/**
 * `Search.search_youtube` in both generations: point the lookup options at
 * the rotator's address, resolve the query, and shape what comes back into a
 * list of entries or of track handles. The resolver (`yt_dlp.YoutubeDL(opts)
 * .extract_info(query)`) is a function parameter from the query and the
 * options in force to the raw result.
 */
module TrackSearch {
  import opened Results
  import opened Json
  import TrackCodec
  import Rotator

  type Resolver = (Value, Dict) -> Value

  /** `[encode(t) for t in ts]`; the first entry that cannot be encoded raises. */
  function EncodeEach(ts: seq<Value>, encode: Value -> Result<string>): (r: Result<seq<Value>>)
  {
    if |ts| == 0 then Success([])
    else
      var h :- encode(ts[0]);
      var t :- EncodeEach(ts[1..], encode);
      Success([Str(h)] + t)
  }

  /** Whether every entry of `ts` can be encoded. */
  predicate AllEncodable(ts: seq<Value>, encode: Value -> Result<string>) {
    forall i :: 0 <= i < |ts| ==> encode(ts[i]).Success?
  }

  /** Encoding a list succeeds exactly when every entry can be encoded. */
  lemma {:induction false} EncodeEachSucceeds(ts: seq<Value>, encode: Value -> Result<string>)
    ensures EncodeEach(ts, encode).Success? <==> AllEncodable(ts, encode)
  {
    if |ts| > 0 {
      var tail := ts[1..];
      EncodeEachSucceeds(tail, encode);
      assert forall i :: 1 <= i < |ts| ==> ts[i] == tail[i - 1];
      assert AllEncodable(ts, encode) <==> encode(ts[0]).Success? && AllEncodable(tail, encode);
    }
  }

  /** A successful encoding gives one handle per entry, in order. */
  lemma {:induction false} EncodeEachItems(ts: seq<Value>, encode: Value -> Result<string>)
    requires AllEncodable(ts, encode)
    ensures var r := EncodeEach(ts, encode);
      && r.Success? && |r.value| == |ts|
      && forall i :: 0 <= i < |ts| ==> r.value[i] == Str(encode(ts[i]).value)
  {
    if |ts| > 0 {
      var tail := ts[1..];
      assert AllEncodable(tail, encode) by {
        forall i | 0 <= i < |tail| ensures encode(tail[i]).Success? {
          assert tail[i] == ts[i + 1];
        }
      }
      EncodeEachItems(tail, encode);
      var h := encode(ts[0]);
      var t := EncodeEach(tail, encode);
      var r := EncodeEach(ts, encode).value;
      assert r == [Str(h.value)] + t.value;
      forall i | 0 <= i < |ts| ensures r[i] == Str(encode(ts[i]).value) {
        if i > 0 {
          assert tail[i - 1] == ts[i];
        }
      }
    }
  }

  /** `self.encode_track(t, internal=internal)` as a function of the entry. */
  function Encoder(internal: bool): Value -> Result<string> {
    t => TrackCodec.EncodeTrack(t, internal)
  }

  /**
   * The shaping of the resolver's result: a result with `entries` gives one
   * item per entry, anything else a one-item list; `raw` keeps the items as
   * they are, otherwise each becomes its handle. `'entries' in info` raises
   * for a result that is not a container (the resolver answers `None` when
   * it ignores an error).
   */
  function Shape(info: Value, raw: bool, internal: bool): Result<seq<Value>> {
    var hasEntries :- Contains(info, "entries");
    if hasEntries then
      var entries :- Subscript(info, "entries");
      var ts :- Iterate(entries);
      if raw then Success(ts) else EncodeEach(ts, Encoder(internal))
    else if raw then Success([info])
    else
      var t :- TrackCodec.EncodeTrack(info, internal);
      Success([Str(t)])
  }

  /** For a result that is a dict: the items are its entries (or itself), unchanged or encoded one by one. */
  lemma ShapeSpec(info: Value, raw: bool, internal: bool)
    requires info.Obj?
    ensures var r := Shape(info, raw, internal);
      var items := if HasKey(info.fields, "entries") then Iterate(Lookup(info.fields, "entries").value) else Success([info]);
      && (raw ==> r == items)
      && (!raw && items.Success? ==>
            && (r.Success? <==> AllEncodable(items.value, Encoder(internal)))
            && (r.Success? ==>
                  && |r.value| == |items.value|
                  && forall i :: 0 <= i < |items.value| ==> r.value[i] == Str(TrackCodec.EncodeTrack(items.value[i], internal).value)))
      && (!raw && items.Failure? ==> r.Failure?)
  {
    if HasKey(info.fields, "entries") {
      var items := Iterate(Lookup(info.fields, "entries").value);
      if items.Success? {
        EncodeEachSucceeds(items.value, Encoder(internal));
        if AllEncodable(items.value, Encoder(internal)) {
          EncodeEachItems(items.value, Encoder(internal));
        }
      }
    } else if !raw {
      var one := [info];
      assert one[0] == info;
      assert AllEncodable(one, Encoder(internal)) <==> TrackCodec.EncodeTrack(info, internal).Success?;
    }
  }

  /** The class-level `YT_DL_OPTIONS` of the current `Search`. */
  const DefaultOptions: Dict := [
    ("quiet", Bool(true)), ("no_warnings", Bool(true)), ("format", Str("bestaudio/best")),
    ("restrictfilenames", Bool(false)), ("ignoreerrors", Bool(true)), ("logtostderr", Bool(false)),
    ("noplaylist", Bool(false)), ("nocheckcertificate", Bool(true)), ("default_search", Str("auto")),
    ("source_address", Str("0.0.0.0"))]

  /** The current `Search`; `options` is its (class-level, shared) option dict. */
  class Search {
    var options: Dict

    constructor()
      ensures options == DefaultOptions
    {
      options := DefaultOptions;
    }

    /**
     * `search_youtube(query, raw=raw, internal=internal)`: rotate first and
     * store the answer as `source_address`, then resolve with the options
     * as they now are and shape the result.
     */
    method SearchYoutube(rotator: Rotator.IpRotator, choice: nat, query: string, raw: bool, internal: bool, resolve: Resolver)
      returns (r: Result<seq<Value>>)
      requires rotator.Valid()
      requires rotator.networks != [] ==> choice < |rotator.networks|
      modifies this, rotator
      ensures rotator.Valid()
      ensures (rotator.banned, rotator.current) == Rotator.After(rotator.networks, choice, old(rotator.banned), old(rotator.current))
      ensures options == Put(old(options), "source_address", Str(Rotator.Answer(rotator.networks, rotator.current)))
      ensures r == Shape(resolve(Str(query), options), raw, internal)
    {
      var address := rotator.Rotate(choice);
      options := Put(options, "source_address", Str(address));
      var info := resolve(Str(query), options);
      r := Shape(info, raw, internal);
    }
  }
}

/**
 * `Search` of the older server (`src/search.py`): the same shaping, but the
 * address comes from `server.rotator.rotate()` only when a server is passed,
 * and that rotator may raise or answer `None`.
 */
module LegacySearch {
  import opened Results
  import opened Json
  import LegacyRotator
  import TrackSearch

  /** The class-level `opts` of the older `Search`. */
  const DefaultOptions: Dict := [
    ("format", Str("bestaudio/best")), ("restrictfilenames", Bool(false)), ("noplaylist", Bool(false)),
    ("nocheckcertificate", Bool(true)), ("ignoreerrors", Bool(true)), ("logtostderr", Bool(false)),
    ("quiet", Bool(true)), ("no_warnings", Bool(true)), ("default_search", Str("auto")),
    ("source_address", Str("0.0.0.0"))]

  /** What `rotate()` answered, as the value stored in the options (`None` stays `None`). */
  function AddressValue(a: Option<string>): Value {
    match a
    case Some(s) => Str(s)
    case None => Null
  }

  class Search {
    var options: Dict

    constructor()
      ensures options == DefaultOptions
    {
      options := DefaultOptions;
    }

    /**
     * `search_youtube(query, server, raw=raw, internal=internal)`;
     * `server` is present or not, and only its rotator is used. Without a
     * server the address is `'0.0.0.0'`; an error from `rotate` propagates
     * before anything is resolved.
     */
    method SearchYoutube(server: Option<LegacyRotator.IpRotator>, choice: nat, query: Value, raw: bool, internal: bool,
                         resolve: TrackSearch.Resolver)
      returns (r: Result<seq<Value>>)
      requires server.Some? ==> server.value.Valid()
      requires server.Some? && server.value.networks != [] ==> choice < |server.value.networks|
      modifies this, if server.Some? then {server.value} else {}
      ensures server.Some? ==> server.value.Valid()
      ensures server.Some? ==> server.value.banned == old(server.value.banned) + [old(server.value.current)]
      ensures server.None? ==>
        && options == Put(old(options), "source_address", Str("0.0.0.0"))
        && r == TrackSearch.Shape(resolve(query, options), raw, internal)
      ensures server.Some? && server.value.networks == [] ==>
        r == Failure(IndexError) && options == old(options) && server.value.current == old(server.value.current)
      ensures server.Some? && server.value.networks != [] ==>
        var n := server.value.networks[choice];
        var found := LegacyRotator.Networks.FirstOutside(n, 0, LegacyRotator.BannedSet(server.value.banned));
        && server.value.banned == old(server.value.banned) + [old(server.value.current)]
        && server.value.current == (if found.Some? then found else old(server.value.current))
        && options == Put(old(options), "source_address",
                          AddressValue(if found.Some? then Some(LegacyRotator.Networks.Show(found.value)) else None))
        && r == TrackSearch.Shape(resolve(query, options), raw, internal)
    {
      var address: Value;
      if server.Some? {
        var a := server.value.Rotate(choice);
        if a.Failure? {
          return Failure(a.error);
        }
        address := AddressValue(a.value);
      } else {
        address := Str("0.0.0.0");
      }
      options := Put(options, "source_address", address);
      var info := resolve(query, options);
      r := TrackSearch.Shape(info, raw, internal);
    }
  }
}
