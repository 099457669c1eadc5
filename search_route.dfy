/**
 * The `/search` endpoint of the current server (`App.search_tracks`,
 * `_get_tracks`, `_ytdl_search`, `_get_playback_url`): parameter checks, the
 * source-to-prefix table, and the list of `{id, info}` tracks built from the
 * resolver's entries.
 */
module SearchRoute {
  import opened Results
  import opened Json
  import JsonText
  import TrackCodec
  import Rotator
  import TrackSearch

  /** The sources `_SOURCE_MAPPING` knows. */
  const Sources: seq<string> := ["youtube", "soundcloud", "niconico", "bilibili", "none"]

  /** The search tag of each site source. */
  function SiteTag(source: string): string {
    if source == "youtube" then "yt"
    else if source == "soundcloud" then "sc"
    else if source == "niconico" then "nico"
    else "bili"
  }

  /** `_SOURCE_MAPPING.get(source)` with `max_results` from the configuration. */
  function SourcePrefix(source: string, maxResults: int): (r: Option<string>)
  {
    if source == "none" then Some("")
    else if source in Sources then Some(SiteTag(source) + "search" + JsonText.IntText(maxResults) + ":")
    else None
  }

  /** What `search_tracks` does before any lookup: refuse the request, or look up this text. */
  datatype Route = BadRequest(error: string) | Forward(lookup: string)

  /**
   * The parameter checks of `search_tracks`. `query` and `source` are the
   * request's parameters when present. The query is checked first.
   */
  function RouteSearch(query: Option<string>, source: Option<string>, maxResults: int): Route {
    if query.None? || query.value == "" then BadRequest("Missing \"query\" query parameter.")
    else
      var s := if source.Some? then source.value else "none";
      match SourcePrefix(s, maxResults)
      case None => BadRequest("Invalid \"source\" query parameter.")
      case Some(p) => Forward(p + query.value)
  }

  /**
   * A request is refused exactly when its query is missing or empty or its
   * source is not one of the five known ones, and the query is reported
   * first. Otherwise the lookup is the query itself for `none` (or no
   * source), and `<tag>search<max_results>:` followed by the query for a site.
   */
  lemma RouteSearchSpec(query: Option<string>, source: Option<string>, maxResults: int)
    ensures var r := RouteSearch(query, source, maxResults);
      && (r.BadRequest? <==> query.None? || query.value == "" || (source.Some? && source.value !in Sources))
      && (query.None? || query.value == "" ==> r == BadRequest("Missing \"query\" query parameter."))
      && (r.Forward? && (source.None? || source.value == "none") ==> r.lookup == query.value)
      && (r.Forward? && source.Some? && source.value != "none" ==>
            r.lookup == SiteTag(source.value) + "search" + JsonText.IntText(maxResults) + ":" + query.value)
      && (r.Forward? ==> query.value <= r.lookup[|r.lookup| - |query.value|..] && |r.lookup| >= |query.value|)
  {
    var r := RouteSearch(query, source, maxResults);
    if r.Forward? {
      var s := if source.Some? then source.value else "none";
      var p := SourcePrefix(s, maxResults).value;
      assert r.lookup == p + query.value;
      assert r.lookup[|p|..] == query.value;
    }
  }

  /** `int(entry.get('duration', 0) * 1000)` for the durations this model has: integers and booleans. */
  function Length(entry: Dict): Result<Value> {
    match Get(entry, "duration", Int(0))
    case Int(i) => Success(Int(i * 1000))
    case Bool(b) => Success(Int(if b then 1000 else 0))
    case Null => Failure(TypeError("unsupported operand type(s) for *: 'NoneType' and 'int'"))
    case Str(_) => Failure(NotModelled("int() of a repeated string"))
    case Arr(_) => Failure(TypeError("int() argument must be a string, a bytes-like object or a real number, not 'list'"))
    case Obj(_) => Failure(TypeError("unsupported operand type(s) for *: 'dict' and 'int'"))
  }

  /** `x[0]`. JSON dict keys are strings, so `0` is never one of them. */
  function IndexZero(x: Value): Result<Value> {
    match x
    case Arr(items) => if |items| == 0 then Failure(IndexError) else Success(items[0])
    case Str(s) => if |s| == 0 then Failure(IndexError) else Success(Str([s[0]]))
    case Obj(_) => Failure(KeyError("0"))
    case _ => Failure(TypeError("object is not subscriptable"))
  }

  /** The `info` dict `_get_tracks` builds for one entry, its values read left to right. */
  function TrackInfo(entry: Value): (r: Result<Dict>)
    ensures r.Success? ==> HasInfoKeys(r.value)
  {
    var title :- Subscript(entry, "title");
    var id :- Subscript(entry, "id");
    var url :- Subscript(entry, "url");
    // `entry[...]` succeeded, so `entry` is a dict from here on.
    var d := entry.fields;
    var length :- Length(d);
    var author := Get(d, "uploader", Str("Unknown"));
    var authorId := Get(d, "channel_id", Null);
    var thumbnail :- IndexZero(Get(d, "thumbnail", Arr([Null])));
    var live := Get(d, "live_status", Bool(false));
    Success(InfoDict(title, id, url, length, author, authorId, thumbnail, live))
  }

  /** The `info` dict literal of `_get_tracks`. */
  function InfoDict(title: Value, id: Value, url: Value, length: Value, author: Value, authorId: Value,
                    thumbnail: Value, live: Value): (d: Dict)
    ensures HasInfoKeys(d)
    ensures d[0].1 == title && d[1].1 == id && d[2].1 == url && d[3].1 == length
    ensures d[4].1 == author && d[5].1 == authorId && d[6].1 == thumbnail && d[7].1 == live
  {
    [("title", title), ("identifier", id), ("url", url), ("length", length), ("author", author),
     ("author_id", authorId), ("thumbnail", thumbnail), ("is_live", live)]
  }

  /** A track's `info` has these eight keys, in this order. */
  predicate HasInfoKeys(d: Dict) {
    && |d| == 8
    && d[0].0 == "title" && d[1].0 == "identifier" && d[2].0 == "url" && d[3].0 == "length"
    && d[4].0 == "author" && d[5].0 == "author_id" && d[6].0 == "thumbnail" && d[7].0 == "is_live"
  }

  /**
   * For a dict entry with `title`, `id` and `url`, an integer (or absent)
   * duration and a list or string (or absent) thumbnail: an empty thumbnail
   * list or string raises `IndexError`; otherwise the info has the eight
   * keys in order, copies the three required fields, scales the duration to
   * milliseconds, takes the first element (or first character) of the
   * thumbnail, and falls back to `'Unknown'`, `None`, `None` and `False` for
   * a missing uploader, channel id, thumbnail and live status.
   */
  lemma TrackInfoSpec(entry: Value)
    requires entry.Obj? && HasKey(entry.fields, "title") && HasKey(entry.fields, "id") && HasKey(entry.fields, "url")
    requires HasKey(entry.fields, "duration") ==> Lookup(entry.fields, "duration").value.Int?
    requires HasKey(entry.fields, "thumbnail") ==>
      Lookup(entry.fields, "thumbnail").value.Arr? || Lookup(entry.fields, "thumbnail").value.Str?
    ensures var r := TrackInfo(entry);
      var d := entry.fields;
      var th := Get(d, "thumbnail", Arr([Null]));
      && (r.Failure? <==> th == Arr([]) || th == Str(""))
      && (r.Failure? ==> r.error == IndexError)
      && (r.Success? ==>
            && HasInfoKeys(r.value)
            && r.value[0].1 == Lookup(d, "title").value
            && r.value[1].1 == Lookup(d, "id").value
            && r.value[2].1 == Lookup(d, "url").value
            && r.value[3].1 == Int(if HasKey(d, "duration") then Lookup(d, "duration").value.i * 1000 else 0)
            && r.value[4].1 == (if HasKey(d, "uploader") then Lookup(d, "uploader").value else Str("Unknown"))
            && r.value[5].1 == (if HasKey(d, "channel_id") then Lookup(d, "channel_id").value else Null)
            && r.value[6].1 == (if !HasKey(d, "thumbnail") then Null else if th.Arr? then th.items[0] else Str([th.s[0]]))
            && r.value[7].1 == (if HasKey(d, "live_status") then Lookup(d, "live_status").value else Bool(false)))
  {
    var d := entry.fields;
    var length := Length(d);
    assert length.Success?;
    var thumbnail := IndexZero(Get(d, "thumbnail", Arr([Null])));
    if thumbnail.Success? {
      assert TrackInfo(entry) == Success(InfoDict(
        Lookup(d, "title").value, Lookup(d, "id").value, Lookup(d, "url").value, length.value,
        Get(d, "uploader", Str("Unknown")), Get(d, "channel_id", Null), thumbnail.value, Get(d, "live_status", Bool(false))));
    }
  }

  /** One track: `{'id': _encode_track_info(info), 'info': info}`. */
  function Track(entry: Value): Result<Value> {
    var info :- TrackInfo(entry);
    Success(Obj([("id", Str(TrackCodec.EncodeInfo(Obj(info)))), ("info", Obj(info))]))
  }

  lemma EightCases(i: int)
    requires 0 <= i < 8
    ensures i == 0 || i == 1 || i == 2 || i == 3 || i == 4 || i == 5 || i == 6 || i == 7
  {
  }

  /** The info keys are all different, so the info is a proper dict. */
  lemma InfoKeysUnique(info: Dict)
    requires HasInfoKeys(info)
    ensures UniqueKeys(info)
  {
    forall i, j | 0 <= i < j < |info| ensures info[i].0 != info[j].0 {
      EightCases(i);
      EightCases(j);
      assert info[i].0[0] != info[j].0[0] || |info[i].0| != |info[j].0|;
    }
  }

  /** The `id` of a track made from `info` decodes back to `info` whenever the info holds only scalars. */
  lemma InfoRoundTrip(info: Dict)
    requires HasInfoKeys(info)
    requires forall i :: 0 <= i < |info| ==> IsScalar(info[i].1)
    ensures TrackCodec.DecodeId(Str(TrackCodec.EncodeInfo(Obj(info)))) == Success(Obj(info))
  {
    InfoKeysUnique(info);
    assert JsonText.Flat(Obj(info));
    TrackCodec.DecodeEncodeInfo(Obj(info));
  }

  /** A track is `{id, info}`, and its `id` decodes to its `info` whenever the info holds only scalars. */
  lemma TrackIdDecodes(entry: Value)
    requires Track(entry).Success?
    ensures var t := Track(entry).value;
      var info := TrackInfo(entry).value;
      && t == Obj([("id", t.fields[0].1), ("info", Obj(info))])
      && ((forall i :: 0 <= i < |info| ==> IsScalar(info[i].1)) ==> TrackCodec.DecodeId(t.fields[0].1) == Success(Obj(info)))
  {
    var info := TrackInfo(entry).value;
    if forall i :: 0 <= i < |info| ==> IsScalar(info[i].1) {
      InfoRoundTrip(info);
    }
  }

  /** `search.get('entries', [search])`, iterated. */
  function Entries(search: Value): Result<seq<Value>> {
    var es :- DictGet(search, "entries", Arr([search]));
    Iterate(es)
  }

  /** `track` applied to the entries in order; the first entry that fails raises. */
  function TracksOf(entries: seq<Value>, track: Value -> Result<Value>): Result<seq<Value>>
  {
    if |entries| == 0 then Success([])
    else
      var init :- TracksOf(entries[..|entries| - 1], track);
      var t :- track(entries[|entries| - 1]);
      Success(init + [t])
  }

  /** What `_get_tracks` answers for the resolver's result. */
  function Tracks(search: Value): Result<seq<Value>> {
    var entries :- Entries(search);
    TracksOf(entries, Track)
  }

  /** Once a prefix of the entries fails, the whole list fails with the same error. */
  lemma {:induction false} TracksOfFailurePersists(entries: seq<Value>, track: Value -> Result<Value>, i: nat)
    requires i <= |entries| && TracksOf(entries[..i], track).Failure?
    ensures TracksOf(entries, track) == TracksOf(entries[..i], track)
    decreases |entries| - i
  {
    if i < |entries| {
      assert entries[..i + 1][..i] == entries[..i];
      TracksOfFailurePersists(entries, track, i + 1);
    } else {
      assert entries[..i] == entries;
    }
  }

  /**
   * The tracks succeed exactly when every entry gives a track, and then
   * there is one track per entry, in the entries' order.
   */
  lemma {:induction false} TracksOfSpec(entries: seq<Value>, track: Value -> Result<Value>)
    ensures var r := TracksOf(entries, track);
      && (r.Success? <==> forall i :: 0 <= i < |entries| ==> track(entries[i]).Success?)
      && (r.Success? ==> |r.value| == |entries| && forall i :: 0 <= i < |entries| ==> r.value[i] == track(entries[i]).value)
  {
    if |entries| > 0 {
      var init := entries[..|entries| - 1];
      TracksOfSpec(init, track);
      assert forall i :: 0 <= i < |init| ==> init[i] == entries[i];
    }
  }

  /**
   * A result without `entries` is treated as the only entry; a result with
   * `entries` contributes its items.
   */
  lemma EntriesSpec(search: Value)
    requires search.Obj?
    ensures !HasKey(search.fields, "entries") ==> Entries(search) == Success([search])
    ensures HasKey(search.fields, "entries") ==> Entries(search) == Iterate(Lookup(search.fields, "entries").value)
  {
  }

  /**
   * `_get_tracks` after its lookup: append one track per entry, in order.
   * Nothing is appended past the first entry that raises.
   */
  method CollectTracks(search: Value) returns (r: Result<seq<Value>>)
    ensures r == Tracks(search)
  {
    var entries := Entries(search);
    if entries.Failure? {
      return Failure(entries.error);
    }
    var es := entries.value;
    var tracks: seq<Value> := [];
    var i := 0;
    while i < |es|
      invariant i <= |es|
      invariant TracksOf(es[..i], Track) == Success(tracks)
    {
      assert es[..i + 1][..i] == es[..i];
      var t := Track(es[i]);
      if t.Failure? {
        TracksOfFailurePersists(es, Track, i + 1);
        return Failure(t.error);
      }
      tracks := tracks + [t.value];
      i := i + 1;
    }
    assert es[..i] == es;
    r := Success(tracks);
  }

  /** The class-level `_SEARCH_OPTIONS`. */
  const SearchOptions: Dict := [
    ("quiet", Bool(true)), ("no_warnings", Bool(true)),
    ("format", Str("bestaudio[ext=webm][acodec=opus]/bestaudio[ext=mp4][acodec=aac]/bestvideo[ext=mp4][acodec=aac]/best")),
    ("restrictfilenames", Bool(false)), ("ignoreerrors", Bool(true)), ("logtostderr", Bool(false)),
    ("noplaylist", Bool(false)), ("nocheckcertificate", Bool(true)), ("default_search", Str("auto")),
    ("source_address", Str("0.0.0.0"))]

  /** An HTTP answer: status and JSON body. */
  datatype Response = Response(status: int, body: Value)

  /** The search side of the current `App`; `options` is the shared `_SEARCH_OPTIONS`. */
  class App {
    var options: Dict

    constructor()
      ensures options == SearchOptions
    {
      options := SearchOptions;
    }

    /**
     * `_ytdl_search(query, internal)`: rotate, store the address and
     * `extract_flat = not internal`, then resolve with those options.
     */
    method YtdlSearch(rotator: Rotator.IpRotator, choice: nat, query: string, internal: bool, resolve: TrackSearch.Resolver)
      returns (r: Value)
      requires rotator.Valid()
      requires rotator.networks != [] ==> choice < |rotator.networks|
      modifies this, rotator
      ensures rotator.Valid()
      ensures (rotator.banned, rotator.current) == Rotator.After(rotator.networks, choice, old(rotator.banned), old(rotator.current))
      ensures options == Put(Put(old(options), "source_address", Str(Rotator.Answer(rotator.networks, rotator.current))),
                             "extract_flat", Bool(!internal))
      ensures r == resolve(Str(query), options)
    {
      var address := rotator.Rotate(choice);
      options := Put(options, "source_address", Str(address));
      options := Put(options, "extract_flat", Bool(!internal));
      r := resolve(Str(query), options);
    }

    /** `_get_playback_url(url)`: the `url` of a full (not flat) lookup. */
    method GetPlaybackUrl(rotator: Rotator.IpRotator, choice: nat, url: string, resolve: TrackSearch.Resolver)
      returns (r: Result<Value>)
      requires rotator.Valid()
      requires rotator.networks != [] ==> choice < |rotator.networks|
      modifies this, rotator
      ensures rotator.Valid()
      ensures (rotator.banned, rotator.current) == Rotator.After(rotator.networks, choice, old(rotator.banned), old(rotator.current))
      ensures Lookup(options, "extract_flat") == Some(Bool(false))
      ensures options == Put(Put(old(options), "source_address", Str(Rotator.Answer(rotator.networks, rotator.current))),
                             "extract_flat", Bool(false))
      ensures r == Subscript(resolve(Str(url), options), "url")
    {
      var search := YtdlSearch(rotator, choice, url, true, resolve);
      LookupPut(Put(old(options), "source_address", Str(Rotator.Answer(rotator.networks, rotator.current))), "extract_flat", Bool(false));
      r := Subscript(search, "url");
    }

    /** `_get_tracks(query)`: a flat lookup, then one track per entry. */
    method GetTracks(rotator: Rotator.IpRotator, choice: nat, query: string, resolve: TrackSearch.Resolver)
      returns (r: Result<seq<Value>>)
      requires rotator.Valid()
      requires rotator.networks != [] ==> choice < |rotator.networks|
      modifies this, rotator
      ensures rotator.Valid()
      ensures (rotator.banned, rotator.current) == Rotator.After(rotator.networks, choice, old(rotator.banned), old(rotator.current))
      ensures Lookup(options, "extract_flat") == Some(Bool(true))
      ensures options == Put(Put(old(options), "source_address", Str(Rotator.Answer(rotator.networks, rotator.current))),
                             "extract_flat", Bool(true))
      ensures r == Tracks(resolve(Str(query), options))
    {
      var search := YtdlSearch(rotator, choice, query, false, resolve);
      LookupPut(Put(old(options), "source_address", Str(Rotator.Answer(rotator.networks, rotator.current))), "extract_flat", Bool(true));
      r := CollectTracks(search);
    }

    /**
     * `search_tracks(request)`: 400 with an error body when the checks
     * refuse (no lookup, no rotation), else 200 with the tracks of
     * `prefix + query`. An exception while collecting tracks propagates.
     */
    method SearchTracks(rotator: Rotator.IpRotator, choice: nat, query: Option<string>, source: Option<string>,
                        maxResults: int, resolve: TrackSearch.Resolver)
      returns (r: Result<Response>)
      requires rotator.Valid()
      requires rotator.networks != [] ==> choice < |rotator.networks|
      modifies this, rotator
      ensures rotator.Valid()
      ensures RouteSearch(query, source, maxResults).BadRequest? ==>
        && r == Success(Response(400, Obj([("error", Str(RouteSearch(query, source, maxResults).error))])))
        && options == old(options) && rotator.current == old(rotator.current) && rotator.banned == old(rotator.banned)
      ensures RouteSearch(query, source, maxResults).Forward? ==>
        var tracks := Tracks(resolve(Str(RouteSearch(query, source, maxResults).lookup), options));
        && (rotator.banned, rotator.current) == Rotator.After(rotator.networks, choice, old(rotator.banned), old(rotator.current))
        && options == Put(Put(old(options), "source_address", Str(Rotator.Answer(rotator.networks, rotator.current))),
                          "extract_flat", Bool(true))
        && r == (if tracks.Success? then Success(Response(200, Arr(tracks.value))) else Failure(tracks.error))
    {
      var route := RouteSearch(query, source, maxResults);
      if route.BadRequest? {
        return Success(Response(400, Obj([("error", Str(route.error))])));
      }
      var tracks := GetTracks(rotator, choice, route.lookup, resolve);
      if tracks.Failure? {
        return Failure(tracks.error);
      }
      r := Success(Response(200, Arr(tracks.value)));
    }
  }
}

/**
 * The `/search` endpoint of the older server (`src/app.py`): no parameter
 * checks, status 200, and a call to `Search.search_youtube` with a keyword
 * argument `app` that the method does not have.
 */
module LegacySearchRoute {
  import opened Results
  import opened Json
  import LegacyRotator
  import LegacySearch
  import TrackSearch
  import SearchRoute

  /** The parameters of the older `search_youtube` after `self`: `query`, `server`, then the keyword-only ones. */
  const SearchYoutubeParameters: seq<string> := ["query", "server", "raw", "internal"]

  /** Binding keyword arguments: the first keyword the function does not declare raises `TypeError`. */
  function BindKeywords(keywords: seq<string>, parameters: seq<string>): (r: Result<()>)
    ensures r.Success? <==> forall i :: 0 <= i < |keywords| ==> keywords[i] in parameters
  {
    if |keywords| == 0 then Success(())
    else if keywords[0] !in parameters then Failure(TypeError("got an unexpected keyword argument '" + keywords[0] + "'"))
    else
      var r := BindKeywords(keywords[1..], parameters);
      assert forall i :: 1 <= i < |keywords| ==> keywords[i] == keywords[1..][i - 1];
      r
  }

  /** `request.query.get('query')` as the value passed on. */
  function QueryValue(query: Option<string>): Value {
    match query
    case Some(q) => Str(q)
    case None => Null
  }

  /**
   * The older rotator's move over network `n` once `banned` holds the
   * address it just banned: to the first address outside the banned list,
   * or nowhere when there is none.
   */
  predicate Rotated(n: LegacyRotator.Networks.Network, banned: seq<Option<nat>>, before: Option<nat>, after: Option<nat>) {
    var found := LegacyRotator.Networks.FirstOutside(n, 0, LegacyRotator.BannedSet(banned));
    after == (if found.Some? then found else before)
  }

  /** The `source_address` the older search stores after that move: `str` of the address found, or `None`. */
  function Placed(n: LegacyRotator.Networks.Network, banned: seq<Option<nat>>): Value {
    var found := LegacyRotator.Networks.FirstOutside(n, 0, LegacyRotator.BannedSet(banned));
    LegacySearch.AddressValue(if found.Some? then Some(LegacyRotator.Networks.Show(found.value)) else None)
  }

  /** The older `App`: one rotator and one `Search`, both built with the application. */
  class App {
    const rotator: LegacyRotator.IpRotator
    const search: LegacySearch.Search

    ghost predicate Valid()
      reads this, rotator
    {
      rotator.Valid()
    }

    constructor(networks: seq<LegacyRotator.Networks.Network>, choice: nat)
      requires LegacyRotator.Networks.AllWellFormed(networks)
      requires networks != [] ==> choice < |networks|
      ensures Valid() && fresh(rotator) && fresh(search)
      ensures rotator.networks == networks && search.options == LegacySearch.DefaultOptions
    {
      rotator := new LegacyRotator.IpRotator(networks, choice);
      search := new LegacySearch.Search();
    }

    /**
     * `self.search.search_youtube(query, **keywords)` with this
     * application as the value of every keyword. Argument binding happens
     * before the method body: an unknown keyword raises and nothing changes.
     */
    method CallSearchYoutube(keywords: seq<string>, query: Value, choice: nat, resolve: TrackSearch.Resolver)
      returns (r: Result<seq<Value>>)
      requires Valid()
      requires rotator.networks != [] ==> choice < |rotator.networks|
      modifies search, rotator
      ensures Valid()
      ensures BindKeywords(keywords, SearchYoutubeParameters).Failure? ==>
        && r == Failure(BindKeywords(keywords, SearchYoutubeParameters).error)
        && search.options == old(search.options) && rotator.banned == old(rotator.banned)
        && rotator.current == old(rotator.current)
      ensures BindKeywords(keywords, SearchYoutubeParameters).Success? && "server" !in keywords ==>
        && search.options == Put(old(search.options), "source_address", Str("0.0.0.0"))
        && r == TrackSearch.Shape(resolve(query, search.options), false, false)
      ensures BindKeywords(keywords, SearchYoutubeParameters).Success? && "server" in keywords ==>
        && rotator.banned == old(rotator.banned) + [old(rotator.current)]
        && (rotator.networks == [] ==>
              r == Failure(IndexError) && search.options == old(search.options) && rotator.current == old(rotator.current))
        && (rotator.networks != [] ==>
              && Rotated(rotator.networks[choice], rotator.banned, old(rotator.current), rotator.current)
              && search.options == Put(old(search.options), "source_address", Placed(rotator.networks[choice], rotator.banned))
              && r == TrackSearch.Shape(resolve(query, search.options), false, false))
    {
      var bound := BindKeywords(keywords, SearchYoutubeParameters);
      if bound.Failure? {
        return Failure(bound.error);
      }
      var server := if "server" in keywords then Some(rotator) else None;
      r := search.SearchYoutube(server, choice, query, false, false, resolve);
    }

    /**
     * The body of `search_tracks`, with the name of the keyword that passes
     * the application on: the query goes on unchecked (possibly `None`) and
     * whatever comes back is answered with status 200.
     */
    method SearchTracksWith(keyword: string, query: Option<string>, choice: nat, resolve: TrackSearch.Resolver)
      returns (r: Result<SearchRoute.Response>)
      requires Valid()
      requires rotator.networks != [] ==> choice < |rotator.networks|
      modifies search, rotator
      ensures Valid()
      ensures keyword !in SearchYoutubeParameters ==>
        && r.Failure? && r.error.TypeError?
        && search.options == old(search.options) && rotator.banned == old(rotator.banned)
        && rotator.current == old(rotator.current)
      ensures keyword == "server" ==>
        && rotator.banned == old(rotator.banned) + [old(rotator.current)]
        && (rotator.networks == [] ==>
              r == Failure(IndexError) && search.options == old(search.options) && rotator.current == old(rotator.current))
        && (rotator.networks != [] ==>
              && Rotated(rotator.networks[choice], rotator.banned, old(rotator.current), rotator.current)
              && search.options == Put(old(search.options), "source_address", Placed(rotator.networks[choice], rotator.banned))
              && var shaped := TrackSearch.Shape(resolve(QueryValue(query), search.options), false, false);
              r == (if shaped.Success? then Success(SearchRoute.Response(200, Arr(shaped.value))) else Failure(shaped.error)))
      ensures r.Success? ==> r.value.status == 200
    {
      var data := CallSearchYoutube([keyword], QueryValue(query), choice, resolve);
      if data.Failure? {
        return Failure(data.error);
      }
      r := Success(SearchRoute.Response(200, Arr(data.value)));
    }

    /**
     * `search_tracks` as written: `search_youtube(search, app=self)`. The
     * keyword `app` is not a parameter, so every request raises `TypeError`
     * before any lookup and nothing changes.
     */
    method SearchTracksAsWritten(query: Option<string>, choice: nat, resolve: TrackSearch.Resolver)
      returns (r: Result<SearchRoute.Response>)
      requires Valid()
      requires rotator.networks != [] ==> choice < |rotator.networks|
      modifies search, rotator
      ensures Valid()
      ensures r.Failure? && r.error.TypeError?
      ensures search.options == old(search.options) && rotator.banned == old(rotator.banned)
      ensures rotator.current == old(rotator.current)
    {
      r := SearchTracksWith("app", query, choice, resolve);
    }

    /**
     * `search_tracks` with the keyword the method declares,
     * `search_youtube(search, server=self)`: the rotator supplies the
     * address and every answer has status 200 unless the lookup raises.
     */
    method SearchTracks(query: Option<string>, choice: nat, resolve: TrackSearch.Resolver)
      returns (r: Result<SearchRoute.Response>)
      requires Valid()
      requires rotator.networks != [] ==> choice < |rotator.networks|
      modifies search, rotator
      ensures Valid()
      ensures rotator.banned == old(rotator.banned) + [old(rotator.current)]
      ensures rotator.networks == [] ==>
        r == Failure(IndexError) && search.options == old(search.options) && rotator.current == old(rotator.current)
      ensures rotator.networks != [] ==>
        && Rotated(rotator.networks[choice], rotator.banned, old(rotator.current), rotator.current)
        && search.options == Put(old(search.options), "source_address", Placed(rotator.networks[choice], rotator.banned))
        && var shaped := TrackSearch.Shape(resolve(QueryValue(query), search.options), false, false);
        r == (if shaped.Success? then Success(SearchRoute.Response(200, Arr(shaped.value))) else Failure(shaped.error))
      ensures r.Success? ==> r.value.status == 200
    {
      r := SearchTracksWith("server", query, choice, resolve);
    }
  }

  /** `app` is not a parameter of `search_youtube`; `server` is. */
  lemma AppKeywordRejected()
    ensures BindKeywords(["app"], SearchYoutubeParameters).Failure?
    ensures BindKeywords(["server"], SearchYoutubeParameters).Success?
  {
  }
}
