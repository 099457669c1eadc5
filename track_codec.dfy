/**
 * Track handles: base64 of the UTF-8 bytes of `json.dumps` of a small dict.
 * `EncodeInfo`/`DecodeId` are `App._encode_track_info`/`App._decode_track_id`
 * of the current server; `KeptFields`/`EncodeTrack` are `Search.encode_track`,
 * written identically in both generations of the search helper, whose
 * `decode_track` is `DecodeId` again.
 */
module TrackCodec {
  import opened Results
  import opened Json
  import JsonText
  import Utf8
  import Base64

  /** `base64.b64encode(json.dumps(info).encode()).decode()`. */
  function EncodeInfo(info: Value): string {
    Base64.Encode(Utf8.Encode(JsonText.Dumps(info)))
  }

  /** `json.loads(base64.b64decode(id).decode())`; `b64decode` refuses anything but a string here. */
  function DecodeId(id: Value): (r: Result<Value>)
    ensures !id.Str? ==> r.Failure? && r.error.TypeError?
  {
    match id
    case Str(s) =>
      var bytes :- Base64.Decode(s);
      var text :- Utf8.Decode(bytes);
      JsonText.Loads(text)
    case _ => Failure(TypeError("argument should be a bytes-like object or ASCII string"))
  }

  /** A handle is standard base64: alphabet characters, `=` only as trailing padding, a multiple of four long. */
  lemma EncodeInfoIsBase64(info: Value)
    ensures Base64.IsStandard(EncodeInfo(info))
  {
    Base64.EncodeIsStandard(Utf8.Encode(JsonText.Dumps(info)));
  }

  /** `_decode_track_id(_encode_track_info(info)) == info` for every scalar and flat dict. */
  lemma DecodeEncodeInfo(info: Value)
    requires JsonText.Flat(info)
    ensures DecodeId(Str(EncodeInfo(info))) == Success(info)
  {
    var text := JsonText.Dumps(info);
    Base64.DecodeEncode(Utf8.Encode(text));
    Utf8.DecodeEncode(text);
    JsonText.LoadsDumps(info);
  }

  /** The dict `encode_track` builds: `id` and `title`, and `url` when `internal`, read with `info[k]`. */
  function KeptFields(info: Value, internal: bool): (r: Result<Dict>)
    ensures r.Success? <==> info.Obj? && HasKey(info.fields, "id") && HasKey(info.fields, "title")
                              && (internal ==> HasKey(info.fields, "url"))
    ensures r.Success? ==>
      r.value == [("id", Lookup(info.fields, "id").value), ("title", Lookup(info.fields, "title").value)]
                 + (if internal then [("url", Lookup(info.fields, "url").value)] else [])
  {
    var id :- Subscript(info, "id");
    var title :- Subscript(info, "title");
    if internal then
      var url :- Subscript(info, "url");
      Success([("id", id), ("title", title), ("url", url)])
    else Success([("id", id), ("title", title)])
  }

  /** `Search.encode_track(info, internal=internal)`. */
  function EncodeTrack(info: Value, internal: bool): (r: Result<string>)
    ensures r.Success? <==> KeptFields(info, internal).Success?
  {
    var data :- KeptFields(info, internal);
    Success(EncodeInfo(Obj(data)))
  }

  /** Only `id`, `title` and (when internal) `url` of the input matter. */
  lemma EncodeTrackReadsOnly(info: Value, other: Value, internal: bool)
    requires Subscript(info, "id") == Subscript(other, "id")
    requires Subscript(info, "title") == Subscript(other, "title")
    requires internal ==> Subscript(info, "url") == Subscript(other, "url")
    ensures EncodeTrack(info, internal) == EncodeTrack(other, internal)
  {
  }

  /** What a lookup in the kept dict finds. */
  lemma KeptLookups(a: Value, b: Value, c: Value, internal: bool)
    ensures var d := [("id", a), ("title", b)] + (if internal then [("url", c)] else []);
      && Lookup(d, "id") == Some(a) && Lookup(d, "title") == Some(b)
      && (HasKey(d, "url") <==> internal)
      && (internal ==> Lookup(d, "url") == Some(c))
      && UniqueKeys(d)
  {
    var d := [("id", a), ("title", b)] + (if internal then [("url", c)] else []);
    assert d[0].0 == "id" && d[1].0 == "title";
    assert internal ==> d[2].0 == "url";
    assert !internal ==> |d| == 2;
    if !internal {
      assert !HasKey(d, "url") by {
        forall i | 0 <= i < |d| ensures d[i].0 != "url" {
          assert i == 0 || i == 1;
        }
      }
    }
  }

  /**
   * `decode_track(encode_track(info, internal=b))` is `{id, title}` with `url`
   * added exactly when `b`, for scalar field values.
   */
  lemma DecodeEncodeTrack(info: Value, internal: bool)
    requires info.Obj? && HasKey(info.fields, "id") && HasKey(info.fields, "title")
    requires internal ==> HasKey(info.fields, "url")
    requires IsScalar(Lookup(info.fields, "id").value) && IsScalar(Lookup(info.fields, "title").value)
    requires internal ==> IsScalar(Lookup(info.fields, "url").value)
    ensures EncodeTrack(info, internal).Success?
    ensures var d := DecodeId(Str(EncodeTrack(info, internal).value));
      && d.Success? && d.value.Obj?
      && Lookup(d.value.fields, "id") == Lookup(info.fields, "id")
      && Lookup(d.value.fields, "title") == Lookup(info.fields, "title")
      && (HasKey(d.value.fields, "url") <==> internal)
      && (internal ==> Lookup(d.value.fields, "url") == Lookup(info.fields, "url"))
      && |d.value.fields| == if internal then 3 else 2
  {
    var a := Lookup(info.fields, "id").value;
    var b := Lookup(info.fields, "title").value;
    var c := if internal then Lookup(info.fields, "url").value else Null;
    var data := KeptFields(info, internal).value;
    assert data == [("id", a), ("title", b)] + (if internal then [("url", c)] else []);
    KeptLookups(a, b, c, internal);
    assert JsonText.Flat(Obj(data));
    DecodeEncodeInfo(Obj(data));
  }
}
