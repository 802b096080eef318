/**
 * The shared helpers of both iterations of the gateway: the value checks of
 * the untyped iteration, the query-string escaper, the two sensor-tag
 * extractors (typed and untyped iteration, which differ) and the single-point
 * write.
 */
module Helpers {
  import opened Wrappers
  import opened JsString
  import opened JsValue
  import opened Http
  import opened Influx

  /** `isNumber`: a number that is not NaN. */
  function IsNumber(v: Json): (r: bool)
    ensures r <==> v.Num?
  {
    TypeOf(v) == "number" && !v.NaN?
  }

  /** `isObject`: object-typed and not null, so arrays count as objects. */
  function IsObject(v: Json): (r: bool)
    ensures r <==> v.Arr? || v.Obj?
  {
    TypeOf(v) == "object" && !v.Null?
  }

  // ---------------------------------------------------------------------------
  // escapeString: str.replace(/([,"\s])/g, '\\$1')

  /** The characters the escaper puts a backslash in front of. */
  predicate IsSpecial(c: char)
  {
    c == ',' || c == '"' || IsJsWhitespace(c)
  }

  function CountSpecial(s: string): nat
  {
    if s == [] then 0 else (if IsSpecial(s[0]) then 1 else 0) + CountSpecial(s[1..])
  }

  /** `escapeString`: a backslash before every comma, double quote and
      whitespace character; every other character is copied in order. */
  function EscapeString(str: string): (r: string)
    ensures |r| == |str| + CountSpecial(str)
    ensures r != [] ==> !IsSpecial(r[0])
    ensures forall i :: 0 <= i < |r| && IsSpecial(r[i]) ==> i > 0 && r[i - 1] == '\\'
    ensures (forall i :: 0 <= i < |str| ==> !IsSpecial(str[i])) ==> r == str
  {
    if str == [] then []
    else
      var rest := EscapeString(str[1..]);
      var head := if IsSpecial(str[0]) then ['\\', str[0]] else [str[0]];
      assert forall i :: 0 <= i < |rest| ==> (head + rest)[|head| + i] == rest[i];
      head + rest
  }

  /** Reads an escaped string back: a backslash followed by a special
      character stands for that character; everything else stands for itself. */
  function Unescape(t: string): string
  {
    if t == [] then []
    else if |t| >= 2 && t[0] == '\\' && IsSpecial(t[1]) then [t[1]] + Unescape(t[2..])
    else [t[0]] + Unescape(t[1..])
  }

  /** Escaping loses nothing: the original string is recovered from its
      escaped form, so only backslashes were inserted and the other characters
      kept their order. */
  lemma {:induction false} UnescapeEscape(str: string)
    ensures Unescape(EscapeString(str)) == str
  {
    if str != [] {
      UnescapeEscape(str[1..]);
      var rest := EscapeString(str[1..]);
      if IsSpecial(str[0]) {
        assert EscapeString(str) == ['\\', str[0]] + rest;
        assert (['\\', str[0]] + rest)[2..] == rest;
      } else {
        assert EscapeString(str) == [str[0]] + rest;
        assert ([str[0]] + rest)[1..] == rest;
      }
      assert str == [str[0]] + str[1..];
    }
  }

  // ---------------------------------------------------------------------------
  // extractSensorTag

  const TAGS_NOT_ARRAY := "tags must be an array"
  const SENSOR_TAG_NOT_FOUND := "sensor tag not found"
  const INVALID_SENSOR_TAG := "invalid sensor tag format"

  /** `tags.find(tag => typeof tag === 'string' && tag.startsWith('sensor:'))`,
      scanning from index `from`. */
  function FindSensorTag(tags: seq<Json>, from: nat): (r: Option<nat>)
    requires from <= |tags|
    ensures r.Some? ==> from <= r.value < |tags| && IsSensorTag(tags[r.value])
    ensures r.Some? ==> forall j :: from <= j < r.value ==> !IsSensorTag(tags[j])
    ensures r.None? <==> forall j :: from <= j < |tags| ==> !IsSensorTag(tags[j])
    decreases |tags| - from
  {
    if from == |tags| then None
    else if IsSensorTag(tags[from]) then Some(from)
    else FindSensorTag(tags, from + 1)
  }

  /** `tags.find(tag => tag.startsWith('sensor:'))`, scanning from index
      `from`: calling `startsWith` on a value that is not a string throws. */
  function FindSensorTagJs(tags: seq<Json>, from: nat): (r: Result<Option<nat>, Thrown>)
    requires from <= |tags|
    ensures r.Err? ==> r.error == TypeError
    ensures r.Err? <==> exists j :: from <= j < |tags| && !tags[j].Str? && NoSensorTagIn(tags, from, j)
    ensures r.Ok? && r.value.Some? ==>
      from <= r.value.value < |tags| && IsSensorTag(tags[r.value.value]) && NoSensorTagIn(tags, from, r.value.value)
    ensures r == Ok(None) ==> NoSensorTagIn(tags, from, |tags|)
    decreases |tags| - from
  {
    if from == |tags| then Ok(None)
    else if !tags[from].Str? then Err(TypeError)
    else if StartsWith(tags[from].s, "sensor:") then Ok(Some(from))
    else FindSensorTagJs(tags, from + 1)
  }

  /** The entries from `from` up to `to` are all strings, none with the
      `sensor:` prefix. */
  predicate NoSensorTagIn(tags: seq<Json>, from: nat, to: nat)
    requires from <= to <= |tags|
  {
    forall k :: from <= k < to ==> tags[k].Str? && !IsSensorTag(tags[k])
  }

  /** `sensorTag.split(':')[1]` for a tag that starts with `sensor:`. */
  function SensorId(tag: string): (id: string)
    requires StartsWith(tag, "sensor:")
    ensures ':' !in id
  {
    assert tag == "sensor" + [':'] + tag[7..];
    SplitAfterFirst("sensor", ':', tag[7..]);
    Split(tag, ':')[1]
  }

  /** `tag` is `sensor:` followed by `id` and then either nothing or a colon. */
  predicate IdFollowsPrefix(tag: string, id: string)
  {
    StartsWith(tag, "sensor:" + id) && (|tag| == 7 + |id| || tag[7 + |id|] == ':')
  }

  /** The id of a `sensor:` tag is the text between its first and its second
      colon (or the end): element 1 of the full split, not the remainder. */
  lemma SensorIdIsSecondField(tag: string, id: string)
    requires StartsWith(tag, "sensor:")
    ensures SensorId(tag) == id <==> ':' !in id && IdFollowsPrefix(tag, id)
  {
    var q := tag[7..];
    assert tag == "sensor" + [':'] + q;
    SplitAfterFirst("sensor", ':', q);
    var a := Split(q, ':')[0];
    assert SensorId(tag) == a;
    assert "sensor:" + a <= tag by {
      assert tag == "sensor:" + q;
    }
    if ':' !in id && IdFollowsPrefix(tag, id) {
      assert id <= q by {
        forall k | 0 <= k < |id| ensures id[k] == q[k] {
          assert ("sensor:" + id)[7 + k] == tag[7 + k];
        }
      }
      assert a == id by {
        assert a == q[..|a|] && id == q[..|id|];
      }
    }
  }

  /** `extractSensorTag` of the typed iteration: rejects a non-array, looks
      for the first string entry starting with `sensor:`, and rejects an
      empty id. */
  function ExtractSensorTagTs(tags: Json): (r: Result<string, string>)
    ensures !tags.Arr? <==> r == Err(TAGS_NOT_ARRAY)
    ensures tags.Arr? ==> (r == Err(SENSOR_TAG_NOT_FOUND) <==> forall i :: 0 <= i < |tags.elems| ==> !IsSensorTag(tags.elems[i]))
    ensures r.Ok? ==> r.value != "" && ':' !in r.value
  {
    if !tags.Arr? then Err(TAGS_NOT_ARRAY)
    else
      match FindSensorTag(tags.elems, 0)
      case None => Err(SENSOR_TAG_NOT_FOUND)
      case Some(i) =>
        var id := SensorId(tags.elems[i].s);
        if id == "" then Err(INVALID_SENSOR_TAG) else Ok(id)
  }

  /** `extractSensorTag` of the untyped iteration: no array check, no empty-id
      check, and a non-string entry met before the match throws. */
  function ExtractSensorTagJs(tags: Json): (r: Result<string, Thrown>)
    ensures !tags.Arr? ==> r == Err(TypeError)
    ensures r.Ok? ==> ':' !in r.value
    ensures tags.Arr? && (forall i :: 0 <= i < |tags.elems| ==> tags.elems[i].Str? && !IsSensorTag(tags.elems[i]))
      ==> r == Err(Error(SENSOR_TAG_NOT_FOUND))
  {
    if !tags.Arr? then Err(TypeError)
    else
      match FindSensorTagJs(tags.elems, 0)
      case Err(e) => Err(e)
      case Ok(None) => Err(Error(SENSOR_TAG_NOT_FOUND))
      case Ok(Some(i)) => Ok(SensorId(tags.elems[i].s))
  }

  /** Entry `i` is the first string entry starting with `sensor:`. */
  predicate FirstSensorTagAt(tags: seq<Json>, i: int)
  {
    0 <= i < |tags| && IsSensorTag(tags[i]) && forall j :: 0 <= j < i ==> !IsSensorTag(tags[j])
  }

  /** The typed extractor returns `id` exactly when the first `sensor:` entry
      reads `sensor:<id>` up to its second colon or its end, and `id` is non-empty. */
  lemma ExtractSensorTagTsSpec(tags: seq<Json>, id: string)
    ensures ExtractSensorTagTs(Arr(tags)) == Ok(id)
      <==> id != "" && ':' !in id && exists i :: FirstSensorTagAt(tags, i) && IdFollowsPrefix(tags[i].s, id)
  {
    var f := FindSensorTag(tags, 0);
    if f.Some? {
      var i := f.value;
      assert FirstSensorTagAt(tags, i);
      SensorIdIsSecondField(tags[i].s, id);
      forall i' | FirstSensorTagAt(tags, i') ensures i' == i { }
    } else {
      forall i' | 0 <= i' < |tags| ensures !FirstSensorTagAt(tags, i') { }
    }
  }

  /** The typed extractor refuses the tag format exactly when the first
      `sensor:` entry, whatever precedes it, has an empty id: it is `sensor:`
      itself or continues with a second colon straight away. */
  lemma ExtractSensorTagTsEmptyId(tags: seq<Json>)
    ensures ExtractSensorTagTs(Arr(tags)) == Err(INVALID_SENSOR_TAG)
      <==> exists i :: FirstSensorTagAt(tags, i) && IdFollowsPrefix(tags[i].s, "")
  {
    var f := FindSensorTag(tags, 0);
    if f.Some? {
      var i := f.value;
      assert FirstSensorTagAt(tags, i);
      SensorIdIsSecondField(tags[i].s, "");
      forall i' | FirstSensorTagAt(tags, i') ensures i' == i { }
    } else {
      forall i' | 0 <= i' < |tags| ensures !FirstSensorTagAt(tags, i') { }
    }
  }

  /** The untyped extractor returns `id` (possibly empty) exactly when every
      entry before the first `sensor:` entry is a string and that entry reads
      `sensor:<id>` up to its second colon or its end. */
  lemma ExtractSensorTagJsSpec(tags: seq<Json>, id: string)
    ensures ExtractSensorTagJs(Arr(tags)) == Ok(id)
      <==> ':' !in id && exists i :: FirstSensorTagAt(tags, i) && NoSensorTagIn(tags, 0, i) && IdFollowsPrefix(tags[i].s, id)
  {
    var f := FindSensorTagJs(tags, 0);
    if f.Ok? && f.value.Some? {
      var i := f.value.value;
      assert FirstSensorTagAt(tags, i);
      SensorIdIsSecondField(tags[i].s, id);
      forall i' | FirstSensorTagAt(tags, i') ensures i' == i { }
    } else if f.Err? {
      var j :| 0 <= j < |tags| && !tags[j].Str? && NoSensorTagIn(tags, 0, j);
      forall i' | FirstSensorTagAt(tags, i') && NoSensorTagIn(tags, 0, i') ensures false { }
    } else {
      forall i' | 0 <= i' < |tags| ensures !FirstSensorTagAt(tags, i') {
        assert NoSensorTagIn(tags, 0, |tags|);
      }
    }
  }

  /** On an array of strings the two find callbacks agree. */
  lemma {:induction false} FindSensorTagVariantsAgree(tags: seq<Json>, from: nat)
    requires from <= |tags|
    requires forall k :: 0 <= k < |tags| ==> tags[k].Str?
    ensures FindSensorTagJs(tags, from) == Ok(FindSensorTag(tags, from))
    decreases |tags| - from
  {
    if from < |tags| && !IsSensorTag(tags[from]) {
      FindSensorTagVariantsAgree(tags, from + 1);
    }
  }

  /** A tag `sensor:<id>` with a colon-free `id` yields `id`. */
  lemma SensorIdOfSimpleTag(id: string)
    requires ':' !in id
    ensures IsSensorTag(Str("sensor:" + id))
    ensures SensorId("sensor:" + id) == id
  {
    assert IdFollowsPrefix("sensor:" + id, id);
    SensorIdIsSecondField("sensor:" + id, id);
  }

  /** `sensor:<a>:<b>` yields `a`: the id stops at the second colon. */
  lemma SensorIdStopsAtSecondColon(a: string, b: string)
    requires ':' !in a
    ensures SensorId("sensor:" + a + ":" + b) == a
  {
    var tag := "sensor:" + a + ":" + b;
    assert tag[..7 + |a|] == "sensor:" + a;
    assert tag[7 + |a|] == ':';
    SensorIdIsSecondField(tag, a);
  }

  /** Both extractors on `pre + ['sensor:<id>'] + post` where `pre` holds
      only strings without the prefix: the typed one returns `id` or refuses
      an empty one, the untyped one returns `id` as it is. */
  lemma ExtractFirstSensorTag(pre: seq<Json>, id: string, post: seq<Json>)
    requires ':' !in id
    requires forall k :: 0 <= k < |pre| ==> pre[k].Str? && !IsSensorTag(pre[k])
    ensures ExtractSensorTagTs(Arr(pre + [Str("sensor:" + id)] + post))
      == if id == "" then Err(INVALID_SENSOR_TAG) else Ok(id)
    ensures ExtractSensorTagJs(Arr(pre + [Str("sensor:" + id)] + post)) == Ok(id)
  {
    var tags := pre + [Str("sensor:" + id)] + post;
    SensorIdOfSimpleTag(id);
    assert tags[|pre|] == Str("sensor:" + id);
    assert FirstSensorTagAt(tags, |pre|) by {
      forall j | 0 <= j < |pre| ensures !IsSensorTag(tags[j]) {
        assert tags[j] == pre[j];
      }
    }
    assert NoSensorTagIn(tags, 0, |pre|) by {
      forall j | 0 <= j < |pre| ensures tags[j] == pre[j] { }
    }
    assert IdFollowsPrefix(tags[|pre|].s, id);
    ExtractSensorTagJsSpec(tags, id);
    if id != "" {
      ExtractSensorTagTsSpec(tags, id);
    } else {
      assert FindSensorTag(tags, 0) == Some(|pre|);
    }
  }

  /** Which iteration's helpers a route handler was built against. */
  datatype Variant = Typed | Untyped

  /** The extractor each iteration's route handlers call. */
  function ExtractSensorTag(variant: Variant, tags: Json): (r: Result<string, Thrown>)
    ensures r.Ok? ==> ':' !in r.value
    ensures variant.Typed? && r.Ok? ==> r.value != ""
  {
    match variant
    case Typed =>
      (match ExtractSensorTagTs(tags)
       case Ok(id) => Ok(id)
       case Err(m) => Err(Error(m)))
    case Untyped => ExtractSensorTagJs(tags)
  }

  // ---------------------------------------------------------------------------
  // writeToInflux

  /** `writeToInflux`: exactly one write of one point carrying the given
      measurement, tags and fields; a sink failure is rethrown. */
  method WriteToInflux(sink: Sink, measurement: string, tags: map<string, Json>, fields: Json)
    returns (r: Result<(), Thrown>)
    modifies sink
    ensures r.Ok? <==> old(sink.attempts) !in sink.failing
    ensures r.Err? ==> r.error == WriteError
    ensures sink.attempts == old(sink.attempts) + 1
    ensures sink.points == old(sink.points) + (if r.Ok? then [Point(measurement, tags, fields)] else [])
  {
    var ok := sink.WritePoints(Point(measurement, tags, fields));
    if ok {
      r := Ok(());
    } else {
      r := Err(WriteError);
    }
  }
}
