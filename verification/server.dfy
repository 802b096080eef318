/**
 * The legacy `/environment` endpoint of the first iteration. It scans every
 * tag, keeping the value after the colon of the last tag whose name is
 * exactly `sensor`; refuses a missing `tags` key or an empty id with a bare
 * 400; then issues a write per measurement key that is present, without
 * waiting for any of them, and answers 200 with the echo straight away.
 */
module LegacyServer {
  import opened Wrappers
  import opened JsString
  import opened JsValue
  import opened Http
  import opened Influx
  import opened Measurements
  import Helpers

  /** `const [tagName] = tag.split(':'); tagName === 'sensor'`. */
  predicate NamesSensor(t: Json)
  {
    t.Str? && Split(t.s, ':')[0] == "sensor"
  }

  /** `tagValue`: element 1 of the colon split, `undefined` without a colon. */
  function SensorValue(tag: string): Json
  {
    At(Split(tag, ':'), 1)
  }

  /** One step of the `forEach`: a tag named `sensor` overwrites `sensorTag`. */
  function ScanStep(sensorTag: Json, tag: string): Json
  {
    if Split(tag, ':')[0] == "sensor" then SensorValue(tag) else sensorTag
  }

  /** The `forEach` from index `from` on with `sensorTag` holding `acc`;
      `split` on an entry that is not a string throws. */
  function ScanFrom(tags: seq<Json>, from: nat, acc: Json): Result<Json, Thrown>
    requires from <= |tags|
    decreases |tags| - from
  {
    if from == |tags| then Ok(acc)
    else if !tags[from].Str? then Err(TypeError)
    else ScanFrom(tags, from + 1, ScanStep(acc, tags[from].s))
  }

  /** The whole scan, starting from `sensorTag = ''`: it throws a type error
      exactly when some entry is not a string. */
  function SensorScan(tags: seq<Json>): (r: Result<Json, Thrown>)
    ensures r.Err? <==> exists j :: 0 <= j < |tags| && !tags[j].Str?
    ensures r.Err? ==> r.error == TypeError
  {
    ScanFromFails(tags, 0, Str(""));
    ScanFrom(tags, 0, Str(""))
  }

  /** Entry `i` is the last entry named `sensor`. */
  predicate LastSensorAt(tags: seq<Json>, i: int)
  {
    0 <= i < |tags| && NamesSensor(tags[i]) && forall j :: i < j < |tags| ==> !NamesSensor(tags[j])
  }

  /** The scan from `from` fails exactly when a non-string lies ahead, and
      then with a type error. */
  lemma {:induction false} ScanFromFails(tags: seq<Json>, from: nat, acc: Json)
    requires from <= |tags|
    ensures ScanFrom(tags, from, acc).Err? <==> exists j :: from <= j < |tags| && !tags[j].Str?
    ensures ScanFrom(tags, from, acc).Err? ==> ScanFrom(tags, from, acc).error == TypeError
    decreases |tags| - from
  {
    if from < |tags| && tags[from].Str? {
      ScanFromFails(tags, from + 1, ScanStep(acc, tags[from].s));
    }
  }

  /** Over strings none of which is named `sensor`, the scan keeps what it
      started with. */
  lemma {:induction false} ScanFromKeeps(tags: seq<Json>, from: nat, acc: Json)
    requires from <= |tags|
    requires forall j :: from <= j < |tags| ==> tags[j].Str? && !NamesSensor(tags[j])
    ensures ScanFrom(tags, from, acc) == Ok(acc)
    decreases |tags| - from
  {
    if from < |tags| {
      ScanFromKeeps(tags, from + 1, acc);
    }
  }

  /** Over strings, the scan ends with the value of the last entry named
      `sensor`. */
  lemma {:induction false} ScanFromLast(tags: seq<Json>, from: nat, acc: Json, i: nat)
    requires from <= i && LastSensorAt(tags, i)
    requires forall j :: from <= j < |tags| ==> tags[j].Str?
    ensures ScanFrom(tags, from, acc) == Ok(SensorValue(tags[i].s))
    decreases |tags| - from
  {
    var acc' := ScanStep(acc, tags[from].s);
    if from == i {
      ScanFromKeeps(tags, from + 1, acc');
    } else {
      ScanFromLast(tags, from + 1, acc', i);
    }
  }

  /** The scan of the whole list: a non-string anywhere throws; otherwise the
      last entry named `sensor` wins, later matches overriding earlier ones,
      and with no such entry the id stays `''`. */
  lemma SensorScanSpec(tags: seq<Json>)
    ensures SensorScan(tags).Err? <==> exists j :: 0 <= j < |tags| && !tags[j].Str?
    ensures SensorScan(tags).Err? ==> SensorScan(tags).error == TypeError
    ensures (forall j :: 0 <= j < |tags| ==> tags[j].Str?) ==>
      forall i :: LastSensorAt(tags, i) ==> SensorScan(tags) == Ok(SensorValue(tags[i].s))
    ensures (forall j :: 0 <= j < |tags| ==> tags[j].Str? && !NamesSensor(tags[j])) ==>
      SensorScan(tags) == Ok(Str(""))
  {
    ScanFromFails(tags, 0, Str(""));
    if forall j :: 0 <= j < |tags| ==> tags[j].Str? {
      forall i | LastSensorAt(tags, i) ensures SensorScan(tags) == Ok(SensorValue(tags[i].s)) {
        ScanFromLast(tags, 0, Str(""), i);
      }
    }
    if forall j :: 0 <= j < |tags| ==> tags[j].Str? && !NamesSensor(tags[j]) {
      ScanFromKeeps(tags, 0, Str(""));
    }
  }

  /** The `forEach` over the tags. */
  method ScanSensorTag(tags: seq<Json>) returns (r: Result<Json, Thrown>)
    ensures r == SensorScan(tags)
  {
    var sensorTag := Str("");
    var i := 0;
    while i < |tags|
      invariant 0 <= i <= |tags|
      invariant ScanFrom(tags, i, sensorTag) == SensorScan(tags)
    {
      var tag := tags[i];
      if !tag.Str? {
        return Err(TypeError);
      }
      var parts := Split(tag.s, ':');
      if parts[0] == "sensor" {
        sensorTag := At(parts, 1);
      }
      i := i + 1;
    }
    return Ok(sensorTag);
  }

  /** A tag is named `sensor` exactly when it is `sensor` itself or starts
      with `sensor:`. */
  lemma NamesSensorIffPrefix(t: string)
    ensures NamesSensor(Str(t)) <==> t == "sensor" || StartsWith(t, "sensor:")
  {
    if t == "sensor" {
      SplitWithoutSep(t, ':');
    } else if StartsWith(t, "sensor:") {
      assert t == "sensor" + [':'] + t[7..];
      SplitAfterFirst("sensor", ':', t[7..]);
    }
  }

  /** `sensor:<id>` with a colon-free `id` carries `id`. */
  lemma SensorValueOfTag(id: string)
    requires ':' !in id
    ensures NamesSensor(Str("sensor:" + id)) && SensorValue("sensor:" + id) == Str(id)
  {
    assert "sensor:" + id == "sensor" + [':'] + id;
    SplitAfterFirst("sensor", ':', id);
    SplitWithoutSep(id, ':');
  }

  /** A bare `sensor` names the sensor but carries `undefined`. */
  lemma BareSensorValue()
    ensures NamesSensor(Str("sensor")) && SensorValue("sensor") == Undef
  {
    SplitWithoutSep("sensor", ':');
  }

  // ---------------------------------------------------------------------------
  // The handler.

  /** The writes issued, in order: temperature when the key is present, then
      humidity when that key is present; the values go out unchecked. */
  function EnvPoints(body: Body, sensorTag: Json): (plan: seq<Point>)
    ensures |plan| == (if TEMPERATURE in body then 1 else 0) + (if HUMIDITY in body then 1 else 0)
    ensures forall k :: 0 <= k < |plan| ==> plan[k].tags == map[SENSOR_ID := sensorTag]
    ensures TEMPERATURE in body ==>
      plan[0] == Point(TEMPERATURE, map[SENSOR_ID := sensorTag], Obj(map[TEMPERATURE := body[TEMPERATURE]]))
    ensures HUMIDITY in body ==>
      plan[|plan| - 1] == Point(HUMIDITY, map[SENSOR_ID := sensorTag], Obj(map[HUMIDITY := body[HUMIDITY]]))
  {
    var tags := map[SENSOR_ID := sensorTag];
    (if TEMPERATURE in body then [Point(TEMPERATURE, tags, Obj(map[TEMPERATURE := body[TEMPERATURE]]))] else [])
    + (if HUMIDITY in body then [Point(HUMIDITY, tags, Obj(map[HUMIDITY := body[HUMIDITY]]))] else [])
  }

  /** The 200 body `{ temperature, humidity, sensor_id }`. */
  function EnvEcho(body: Body, sensorTag: Json): (echo: Body)
    ensures echo.Keys == {TEMPERATURE, HUMIDITY, SENSOR_ID}
    ensures echo[TEMPERATURE] == Field(body, TEMPERATURE) && echo[HUMIDITY] == Field(body, HUMIDITY)
    ensures echo[SENSOR_ID] == sensorTag
  {
    map[TEMPERATURE := Field(body, TEMPERATURE), HUMIDITY := Field(body, HUMIDITY), SENSOR_ID := sensorTag]
  }

  /** The request as a value: the points that end up stored, the writes
      issued, and the response. */
  datatype EnvRun = EnvRun(written: seq<Point>, attempts: nat, resp: Response)

  /** `POST /environment`. A `tags` value without `forEach` or a non-string
      entry throws before anything is sent. The writes are issued without
      being awaited, so each stands on its own and the 200 goes out
      whatever becomes of them. */
  function EnvironmentRun(body: Body, failing: set<nat>, start: nat): (r: EnvRun)
    ensures "tags" !in body ==> r == EnvRun([], 0, SendStatus(400))
    ensures r.resp.Escaped? <==>
      "tags" in body && (!body["tags"].Arr? || exists j :: 0 <= j < |body["tags"].elems| && !body["tags"].elems[j].Str?)
    ensures r.resp.SendJson? || r.resp.Escaped? || r.resp == SendStatus(400)
    ensures !r.resp.SendJson? ==> r.written == [] && r.attempts == 0
    ensures r.resp.SendJson? ==>
      && SENSOR_ID in r.resp.body
      && var sensorTag := r.resp.body[SENSOR_ID];
      && sensorTag != Str("")
      && r.resp.body == EnvEcho(body, sensorTag)
      && r.attempts == |EnvPoints(body, sensorTag)|
      && r.written == Landed(start, failing, EnvPoints(body, sensorTag))
    ensures "tags" in body && body["tags"].Arr? && SensorScan(body["tags"].elems).Ok? ==>
      && (r.resp == SendStatus(400) <==> SensorScan(body["tags"].elems).value == Str(""))
      && (r.resp.SendJson? ==> r.resp.body[SENSOR_ID] == SensorScan(body["tags"].elems).value)
  {
    if "tags" !in body then EnvRun([], 0, SendStatus(400))
    else
      var tags := body["tags"];
      if !tags.Arr? then EnvRun([], 0, Escaped)
      else
        SensorScanSpec(tags.elems);
        match SensorScan(tags.elems)
        case Err(_) => EnvRun([], 0, Escaped)
        case Ok(sensorTag) =>
          if sensorTag == Str("") then EnvRun([], 0, SendStatus(400))
          else
            var plan := EnvPoints(body, sensorTag);
            EnvRun(Landed(start, failing, plan), |plan|, SendJson(EnvEcho(body, sensorTag)))
  }

  method Environment(sink: Sink, body: Body) returns (resp: Response)
    modifies sink
    ensures var run := EnvironmentRun(body, sink.failing, old(sink.attempts));
      && sink.points == old(sink.points) + run.written
      && sink.attempts == old(sink.attempts) + run.attempts
      && resp == run.resp
  {
    if "tags" !in body {
      return SendStatus(400);
    }
    var tags := body["tags"];
    if !tags.Arr? {
      return Escaped;
    }
    var scanned := ScanSensorTag(tags.elems);
    if scanned.Err? {
      return Escaped;
    }
    var sensorTag := scanned.value;
    if sensorTag == Str("") {
      return SendStatus(400);
    }
    IssueWrites(sink, body, sensorTag);
    resp := SendJson(EnvEcho(body, sensorTag));
  }

  /** The two unawaited writes: each is issued when its key is present, and
      each stores its point unless that attempt fails. */
  method IssueWrites(sink: Sink, body: Body, sensorTag: Json)
    modifies sink
    ensures sink.points == old(sink.points) + Landed(old(sink.attempts), sink.failing, EnvPoints(body, sensorTag))
    ensures sink.attempts == old(sink.attempts) + |EnvPoints(body, sensorTag)|
  {
    ghost var plan := EnvPoints(body, sensorTag);
    ghost var start := sink.attempts;
    var pointTags := map[SENSOR_ID := sensorTag];
    if TEMPERATURE in body {
      var _ := sink.WritePoints(Point(TEMPERATURE, pointTags, Obj(map[TEMPERATURE := body[TEMPERATURE]])));
      assert plan[..1][..0] == [];
    }
    ghost var issued := sink.attempts - start;
    assert sink.points == old(sink.points) + Landed(start, sink.failing, plan[..issued]);
    if HUMIDITY in body {
      var _ := sink.WritePoints(Point(HUMIDITY, pointTags, Obj(map[HUMIDITY := body[HUMIDITY]])));
      assert plan[..issued + 1][..issued] == plan[..issued];
    }
    assert plan[..|plan|] == plan;
  }

  // ---------------------------------------------------------------------------
  // Properties of the endpoint.

  /** The response and the writes issued do not depend on how the writes
      fare: the 200 is sent without waiting for them. */
  lemma EnvironmentIgnoresWriteOutcome(body: Body, failing: set<nat>, start: nat, failing': set<nat>, start': nat)
    ensures EnvironmentRun(body, failing, start).resp == EnvironmentRun(body, failing', start').resp
    ensures EnvironmentRun(body, failing, start).attempts == EnvironmentRun(body, failing', start').attempts
  {
  }

  /** A single `sensor:<id>` tag yields `id`. */
  lemma SingleSensorTagScan(id: string)
    requires ':' !in id
    ensures SensorScan([Str("sensor:" + id)]) == Ok(Str(id))
  {
    SensorValueOfTag(id);
    assert LastSensorAt([Str("sensor:" + id)], 0);
    ScanFromLast([Str("sensor:" + id)], 0, Str(""), 0);
  }

  /** A failed write loses only its own point: the other one is still stored
      and the answer is still 200. */
  lemma EnvironmentFirstWriteFails(body: Body, failing: set<nat>, start: nat, id: string)
    requires ':' !in id && id != ""
    requires "tags" in body && body["tags"] == Arr([Str("sensor:" + id)])
    requires TEMPERATURE in body && HUMIDITY in body
    requires start in failing && start + 1 !in failing
    ensures EnvironmentRun(body, failing, start) == EnvRun(
      [Point(HUMIDITY, map[SENSOR_ID := Str(id)], Obj(map[HUMIDITY := body[HUMIDITY]]))],
      2,
      SendJson(EnvEcho(body, Str(id))))
  {
    SingleSensorTagScan(id);
    assert Str(id) != Str("");
    var plan := EnvPoints(body, Str(id));
    assert plan[1..][1..] == [];
    assert Landed(start, failing, plan) == [plan[1]];
  }

  /** A lone bare `sensor` tag scans to `undefined`. */
  lemma BareSensorTagScan()
    ensures SensorScan([Str("sensor")]) == Ok(Undef)
  {
    BareSensorValue();
    assert LastSensorAt([Str("sensor")], 0);
    ScanFromLast([Str("sensor")], 0, Str(""), 0);
  }

  /** A bare `sensor` tag makes the id `undefined`, which is not `''`: the
      check lets it through and the writes go out tagged with `undefined`. */
  lemma BareSensorTagPasses(body: Body, failing: set<nat>, start: nat)
    requires "tags" in body && body["tags"] == Arr([Str("sensor")])
    ensures EnvironmentRun(body, failing, start).resp == SendJson(EnvEcho(body, Undef))
    ensures EnvironmentRun(body, failing, start).attempts == |EnvPoints(body, Undef)|
  {
    BareSensorTagScan();
    assert Undef != Str("");
  }

  /** With no tag named `sensor`, or with `sensor:` last, the id is `''` and
      the answer is a bare 400 with nothing written. */
  lemma EmptySensorIdRefused(body: Body, failing: set<nat>, start: nat, pre: seq<Json>)
    requires forall j :: 0 <= j < |pre| ==> pre[j].Str?
    requires "tags" in body && (body["tags"] == Arr(pre) || body["tags"] == Arr(pre + [Str("sensor:")]))
    requires body["tags"] == Arr(pre) ==> forall j :: 0 <= j < |pre| ==> !NamesSensor(pre[j])
    ensures EnvironmentRun(body, failing, start) == EnvRun([], 0, SendStatus(400))
  {
    var tags := body["tags"].elems;
    SensorScanSpec(tags);
    if tags != pre {
      SensorValueOfTag("");
      assert "sensor:" + "" == "sensor:";
      assert LastSensorAt(tags, |pre|);
    }
  }

  /** Of two well-formed sensor tags the legacy scan keeps the value of the
      second. */
  lemma ScanKeepsSecondOfTwo(a: string, b: string)
    requires ':' !in a && ':' !in b
    ensures SensorScan([Str("sensor:" + a), Str("sensor:" + b)]) == Ok(Str(b))
  {
    var tags := [Str("sensor:" + a), Str("sensor:" + b)];
    SensorValueOfTag(b);
    assert LastSensorAt(tags, 1);
    ScanFromLast(tags, 0, Str(""), 1);
  }

  /** The legacy scan and the newer extractors disagree when two sensor tags
      are sent: the scan keeps the last, the extractors take the first. */
  lemma LastWinsOverFirst(a: string, b: string)
    requires ':' !in a && ':' !in b
    ensures SensorScan([Str("sensor:" + a), Str("sensor:" + b)]) == Ok(Str(b))
    ensures Helpers.ExtractSensorTagJs(Arr([Str("sensor:" + a), Str("sensor:" + b)])) == Ok(a)
  {
    var tags := [Str("sensor:" + a), Str("sensor:" + b)];
    Helpers.ExtractFirstSensorTag([], a, [Str("sensor:" + b)]);
    assert [] + [Str("sensor:" + a)] + [Str("sensor:" + b)] == tags;
    ScanKeepsSecondOfTwo(a, b);
  }
}
