/**
 * The temperature/humidity route. The untyped iteration guards it with the
 * hand-written `validateDHT`; the typed iteration with the declarative
 * `dhtSchema` through `validateRequest`. Behind the guard both run the same
 * handler: extract the sensor id, write the temperature point and then the
 * humidity point (each only when the value is defined), and echo the values.
 */
module DhtRoute {
  import opened Wrappers
  import opened JsString
  import opened JsValue
  import opened Http
  import opened Influx
  import opened Measurements
  import opened Helpers
  import opened Schemas
  import opened ValidateRequest
  import opened Handlers

  const MEASUREMENT_REQUIRED := "temperature or humidity is required"
  const TEMPERATURE_NOT_NUMBER := "temperature must be a number"
  const HUMIDITY_NOT_NUMBER := "humidity must be a number"

  /** What `validateDHT` lets through. */
  predicate DhtBodyAccepted(body: Body)
  {
    var tags := Field(body, "tags");
    var temperature := Field(body, TEMPERATURE);
    var humidity := Field(body, HUMIDITY);
    && tags.Arr? && |tags.elems| > 0
    && !(temperature.Undef? && humidity.Undef?)
    && (temperature.Undef? || temperature.Num?)
    && (humidity.Undef? || humidity.Num?)
  }

  /** `validateDHT`: an ordered chain of checks; the first failure answers 400
      with its fixed message, and only a body passing them all reaches the
      handler. */
  function ValidateDht(body: Body): (r: Response)
    ensures r.Next? <==> DhtBodyAccepted(body)
    ensures !r.Next? ==> r.SendError? && r.status == 400
  {
    var tags := Field(body, "tags");
    var temperature := Field(body, TEMPERATURE);
    var humidity := Field(body, HUMIDITY);
    if !tags.Arr? || |tags.elems| == 0 then SendError(400, TAGS_NON_EMPTY)
    else if temperature.Undef? && humidity.Undef? then SendError(400, MEASUREMENT_REQUIRED)
    else if !temperature.Undef? && !IsNumber(temperature) then SendError(400, TEMPERATURE_NOT_NUMBER)
    else if !humidity.Undef? && !IsNumber(humidity) then SendError(400, HUMIDITY_NOT_NUMBER)
    else Next
  }

  /** Which message wins: the tags check comes first, then the presence
      check, then temperature before humidity. */
  lemma ValidateDhtPrecedence(body: Body)
    ensures var tags := Field(body, "tags");
      !tags.Arr? || tags.elems == [] ==> ValidateDht(body) == SendError(400, TAGS_NON_EMPTY)
    ensures var tags := Field(body, "tags");
      tags.Arr? && tags.elems != [] && Field(body, TEMPERATURE).Undef? && Field(body, HUMIDITY).Undef? ==>
      ValidateDht(body) == SendError(400, MEASUREMENT_REQUIRED)
    ensures var tags := Field(body, "tags"); var t := Field(body, TEMPERATURE);
      tags.Arr? && tags.elems != [] && !t.Undef? && !t.Num? ==>
      ValidateDht(body) == SendError(400, TEMPERATURE_NOT_NUMBER)
    ensures var tags := Field(body, "tags"); var t := Field(body, TEMPERATURE); var h := Field(body, HUMIDITY);
      tags.Arr? && tags.elems != [] && (t.Undef? || t.Num?) && !h.Undef? && !h.Num? ==>
      ValidateDht(body) == SendError(400, HUMIDITY_NOT_NUMBER)
  {
  }

  /** The points the handler writes, in order: temperature, then humidity,
      each only when defined, each tagged with the sensor id alone. */
  function DhtPoints(body: Body, sensorId: string): (plan: seq<Point>)
    ensures |plan| == (if Field(body, TEMPERATURE).Undef? then 0 else 1) + (if Field(body, HUMIDITY).Undef? then 0 else 1)
    ensures forall k :: 0 <= k < |plan| ==> plan[k].tags == map[SENSOR_ID := Str(sensorId)]
    ensures !Field(body, TEMPERATURE).Undef? ==>
      plan[0] == Point(TEMPERATURE, map[SENSOR_ID := Str(sensorId)], Obj(map[TEMPERATURE := Field(body, TEMPERATURE)]))
    ensures !Field(body, HUMIDITY).Undef? ==>
      plan[|plan| - 1] == Point(HUMIDITY, map[SENSOR_ID := Str(sensorId)], Obj(map[HUMIDITY := Field(body, HUMIDITY)]))
  {
    var tags := map[SENSOR_ID := Str(sensorId)];
    var temperature := Field(body, TEMPERATURE);
    var humidity := Field(body, HUMIDITY);
    (if temperature.Undef? then [] else [Point(TEMPERATURE, tags, Obj(map[TEMPERATURE := temperature]))])
    + (if humidity.Undef? then [] else [Point(HUMIDITY, tags, Obj(map[HUMIDITY := humidity]))])
  }

  /** The success body `{ temperature, humidity, sensor_id }`. */
  function DhtEcho(body: Body, sensorId: string): (echo: Body)
    ensures echo.Keys == {TEMPERATURE, HUMIDITY, SENSOR_ID}
    ensures echo[TEMPERATURE] == Field(body, TEMPERATURE) && echo[HUMIDITY] == Field(body, HUMIDITY)
    ensures echo[SENSOR_ID] == Str(sensorId)
  {
    map[TEMPERATURE := Field(body, TEMPERATURE), HUMIDITY := Field(body, HUMIDITY), SENSOR_ID := Str(sensorId)]
  }

  /** What the route handler does once the guard has passed: a failed
      extraction answers 500 before any write; otherwise the planned points
      are written in order and the first failure answers 500. */
  function DhtRun(variant: Variant, body: Body, failing: set<nat>, start: nat): (r: Run)
    ensures r.resp.SendJson? || r.resp == SendError(500, STORE_FAILED)
    ensures ExtractSensorTag(variant, Field(body, "tags")).Err? ==> r == NoWrites(SendError(500, STORE_FAILED))
    ensures ExtractSensorTag(variant, Field(body, "tags")).Ok? ==>
      var id := ExtractSensorTag(variant, Field(body, "tags")).value;
      && r.written <= DhtPoints(body, id)
      && (r.resp.SendJson? <==> r.written == DhtPoints(body, id))
      && (r.resp.SendJson? ==> r.resp.body == DhtEcho(body, id))
  {
    match ExtractSensorTag(variant, Field(body, "tags"))
    case Err(_) => NoWrites(SendError(500, STORE_FAILED))
    case Ok(id) => SequentialRun(DhtPoints(body, id), failing, start, SendJson(DhtEcho(body, id)))
  }

  /** Once the id is extracted, the points stored are the leading run of
      planned points whose attempts succeed; on a sink that fails none of
      the attempts, every point is stored and the echo is sent. */
  lemma DhtRunStoresCommitted(variant: Variant, body: Body, failing: set<nat>, start: nat, id: string)
    requires ExtractSensorTag(variant, Field(body, "tags")) == Ok(id)
    ensures DhtRun(variant, body, failing, start).written == DhtPoints(body, id)[..Committed(start, failing, DhtPoints(body, id))]
    ensures (forall a :: start <= a < start + |DhtPoints(body, id)| ==> a !in failing) ==>
      DhtRun(variant, body, failing, start) == Run(DhtPoints(body, id), |DhtPoints(body, id)|, SendJson(DhtEcho(body, id)))
  {
    SequentialRunExtremes(DhtPoints(body, id), failing, start, SendJson(DhtEcho(body, id)));
  }

  /** The POST handler shared by both iterations (`variant` picks the helpers
      it was built against). */
  method DhtHandler(sink: Sink, body: Body, variant: Variant) returns (resp: Response)
    modifies sink
    ensures var run := DhtRun(variant, body, sink.failing, old(sink.attempts));
      && sink.points == old(sink.points) + run.written
      && sink.attempts == old(sink.attempts) + run.attempts
      && resp == run.resp
  {
    var tags := Field(body, "tags");
    var temperature := Field(body, TEMPERATURE);
    var humidity := Field(body, HUMIDITY);
    var extracted := ExtractSensorTag(variant, tags);
    if extracted.Err? {
      return SendError(500, STORE_FAILED);
    }
    var sensorId := extracted.value;
    ghost var plan := DhtPoints(body, sensorId);
    ghost var start := sink.attempts;
    ghost var success := SendJson(DhtEcho(body, sensorId));
    assert DhtRun(variant, body, sink.failing, start) == SequentialRun(plan, sink.failing, start, success);
    var pointTags := map[SENSOR_ID := Str(sensorId)];
    if !temperature.Undef? {
      var written := WriteToInflux(sink, TEMPERATURE, pointTags, Obj(map[TEMPERATURE := temperature]));
      if written.Err? {
        assert Committed(start, sink.failing, plan) == 0;
        assert plan[..0] == [];
        return SendError(500, STORE_FAILED);
      }
    }
    if !humidity.Undef? {
      var written := WriteToInflux(sink, HUMIDITY, pointTags, Obj(map[HUMIDITY := humidity]));
      if written.Err? {
        assert Committed(start, sink.failing, plan) == |plan| - 1;
        assert sink.points == old(sink.points) + plan[..|plan| - 1];
        return SendError(500, STORE_FAILED);
      }
    }
    assert Committed(start, sink.failing, plan) == |plan|;
    assert sink.points == old(sink.points) + plan[..|plan|];
    resp := SendJson(DhtEcho(body, sensorId));
  }

  // ---------------------------------------------------------------------------
  // The two endpoints: guard, then handler.

  /** `POST /dht` of the untyped iteration: `validateDHT`, then the handler
      with the untyped helpers. */
  function PostDhtUntypedRun(body: Body, failing: set<nat>, start: nat): (r: Run)
    ensures !DhtBodyAccepted(body) ==> r == NoWrites(ValidateDht(body))
    ensures DhtBodyAccepted(body) ==> r == DhtRun(Untyped, body, failing, start)
  {
    var guard := ValidateDht(body);
    if guard.Next? then DhtRun(Untyped, body, failing, start) else NoWrites(guard)
  }

  /** `POST /dht` of the typed iteration: `validateRequest(dhtSchema)`, then
      the handler with the typed helpers on the original body. */
  function PostDhtTypedRun(body: Body, failing: set<nat>, start: nat): (r: Run)
    ensures DhtSchema(body).Invalid? ==> r == NoWrites(SendError(400, DhtSchema(body).message))
    ensures DhtSchema(body).Valid? ==> r == DhtRun(Typed, body, failing, start)
  {
    var guard := ValidateRequestTs(ParseAsync(DhtSchema(body)));
    if guard.Next? then DhtRun(Typed, body, failing, start) else NoWrites(guard)
  }

  method PostDhtUntyped(sink: Sink, body: Body) returns (resp: Response)
    modifies sink
    ensures var run := PostDhtUntypedRun(body, sink.failing, old(sink.attempts));
      sink.points == old(sink.points) + run.written && sink.attempts == old(sink.attempts) + run.attempts && resp == run.resp
  {
    resp := ValidateDht(body);
    if resp.Next? {
      resp := DhtHandler(sink, body, Untyped);
    }
  }

  method PostDhtTyped(sink: Sink, body: Body) returns (resp: Response)
    modifies sink
    ensures var run := PostDhtTypedRun(body, sink.failing, old(sink.attempts));
      sink.points == old(sink.points) + run.written && sink.attempts == old(sink.attempts) + run.attempts && resp == run.resp
  {
    resp := ValidateRequestTs(ParseAsync(DhtSchema(body)));
    if resp.Next? {
      resp := DhtHandler(sink, body, Typed);
    }
  }

  // ---------------------------------------------------------------------------
  // Properties of the endpoints.

  /** A body the schema accepts is also accepted by `validateDHT`; the
      converse fails (see `DhtNonSensorTagVariants`). */
  lemma DhtSchemaImpliesGuard(body: Body)
    requires DhtSchema(body).Valid?
    ensures DhtBodyAccepted(body)
    ensures ValidateDht(body) == Next
  {
  }

  /** A body the schema rejects answers 400 with the first issue's message and
      never reaches extraction or the sink. */
  lemma DhtTypedRejectsBeforeWrites(body: Body, failing: set<nat>, start: nat)
    requires DhtSchema(body).Invalid?
    ensures PostDhtTypedRun(body, failing, start).written == []
    ensures PostDhtTypedRun(body, failing, start).attempts == 0
    ensures PostDhtTypedRun(body, failing, start).resp == SendError(400, DhtSchema(body).message)
  {
  }

  /** Behind the schema, extraction can only fail on an empty id: the schema
      guarantees a string array with a `sensor:` entry. */
  lemma {:induction false} DhtSchemaLeavesOnlyEmptyId(body: Body)
    requires DhtSchema(body).Valid?
    ensures var e := ExtractSensorTagTs(Field(body, "tags"));
      e.Ok? || e == Err(INVALID_SENSOR_TAG)
  {
    var tags := Field(body, "tags");
    var i :| 0 <= i < |tags.elems| && IsSensorTag(tags.elems[i]);
    assert FindSensorTag(tags.elems, 0).Some?;
  }

  /** Both measurements present, the first write succeeds and the second
      fails: the temperature point stays written, no humidity point is
      stored, and the answer is 500. */
  lemma DhtSecondWriteFails(variant: Variant, body: Body, failing: set<nat>, start: nat, id: string)
    requires ExtractSensorTag(variant, Field(body, "tags")) == Ok(id)
    requires !Field(body, TEMPERATURE).Undef? && !Field(body, HUMIDITY).Undef?
    requires start !in failing && start + 1 in failing
    ensures var run := DhtRun(variant, body, failing, start);
      && run.written == [Point(TEMPERATURE, map[SENSOR_ID := Str(id)], Obj(map[TEMPERATURE := Field(body, TEMPERATURE)]))]
      && run.attempts == 2
      && run.resp == SendError(500, STORE_FAILED)
  {
    var plan := DhtPoints(body, id);
    assert Committed(start, failing, plan) == 1;
  }

  /** `{tags: ['sensor:<id>'], temperature: t, humidity: h}` with a working
      sink: both points written, temperature first, and the values echoed with
      the id, in both iterations. */
  lemma DhtAcceptsSensorBody(variant: Variant, body: Body, id: string, t: int, h: int, failing: set<nat>, start: nat)
    requires id != "" && ':' !in id
    requires body == map["tags" := Arr([Str("sensor:" + id)]), TEMPERATURE := Num(t), HUMIDITY := Num(h)]
    requires start !in failing && start + 1 !in failing
    ensures var run := if variant.Typed? then PostDhtTypedRun(body, failing, start) else PostDhtUntypedRun(body, failing, start);
      && run.written == [Point(TEMPERATURE, map[SENSOR_ID := Str(id)], Obj(map[TEMPERATURE := Num(t)])),
                         Point(HUMIDITY, map[SENSOR_ID := Str(id)], Obj(map[HUMIDITY := Num(h)]))]
      && run.attempts == 2
      && run.resp == SendJson(map[TEMPERATURE := Num(t), HUMIDITY := Num(h), SENSOR_ID := Str(id)])
  {
    var tags := [Str("sensor:" + id)];
    ExtractFirstSensorTag([], id, []);
    assert [] + tags + [] == tags;
    assert Field(body, "tags") == Arr(tags);
    SensorIdOfSimpleTag(id);
    assert TagsSchema(Arr(tags)).Valid? by { assert IsSensorTag(tags[0]); }
    var plan := DhtPoints(body, id);
    assert Committed(start, failing, plan) == 2;
  }

  /** A single tag without the `sensor:` prefix is refused by the schema with
      its fixed message, while `validateDHT` lets it through and extraction
      then throws inside the handler's `try`: 500, nothing written. */
  lemma DhtNonSensorTagVariants(body: Body, tag: string, t: int, failing: set<nat>, start: nat)
    requires !StartsWith(tag, "sensor:")
    requires body == map["tags" := Arr([Str(tag)]), TEMPERATURE := Num(t)]
    ensures PostDhtTypedRun(body, failing, start) == NoWrites(SendError(400, TAGS_SENSOR_REQUIRED))
    ensures PostDhtUntypedRun(body, failing, start) == NoWrites(SendError(500, STORE_FAILED))
  {
    assert Field(body, "tags") == Arr([Str(tag)]);
    assert TagsSchema(Field(body, "tags")) == Invalid(TAGS_SENSOR_REQUIRED);
  }

  /** A list holding one well-formed sensor tag passes the schema; the typed
      extractor refuses it only when the id is empty, the untyped one never. */
  lemma SingleSensorTagList(id: string)
    requires ':' !in id
    ensures TagsSchema(Arr([Str("sensor:" + id)])).Valid?
    ensures ExtractSensorTagTs(Arr([Str("sensor:" + id)])) == if id == "" then Err(INVALID_SENSOR_TAG) else Ok(id)
    ensures ExtractSensorTagJs(Arr([Str("sensor:" + id)])) == Ok(id)
  {
    var tags := [Str("sensor:" + id)];
    SensorIdOfSimpleTag(id);
    assert IsSensorTag(tags[0]);
    ExtractFirstSensorTag([], id, []);
    assert [] + tags + [] == tags;
  }

  /** The tag list `['sensor:']`: a valid schema value whose id is empty. */
  lemma EmptyIdTagList(tags: Json)
    requires tags == Arr([Str("sensor:")])
    ensures TagsSchema(tags).Valid?
    ensures ExtractSensorTagTs(tags) == Err(INVALID_SENSOR_TAG)
    ensures ExtractSensorTagJs(tags) == Ok("")
  {
    SingleSensorTagList("");
    assert "sensor:" + "" == "sensor:";
  }

  /** `tags: ['sensor:']` passes both guards; the typed extractor then throws,
      giving 500 before any write, while the untyped one yields the empty id,
      which is written and echoed. */
  lemma DhtEmptySensorIdVariants(body: Body, t: int, failing: set<nat>, start: nat)
    requires body == map["tags" := Arr([Str("sensor:")]), TEMPERATURE := Num(t)]
    requires start !in failing
    ensures PostDhtTypedRun(body, failing, start) == NoWrites(SendError(500, STORE_FAILED))
    ensures PostDhtUntypedRun(body, failing, start).written
      == [Point(TEMPERATURE, map[SENSOR_ID := Str("")], Obj(map[TEMPERATURE := Num(t)]))]
    ensures PostDhtUntypedRun(body, failing, start).resp
      == SendJson(map[TEMPERATURE := Num(t), HUMIDITY := Undef, SENSOR_ID := Str("")])
  {
    assert Field(body, "tags") == Arr([Str("sensor:")]);
    EmptyIdTagList(Field(body, "tags"));
    var plan := DhtPoints(body, "");
    assert Committed(start, failing, plan) == 1;
  }
}
