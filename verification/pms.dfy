/**
 * The particulate-matter route. The untyped iteration guards it with the
 * hand-written `validatePMS`, which walks a fixed list of size fields per
 * group; the typed iteration with `pmsSchema` through `validateRequest`.
 * Behind the guard both run the same handler: extract the sensor id, write
 * the `pm_ug_per_m3` group and then the `pm_per_1l_air` group (each only when
 * truthy, each as the sub-object that was sent), and echo the groups.
 */
module PmsRoute {
  import opened Wrappers
  import opened JsValue
  import opened Http
  import opened Influx
  import opened Measurements
  import opened Helpers
  import opened Schemas
  import opened ValidateRequest
  import opened Handlers

  const MEASUREMENT_REQUIRED := "pm_ug_per_m3 or pm_per_1l_air is required"

  /** `<group> must be an object`. */
  function NotObjectMessage(group: string): string
  {
    group + " must be an object"
  }

  /** `<group>.<field> must be a number`. */
  function NotNumberMessage(group: string, field: string): string
  {
    group + "." + field + " must be a number"
  }

  /** Every listed field of `g` reads as a number that is not NaN. */
  predicate AllNumbers(g: Json, fields: seq<string>)
  {
    forall k :: 0 <= k < |fields| ==> Get(g, fields[k]).Num?
  }

  /** Field `k` is the first listed field of `g` that is not a number. */
  predicate FirstNonNumberAt(g: Json, fields: seq<string>, k: int)
  {
    0 <= k < |fields| && !Get(g, fields[k]).Num? && forall j :: 0 <= j < k ==> Get(g, fields[j]).Num?
  }

  /** What the field loop of `validatePMS` accepts for one truthy group:
      `isObject` (arrays included) and every listed field a number. */
  predicate GroupAccepted(g: Json, fields: seq<string>)
  {
    IsObject(g) && AllNumbers(g, fields)
  }

  /** The index at which the field loop stops: the first listed field from
      `from` on that is not a number, or the end of the list. */
  function FirstNonNumber(g: Json, fields: seq<string>, from: nat): (i: nat)
    requires from <= |fields|
    ensures from <= i <= |fields|
    ensures forall k :: from <= k < i ==> Get(g, fields[k]).Num?
    ensures i < |fields| ==> !Get(g, fields[i]).Num?
    decreases |fields| - from
  {
    if from == |fields| || !IsNumber(Get(g, fields[from])) then from else FirstNonNumber(g, fields, from + 1)
  }

  /** The checks `validatePMS` makes on one truthy group: an object first,
      then the listed fields in order, the first non-number answering 400. */
  function GroupCheck(name: string, g: Json, fields: seq<string>): (r: Response)
    ensures r.Next? <==> GroupAccepted(g, fields)
    ensures !IsObject(g) ==> r == SendError(400, NotObjectMessage(name))
    ensures forall k :: IsObject(g) && FirstNonNumberAt(g, fields, k) ==> r == SendError(400, NotNumberMessage(name, fields[k]))
  {
    if !IsObject(g) then SendError(400, NotObjectMessage(name))
    else
      var i := FirstNonNumber(g, fields, 0);
      if i == |fields| then Next else SendError(400, NotNumberMessage(name, fields[i]))
  }

  /** What `validatePMS` lets through. The two groups are checked for
      truthiness, so a falsy group (`0`, `""`, `null`, `false`) counts as
      absent. */
  predicate PmsBodyAccepted(body: Body)
  {
    var tags := Field(body, "tags");
    var ug := Field(body, PM_UG_PER_M3);
    var air := Field(body, PM_PER_1L_AIR);
    && tags.Arr? && |tags.elems| > 0
    && (Truthy(ug) || Truthy(air))
    && (Truthy(ug) ==> GroupAccepted(ug, PM_UG_PER_M3_FIELDS))
    && (Truthy(air) ==> GroupAccepted(air, PM_PER_1L_AIR_FIELDS))
  }

  /** The outcome of `validatePMS`: tags, then presence, then the
      `pm_ug_per_m3` group in full, then the `pm_per_1l_air` group. */
  function PmsGuard(body: Body): (r: Response)
    ensures r.Next? <==> PmsBodyAccepted(body)
    ensures !r.Next? ==> r.SendError? && r.status == 400
  {
    var tags := Field(body, "tags");
    var ug := Field(body, PM_UG_PER_M3);
    var air := Field(body, PM_PER_1L_AIR);
    if !tags.Arr? || |tags.elems| == 0 then SendError(400, TAGS_NON_EMPTY)
    else if !Truthy(ug) && !Truthy(air) then SendError(400, MEASUREMENT_REQUIRED)
    else if Truthy(ug) && !GroupCheck(PM_UG_PER_M3, ug, PM_UG_PER_M3_FIELDS).Next? then
      GroupCheck(PM_UG_PER_M3, ug, PM_UG_PER_M3_FIELDS)
    else if Truthy(air) then GroupCheck(PM_PER_1L_AIR, air, PM_PER_1L_AIR_FIELDS)
    else Next
  }

  /** One group's field loop of `validatePMS`. */
  method CheckGroup(name: string, g: Json, fields: seq<string>) returns (resp: Response)
    ensures resp == GroupCheck(name, g, fields)
  {
    if !IsObject(g) {
      return SendError(400, NotObjectMessage(name));
    }
    for i := 0 to |fields|
      invariant forall k :: 0 <= k < i ==> Get(g, fields[k]).Num?
    {
      if !IsNumber(Get(g, fields[i])) {
        assert FirstNonNumberAt(g, fields, i);
        return SendError(400, NotNumberMessage(name, fields[i]));
      }
    }
    return Next;
  }

  /** `validatePMS`. */
  method ValidatePms(body: Body) returns (resp: Response)
    ensures resp == PmsGuard(body)
  {
    var tags := Field(body, "tags");
    var ug := Field(body, PM_UG_PER_M3);
    var air := Field(body, PM_PER_1L_AIR);
    if !tags.Arr? || |tags.elems| == 0 {
      return SendError(400, TAGS_NON_EMPTY);
    }
    if !Truthy(ug) && !Truthy(air) {
      return SendError(400, MEASUREMENT_REQUIRED);
    }
    if Truthy(ug) {
      resp := CheckGroup(PM_UG_PER_M3, ug, PM_UG_PER_M3_FIELDS);
      if !resp.Next? {
        return;
      }
    }
    if Truthy(air) {
      resp := CheckGroup(PM_PER_1L_AIR, air, PM_PER_1L_AIR_FIELDS);
      if !resp.Next? {
        return;
      }
    }
    return Next;
  }

  /** Which message wins: tags, then presence, then the first failing check
      of `pm_ug_per_m3`; `pm_per_1l_air` is looked at only once
      `pm_ug_per_m3` is absent or fully valid. */
  lemma PmsGuardPrecedence(body: Body)
    ensures var tags := Field(body, "tags");
      !tags.Arr? || tags.elems == [] ==> PmsGuard(body) == SendError(400, TAGS_NON_EMPTY)
    ensures var tags := Field(body, "tags");
      tags.Arr? && tags.elems != [] && !Truthy(Field(body, PM_UG_PER_M3)) && !Truthy(Field(body, PM_PER_1L_AIR)) ==>
      PmsGuard(body) == SendError(400, MEASUREMENT_REQUIRED)
    ensures var tags := Field(body, "tags"); var ug := Field(body, PM_UG_PER_M3);
      tags.Arr? && tags.elems != [] && Truthy(ug) && !GroupAccepted(ug, PM_UG_PER_M3_FIELDS) ==>
      PmsGuard(body) == GroupCheck(PM_UG_PER_M3, ug, PM_UG_PER_M3_FIELDS)
    ensures var tags := Field(body, "tags"); var ug := Field(body, PM_UG_PER_M3); var air := Field(body, PM_PER_1L_AIR);
      tags.Arr? && tags.elems != [] && (Truthy(ug) ==> GroupAccepted(ug, PM_UG_PER_M3_FIELDS)) && Truthy(air) ==>
      PmsGuard(body) == GroupCheck(PM_PER_1L_AIR, air, PM_PER_1L_AIR_FIELDS)
  {
  }

  /** An array passes `isObject` but has none of the size fields, so the
      first listed field is reported. */
  lemma ArrayGroupReportsFirstField(name: string, elems: seq<Json>, fields: seq<string>)
    requires |fields| > 0
    ensures GroupCheck(name, Arr(elems), fields) == SendError(400, NotNumberMessage(name, fields[0]))
  {
    assert FirstNonNumberAt(Arr(elems), fields, 0);
  }

  /** Where the field loop stops depends only on the listed fields. */
  lemma {:induction false} FirstNonNumberListedOnly(g: Json, h: Json, fields: seq<string>, from: nat)
    requires from <= |fields|
    requires forall k :: 0 <= k < |fields| ==> Get(g, fields[k]) == Get(h, fields[k])
    ensures FirstNonNumber(g, fields, from) == FirstNonNumber(h, fields, from)
    decreases |fields| - from
  {
    if from < |fields| && IsNumber(Get(g, fields[from])) {
      FirstNonNumberListedOnly(g, h, fields, from + 1);
    }
  }

  /** Keys outside the field list are neither required nor rejected: two
      objects that agree on the listed fields get the same answer, so a group
      with extra sub-keys is treated exactly as one without them. */
  lemma GroupCheckIgnoresOtherKeys(name: string, g: map<string, Json>, h: map<string, Json>, fields: seq<string>)
    requires forall k :: 0 <= k < |fields| ==> Get(Obj(g), fields[k]) == Get(Obj(h), fields[k])
    ensures GroupCheck(name, Obj(g), fields) == GroupCheck(name, Obj(h), fields)
  {
    FirstNonNumberListedOnly(Obj(g), Obj(h), fields, 0);
  }

  /** The points the handler writes, in order: `pm_ug_per_m3`, then
      `pm_per_1l_air`, each only when truthy, each with the group as sent as
      its fields and the sensor id as its only tag. */
  function PmsPoints(body: Body, sensorId: string): (plan: seq<Point>)
    ensures |plan| == (if Truthy(Field(body, PM_UG_PER_M3)) then 1 else 0) + (if Truthy(Field(body, PM_PER_1L_AIR)) then 1 else 0)
    ensures forall k :: 0 <= k < |plan| ==> plan[k].tags == map[SENSOR_ID := Str(sensorId)]
    ensures Truthy(Field(body, PM_UG_PER_M3)) ==>
      plan[0] == Point(PM_UG_PER_M3, map[SENSOR_ID := Str(sensorId)], Field(body, PM_UG_PER_M3))
    ensures Truthy(Field(body, PM_PER_1L_AIR)) ==>
      plan[|plan| - 1] == Point(PM_PER_1L_AIR, map[SENSOR_ID := Str(sensorId)], Field(body, PM_PER_1L_AIR))
  {
    var tags := map[SENSOR_ID := Str(sensorId)];
    var ug := Field(body, PM_UG_PER_M3);
    var air := Field(body, PM_PER_1L_AIR);
    (if Truthy(ug) then [Point(PM_UG_PER_M3, tags, ug)] else [])
    + (if Truthy(air) then [Point(PM_PER_1L_AIR, tags, air)] else [])
  }

  /** The success body `{ pm_ug_per_m3, pm_per_1l_air, sensor_id }`. */
  function PmsEcho(body: Body, sensorId: string): (echo: Body)
    ensures echo.Keys == {PM_UG_PER_M3, PM_PER_1L_AIR, SENSOR_ID}
    ensures echo[PM_UG_PER_M3] == Field(body, PM_UG_PER_M3) && echo[PM_PER_1L_AIR] == Field(body, PM_PER_1L_AIR)
    ensures echo[SENSOR_ID] == Str(sensorId)
  {
    map[PM_UG_PER_M3 := Field(body, PM_UG_PER_M3), PM_PER_1L_AIR := Field(body, PM_PER_1L_AIR), SENSOR_ID := Str(sensorId)]
  }

  /** What the route handler does once the guard has passed: a failed
      extraction answers 500 before any write; otherwise the planned points
      are written in order and the first failure answers 500. */
  function PmsRun(variant: Variant, body: Body, failing: set<nat>, start: nat): (r: Run)
    ensures r.resp.SendJson? || r.resp == SendError(500, STORE_FAILED)
    ensures ExtractSensorTag(variant, Field(body, "tags")).Err? ==> r == NoWrites(SendError(500, STORE_FAILED))
    ensures ExtractSensorTag(variant, Field(body, "tags")).Ok? ==>
      var id := ExtractSensorTag(variant, Field(body, "tags")).value;
      && r.written <= PmsPoints(body, id)
      && (r.resp.SendJson? <==> r.written == PmsPoints(body, id))
      && (r.resp.SendJson? ==> r.resp.body == PmsEcho(body, id))
  {
    match ExtractSensorTag(variant, Field(body, "tags"))
    case Err(_) => NoWrites(SendError(500, STORE_FAILED))
    case Ok(id) => SequentialRun(PmsPoints(body, id), failing, start, SendJson(PmsEcho(body, id)))
  }

  /** Once the id is extracted, the points stored are the leading run of
      planned points whose attempts succeed; on a sink that fails none of
      the attempts, every point is stored and the echo is sent. */
  lemma PmsRunStoresCommitted(variant: Variant, body: Body, failing: set<nat>, start: nat, id: string)
    requires ExtractSensorTag(variant, Field(body, "tags")) == Ok(id)
    ensures PmsRun(variant, body, failing, start).written == PmsPoints(body, id)[..Committed(start, failing, PmsPoints(body, id))]
    ensures (forall a :: start <= a < start + |PmsPoints(body, id)| ==> a !in failing) ==>
      PmsRun(variant, body, failing, start) == Run(PmsPoints(body, id), |PmsPoints(body, id)|, SendJson(PmsEcho(body, id)))
  {
    SequentialRunExtremes(PmsPoints(body, id), failing, start, SendJson(PmsEcho(body, id)));
  }

  /** The POST handler shared by both iterations (`variant` picks the helpers
      it was built against). */
  method PmsHandler(sink: Sink, body: Body, variant: Variant) returns (resp: Response)
    modifies sink
    ensures var run := PmsRun(variant, body, sink.failing, old(sink.attempts));
      && sink.points == old(sink.points) + run.written
      && sink.attempts == old(sink.attempts) + run.attempts
      && resp == run.resp
  {
    var tags := Field(body, "tags");
    var ug := Field(body, PM_UG_PER_M3);
    var air := Field(body, PM_PER_1L_AIR);
    var extracted := ExtractSensorTag(variant, tags);
    if extracted.Err? {
      return SendError(500, STORE_FAILED);
    }
    var sensorId := extracted.value;
    ghost var plan := PmsPoints(body, sensorId);
    ghost var start := sink.attempts;
    ghost var success := SendJson(PmsEcho(body, sensorId));
    assert PmsRun(variant, body, sink.failing, start) == SequentialRun(plan, sink.failing, start, success);
    var pointTags := map[SENSOR_ID := Str(sensorId)];
    if Truthy(ug) {
      var written := WriteToInflux(sink, PM_UG_PER_M3, pointTags, ug);
      if written.Err? {
        assert Committed(start, sink.failing, plan) == 0;
        assert plan[..0] == [];
        return SendError(500, STORE_FAILED);
      }
    }
    if Truthy(air) {
      var written := WriteToInflux(sink, PM_PER_1L_AIR, pointTags, air);
      if written.Err? {
        assert Committed(start, sink.failing, plan) == |plan| - 1;
        assert sink.points == old(sink.points) + plan[..|plan| - 1];
        return SendError(500, STORE_FAILED);
      }
    }
    assert Committed(start, sink.failing, plan) == |plan|;
    assert sink.points == old(sink.points) + plan[..|plan|];
    resp := SendJson(PmsEcho(body, sensorId));
  }

  // ---------------------------------------------------------------------------
  // The two endpoints: guard, then handler.

  /** `POST /pms` of the untyped iteration: `validatePMS`, then the handler
      with the untyped helpers. */
  function PostPmsUntypedRun(body: Body, failing: set<nat>, start: nat): (r: Run)
    ensures !PmsBodyAccepted(body) ==> r == NoWrites(PmsGuard(body))
    ensures PmsBodyAccepted(body) ==> r == PmsRun(Untyped, body, failing, start)
  {
    var guard := PmsGuard(body);
    if guard.Next? then PmsRun(Untyped, body, failing, start) else NoWrites(guard)
  }

  /** `POST /pms` of the typed iteration: `validateRequest(pmsSchema)`, then
      the handler with the typed helpers on the original body. */
  function PostPmsTypedRun(body: Body, failing: set<nat>, start: nat): (r: Run)
    ensures PmsSchema(body).Invalid? ==> r == NoWrites(SendError(400, PmsSchema(body).message))
    ensures PmsSchema(body).Valid? ==> r == PmsRun(Typed, body, failing, start)
  {
    var guard := ValidateRequestTs(ParseAsync(PmsSchema(body)));
    if guard.Next? then PmsRun(Typed, body, failing, start) else NoWrites(guard)
  }

  method PostPmsUntyped(sink: Sink, body: Body) returns (resp: Response)
    modifies sink
    ensures var run := PostPmsUntypedRun(body, sink.failing, old(sink.attempts));
      sink.points == old(sink.points) + run.written && sink.attempts == old(sink.attempts) + run.attempts && resp == run.resp
  {
    resp := ValidatePms(body);
    if resp.Next? {
      resp := PmsHandler(sink, body, Untyped);
    }
  }

  method PostPmsTyped(sink: Sink, body: Body) returns (resp: Response)
    modifies sink
    ensures var run := PostPmsTypedRun(body, sink.failing, old(sink.attempts));
      sink.points == old(sink.points) + run.written && sink.attempts == old(sink.attempts) + run.attempts && resp == run.resp
  {
    resp := ValidateRequestTs(ParseAsync(PmsSchema(body)));
    if resp.Next? {
      resp := PmsHandler(sink, body, Typed);
    }
  }

  // ---------------------------------------------------------------------------
  // Properties of the endpoints.

  /** A body the schema accepts is also accepted by `validatePMS`; the
      converse fails (see `PmsFalsyGroupVariants`). */
  lemma PmsSchemaImpliesGuard(body: Body)
    requires PmsSchema(body).Valid?
    ensures PmsBodyAccepted(body)
  {
    var ug := Field(body, PM_UG_PER_M3);
    var air := Field(body, PM_PER_1L_AIR);
    if Truthy(ug) {
      assert forall k :: 0 <= k < 3 ==> PM_UG_PER_M3_FIELDS[k] in {"1.0um", "2.5um", "10um"};
    }
    if Truthy(air) {
      assert forall k :: 0 <= k < 6 ==> PM_PER_1L_AIR_FIELDS[k] in {"0.3um", "0.5um", "1.0um", "2.5um", "5.0um", "10um"};
    }
  }

  /** A body the schema rejects answers 400 with the first issue's message and
      never reaches extraction or the sink. */
  lemma PmsTypedRejectsBeforeWrites(body: Body, failing: set<nat>, start: nat)
    requires PmsSchema(body).Invalid?
    ensures PostPmsTypedRun(body, failing, start) == NoWrites(SendError(400, PmsSchema(body).message))
  {
  }

  /** The parsed value is discarded: a `pm_ug_per_m3` group with sub-keys
      beyond the three listed passes the schema and is written and echoed
      with those sub-keys. */
  lemma PmsTypedKeepsExtraSubKeys(body: Body, id: string, group: map<string, Json>, failing: set<nat>, start: nat)
    requires ExtractSensorTagTs(Field(body, "tags")) == Ok(id)
    requires PmsSchema(body).Valid?
    requires Field(body, PM_UG_PER_M3) == Obj(group)
    requires start !in failing
    ensures PostPmsTypedRun(body, failing, start).written[0] == Point(PM_UG_PER_M3, map[SENSOR_ID := Str(id)], Obj(group))
  {
    var plan := PmsPoints(body, id);
    assert Committed(start, failing, plan) >= 1;
  }

  /** A falsy `pm_ug_per_m3` such as `0` next to a valid `pm_per_1l_air`:
      `validatePMS` treats it as absent, writes only the other group and
      echoes the `0`; the schema insists on an object and answers 400. */
  lemma PmsFalsyGroupVariants(body: Body, air: Json, failing: set<nat>, start: nat)
    requires Field(body, PM_UG_PER_M3) == Num(0)
    requires Field(body, PM_PER_1L_AIR) == air && GroupAccepted(air, PM_PER_1L_AIR_FIELDS)
    requires ExtractSensorTagJs(Field(body, "tags")).Ok?
    requires Field(body, "tags").Arr? && Field(body, "tags").elems != []
    requires start !in failing
    ensures var id := ExtractSensorTagJs(Field(body, "tags")).value;
      PostPmsUntypedRun(body, failing, start)
        == Run([Point(PM_PER_1L_AIR, map[SENSOR_ID := Str(id)], air)], 1, SendJson(PmsEcho(body, id)))
    ensures PostPmsTypedRun(body, failing, start).resp.SendError?
    ensures PostPmsTypedRun(body, failing, start).written == []
  {
    var id := ExtractSensorTagJs(Field(body, "tags")).value;
    var plan := PmsPoints(body, id);
    assert Committed(start, failing, plan) == 1;
    assert PmUgPerM3Schema(Num(0)).Invalid?;
  }

  /** A string size field inside a present group fails the schema with the
      message `Expected number, received string`. */
  lemma PmsStringFieldMessage(body: Body, group: map<string, Json>, s: string)
    requires TagsSchema(Field(body, "tags")).Valid?
    requires Field(body, PM_UG_PER_M3) == Obj(group)
    requires "1.0um" in group && group["1.0um"] == Str(s)
    ensures PmsSchema(body) == Invalid("Expected number, received string")
  {
    StringFieldMessage(group, s);
  }

  /** A string in the `1.0um` field fails the µg/m³ group's schema with the
      number type message. */
  lemma StringFieldMessage(group: map<string, Json>, s: string)
    requires "1.0um" in group && group["1.0um"] == Str(s)
    ensures PmUgPerM3Schema(Obj(group)) == Invalid("Expected number, received string")
  {
    assert InvalidType("number", Str(s)) == "Expected number, received string";
    assert Get(Obj(group), PM_UG_PER_M3_FIELDS[0]) == Str(s);
  }
}
