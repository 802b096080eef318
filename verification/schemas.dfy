/**
 * The declarative request schemas (identical in both iterations). Each
 * schema is a function from a value to its verdict: valid, or invalid with
 * the message of the first issue, which is all the request-validation
 * middleware reads. The middleware parses asynchronously, and that fixes the
 * order in which issues are recorded. Type checks record their issues at
 * once, key by key in the order the schema lists the keys. A refinement runs
 * only once the value it refines has been parsed, which for an array under
 * an asynchronous parse is after every sibling key's type checks. So the
 * order is: the tags' structure (an array, not empty, of strings), each
 * measurement key in turn, the `sensor:` refinement of the tags, and last the
 * "at least one measurement" rule. Messages other than the schemas' own are
 * those of the validator's default error map.
 */
module Schemas {
  import opened JsString
  import opened JsValue
  import opened Measurements

  datatype Verdict = Valid | Invalid(message: string)

  const TAGS_SENSOR_REQUIRED := "At least one sensor tag is required (format: sensor:id)"
  const DHT_MEASUREMENT_REQUIRED := "At least one measurement (temperature or humidity) is required"
  const PMS_MEASUREMENT_REQUIRED := "At least one measurement (pm_ug_per_m3 or pm_per_1l_air) is required"
  const TOO_SMALL_ONE := "Array must contain at least 1 element(s)"

  /** The validator's name for the type of a value. */
  function ParsedType(v: Json): string
  {
    match v
    case Undef => "undefined"
    case Null => "null"
    case Bool(_) => "boolean"
    case Num(_) => "number"
    case NaN => "nan"
    case Str(_) => "string"
    case Arr(_) => "array"
    case Obj(_) => "object"
  }

  /** The default message of a type mismatch. */
  function InvalidType(expected: string, received: Json): string
  {
    if received.Undef? then "Required" else "Expected " + expected + ", received " + ParsedType(received)
  }

  /** Runs the second check only if the first passed. */
  function AndThen(first: Verdict, second: Verdict): Verdict
  {
    if first.Invalid? then first else second
  }

  /** The index of the first entry at or after `from` that is not a string. */
  function FirstNonString(elems: seq<Json>, from: nat): (i: nat)
    requires from <= |elems|
    ensures from <= i <= |elems|
    ensures forall k :: from <= k < i ==> elems[k].Str?
    ensures i < |elems| ==> !elems[i].Str?
    decreases |elems| - from
  {
    if from == |elems| || !elems[from].Str? then from else FirstNonString(elems, from + 1)
  }

  /** The structure `tagsSchema` refines, `z.array(z.string()).min(1)`: an
      array of at least one entry, every entry a string. Its issues are
      recorded as soon as the tags are reached. */
  function TagsShape(v: Json): (r: Verdict)
    ensures r.Valid? <==> v.Arr? && |v.elems| >= 1 && forall i :: 0 <= i < |v.elems| ==> v.elems[i].Str?
  {
    if !v.Arr? then Invalid(InvalidType("array", v))
    else if |v.elems| < 1 then Invalid(TOO_SMALL_ONE)
    else
      var i := FirstNonString(v.elems, 0);
      if i < |v.elems| then Invalid(InvalidType("string", v.elems[i]))
      else Valid
  }

  /** `tagsSchema`: the structure above, then the refinement that some entry
      starts with `sensor:`. The prefix is all that is checked, and the
      refinement runs only on a well-formed array. */
  function TagsSchema(v: Json): (r: Verdict)
    ensures r.Valid? <==>
      && v.Arr? && |v.elems| >= 1
      && (forall i :: 0 <= i < |v.elems| ==> v.elems[i].Str?)
      && (exists i :: 0 <= i < |v.elems| && IsSensorTag(v.elems[i]))
    ensures r == Invalid(TAGS_SENSOR_REQUIRED) <==>
      && v.Arr? && |v.elems| >= 1
      && (forall i :: 0 <= i < |v.elems| ==> v.elems[i].Str? && !IsSensorTag(v.elems[i]))
    ensures TagsShape(v).Invalid? ==> r == TagsShape(v)
  {
    if TagsShape(v).Invalid? then TagsShape(v)
    else if forall k :: 0 <= k < |v.elems| ==> !StartsWith(v.elems[k].s, "sensor:") then Invalid(TAGS_SENSOR_REQUIRED)
    else Valid
  }

  /** `z.number()`: a number that is not NaN. */
  function NumberSchema(v: Json): (r: Verdict)
    ensures r.Valid? <==> v.Num?
  {
    if v.Num? then Valid else Invalid(InvalidType("number", v))
  }

  /** `z.number().optional()`: absent, or a number that is not NaN. */
  function OptionalNumberSchema(v: Json): (r: Verdict)
    ensures r.Valid? <==> v.Undef? || v.Num?
    ensures v.Undef? ==> r == Valid
    ensures r.Invalid? ==> r == NumberSchema(v)
  {
    if v.Undef? then Valid else NumberSchema(v)
  }

  /** `dhtSchema`: valid tags, numeric-if-present `temperature` and
      `humidity`, and at least one of the two present. */
  function DhtSchema(body: Body): (r: Verdict)
    ensures r.Valid? <==>
      && TagsSchema(Field(body, "tags")).Valid?
      && (Field(body, TEMPERATURE).Undef? || Field(body, TEMPERATURE).Num?)
      && (Field(body, HUMIDITY).Undef? || Field(body, HUMIDITY).Num?)
      && !(Field(body, TEMPERATURE).Undef? && Field(body, HUMIDITY).Undef?)
    ensures TagsShape(Field(body, "tags")).Invalid? ==> r == TagsShape(Field(body, "tags"))
    ensures TagsShape(Field(body, "tags")).Valid? && OptionalNumberSchema(Field(body, TEMPERATURE)).Invalid? ==>
      r == NumberSchema(Field(body, TEMPERATURE))
    ensures (TagsShape(Field(body, "tags")).Valid? && OptionalNumberSchema(Field(body, TEMPERATURE)).Valid? &&
             OptionalNumberSchema(Field(body, HUMIDITY)).Invalid?) ==> r == NumberSchema(Field(body, HUMIDITY))
    ensures (OptionalNumberSchema(Field(body, TEMPERATURE)).Valid? && OptionalNumberSchema(Field(body, HUMIDITY)).Valid? &&
             TagsSchema(Field(body, "tags")).Invalid?) ==> r == TagsSchema(Field(body, "tags"))
    ensures TagsSchema(Field(body, "tags")).Valid? && Field(body, TEMPERATURE).Undef? && Field(body, HUMIDITY).Undef? ==>
      r == Invalid(DHT_MEASUREMENT_REQUIRED)
  {
    var tags := Field(body, "tags");
    var temperature := Field(body, TEMPERATURE);
    var humidity := Field(body, HUMIDITY);
    AndThen(TagsShape(tags),
    AndThen(OptionalNumberSchema(temperature),
    AndThen(OptionalNumberSchema(humidity),
    AndThen(TagsSchema(tags),
      if temperature.Undef? && humidity.Undef? then Invalid(DHT_MEASUREMENT_REQUIRED) else Valid))))
  }

  /** The listed keys of `g`, from index `from` on, each checked by `z.number()` in order. */
  function NumberFields(g: Json, fields: seq<string>, from: nat): (r: Verdict)
    requires from <= |fields|
    ensures r.Valid? <==> forall k :: from <= k < |fields| ==> Get(g, fields[k]).Num?
    decreases |fields| - from
  {
    if from == |fields| then Valid
    else AndThen(NumberSchema(Get(g, fields[from])), NumberFields(g, fields, from + 1))
  }

  /** `z.object({...})` whose every listed key is `z.number()`; other keys are
      neither required nor rejected. */
  function ObjectOfNumbers(v: Json, fields: seq<string>): (r: Verdict)
    ensures r.Valid? <==> v.Obj? && forall k :: 0 <= k < |fields| ==> Get(v, fields[k]).Num?
  {
    if !v.Obj? then Invalid(InvalidType("object", v)) else NumberFields(v, fields, 0)
  }

  /** `pmUgPerM3Schema`. */
  function PmUgPerM3Schema(v: Json): (r: Verdict)
    ensures r.Valid? <==> v.Obj? && Get(v, "1.0um").Num? && Get(v, "2.5um").Num? && Get(v, "10um").Num?
  {
    assert forall k :: 0 <= k < 3 ==> PM_UG_PER_M3_FIELDS[k] in {"1.0um", "2.5um", "10um"};
    ObjectOfNumbers(v, PM_UG_PER_M3_FIELDS)
  }

  /** `pmPer1LAirSchema`. */
  function PmPer1LAirSchema(v: Json): (r: Verdict)
    ensures r.Valid? <==>
      && v.Obj? && Get(v, "0.3um").Num? && Get(v, "0.5um").Num? && Get(v, "1.0um").Num?
      && Get(v, "2.5um").Num? && Get(v, "5.0um").Num? && Get(v, "10um").Num?
  {
    assert forall k :: 0 <= k < 6 ==> PM_PER_1L_AIR_FIELDS[k] in {"0.3um", "0.5um", "1.0um", "2.5um", "5.0um", "10um"};
    ObjectOfNumbers(v, PM_PER_1L_AIR_FIELDS)
  }

  /** A group schema made `.optional()`: absent, or an object whose listed
      keys are numbers. */
  function OptionalGroup(v: Json, fields: seq<string>): (r: Verdict)
    ensures v.Undef? ==> r == Valid
    ensures !v.Undef? ==> r == ObjectOfNumbers(v, fields)
  {
    if v.Undef? then Valid else ObjectOfNumbers(v, fields)
  }

  /** `pmsSchema`: valid tags, each present group matching its schema, and at
      least one group present. */
  function PmsSchema(body: Body): (r: Verdict)
    ensures r.Valid? <==>
      && TagsSchema(Field(body, "tags")).Valid?
      && (Field(body, PM_UG_PER_M3).Undef? || PmUgPerM3Schema(Field(body, PM_UG_PER_M3)).Valid?)
      && (Field(body, PM_PER_1L_AIR).Undef? || PmPer1LAirSchema(Field(body, PM_PER_1L_AIR)).Valid?)
      && !(Field(body, PM_UG_PER_M3).Undef? && Field(body, PM_PER_1L_AIR).Undef?)
    ensures TagsShape(Field(body, "tags")).Invalid? ==> r == TagsShape(Field(body, "tags"))
    ensures TagsShape(Field(body, "tags")).Valid? && OptionalGroup(Field(body, PM_UG_PER_M3), PM_UG_PER_M3_FIELDS).Invalid? ==>
      r == PmUgPerM3Schema(Field(body, PM_UG_PER_M3))
    ensures (TagsShape(Field(body, "tags")).Valid? && OptionalGroup(Field(body, PM_UG_PER_M3), PM_UG_PER_M3_FIELDS).Valid? &&
             OptionalGroup(Field(body, PM_PER_1L_AIR), PM_PER_1L_AIR_FIELDS).Invalid?) ==>
      r == PmPer1LAirSchema(Field(body, PM_PER_1L_AIR))
    ensures (OptionalGroup(Field(body, PM_UG_PER_M3), PM_UG_PER_M3_FIELDS).Valid? &&
             OptionalGroup(Field(body, PM_PER_1L_AIR), PM_PER_1L_AIR_FIELDS).Valid? &&
             TagsSchema(Field(body, "tags")).Invalid?) ==> r == TagsSchema(Field(body, "tags"))
    ensures TagsSchema(Field(body, "tags")).Valid? && Field(body, PM_UG_PER_M3).Undef? && Field(body, PM_PER_1L_AIR).Undef? ==>
      r == Invalid(PMS_MEASUREMENT_REQUIRED)
  {
    var tags := Field(body, "tags");
    var ug := Field(body, PM_UG_PER_M3);
    var air := Field(body, PM_PER_1L_AIR);
    AndThen(TagsShape(tags),
    AndThen(OptionalGroup(ug, PM_UG_PER_M3_FIELDS),
    AndThen(OptionalGroup(air, PM_PER_1L_AIR_FIELDS),
    AndThen(TagsSchema(tags),
      if ug.Undef? && air.Undef? then Invalid(PMS_MEASUREMENT_REQUIRED) else Valid))))
  }

  /** The number checks read only the listed keys. */
  lemma {:induction false} NumberFieldsListedOnly(g: Json, h: Json, fields: seq<string>, from: nat)
    requires from <= |fields|
    requires forall k :: 0 <= k < |fields| ==> Get(g, fields[k]) == Get(h, fields[k])
    ensures NumberFields(g, fields, from) == NumberFields(h, fields, from)
    decreases |fields| - from
  {
    if from < |fields| {
      NumberFieldsListedOnly(g, h, fields, from + 1);
    }
  }

  /** An object schema neither requires nor rejects keys it does not list:
      two objects that agree on the listed keys get the same verdict. */
  lemma ObjectOfNumbersIgnoresOtherKeys(g: map<string, Json>, h: map<string, Json>, fields: seq<string>)
    requires forall k :: 0 <= k < |fields| ==> Get(Obj(g), fields[k]) == Get(Obj(h), fields[k])
    ensures ObjectOfNumbers(Obj(g), fields) == ObjectOfNumbers(Obj(h), fields)
  {
    NumberFieldsListedOnly(Obj(g), Obj(h), fields, 0);
  }

  /** A single string tag without the `sensor:` prefix is well-formed and
      fails only the refinement. */
  lemma NonSensorSingleTag(tag: string)
    requires !StartsWith(tag, "sensor:")
    ensures TagsShape(Arr([Str(tag)])).Valid?
    ensures TagsSchema(Arr([Str(tag)])) == Invalid(TAGS_SENSOR_REQUIRED)
  {
  }

  /** Tags without a `sensor:` entry and a string temperature: the
      temperature's type issue is recorded before the tags' refinement runs,
      so it is the one reported. */
  lemma DhtTypeIssueBeforeSensorRefine(body: Body, tag: string, s: string)
    requires body == map["tags" := Arr([Str(tag)]), TEMPERATURE := Str(s)]
    requires !StartsWith(tag, "sensor:")
    ensures TagsSchema(body["tags"]) == Invalid(TAGS_SENSOR_REQUIRED)
    ensures DhtSchema(body) == Invalid("Expected number, received string")
  {
    NonSensorSingleTag(tag);
    assert Field(body, "tags") == Arr([Str(tag)]);
    assert Field(body, TEMPERATURE) == Str(s);
    assert InvalidType("number", Str(s)) == "Expected number, received string";
  }

  /** Likewise for a PMS body whose `pm_ug_per_m3` is a string: the group's
      type issue is reported, not the tags' refinement. */
  lemma PmsTypeIssueBeforeSensorRefine(body: Body, tag: string, s: string)
    requires body == map["tags" := Arr([Str(tag)]), PM_UG_PER_M3 := Str(s)]
    requires !StartsWith(tag, "sensor:")
    ensures TagsSchema(body["tags"]) == Invalid(TAGS_SENSOR_REQUIRED)
    ensures PmsSchema(body) == Invalid("Expected object, received string")
  {
    NonSensorSingleTag(tag);
    assert Field(body, "tags") == Arr([Str(tag)]);
    assert Field(body, PM_UG_PER_M3) == Str(s);
    assert OptionalGroup(Str(s), PM_UG_PER_M3_FIELDS) == Invalid(InvalidType("object", Str(s)));
    assert InvalidType("object", Str(s)) == "Expected object, received string";
  }

  /** A body without `tags` fails both route schemas with the default
      message for a missing value. */
  lemma MissingTagsRequired(body: Body)
    requires "tags" !in body
    ensures DhtSchema(body) == Invalid("Required")
    ensures PmsSchema(body) == Invalid("Required")
  {
  }
}
