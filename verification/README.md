# Sensor telemetry gateway: a Dafny model

This project models the request pipeline of a small HTTP gateway. The
gateway takes readings from two kinds of sensors and stores them as points
in a time-series database:

- `POST /dht`: temperature and humidity.
- `POST /pms`: two groups of particulate-matter size fields.
- `POST /environment`: the first, legacy version of the temperature/humidity
  endpoint.

The repository keeps two iterations of the pipeline side by side, an untyped
one (`.js`) and a typed one (`.ts`). The model covers both and proves where
they agree and where they do not.

Each module of the model:

- `JsString`: `split` on one character, `startsWith`, and the `\s` class of
  JavaScript regular expressions.
- `JsValue`: the JSON values a handler sees. The `Json` type is
  `Undef | Null | Bool | Num | NaN | Str | Arr | Obj`. The module also gives
  `typeof`, truthiness, and property reads. The request body is a map from
  keys to values, and an absent key reads as `undefined`.
- `Http`: what a middleware or handler does with a request. It either passes
  control on (`Next`), sends an error, sends JSON, sends a bare status, or
  lets an exception escape (`Escaped`).
- `Influx`: the database as a `Sink` class. It holds the stored points and
  the number of write attempts made. A failure oracle, fixed when the sink
  is made, says which attempt numbers fail. `Committed` and `Landed` state
  which points end up stored:
  - `Committed` covers writes that are awaited one after another, where the
    first failure aborts the rest.
  - `Landed` covers writes that are issued without being awaited.
- `Helpers`:
  - `isNumber` and `isObject`;
  - `escapeString`, with its inverse;
  - both `extractSensorTag` functions;
  - `writeToInflux`, which is one append to the sink that rethrows on
    failure.
- `Schemas`: the declarative schemas. Each schema is a function from a value
  to its verdict, which is either valid or invalid with the message of the
  first issue. The middleware parses asynchronously, so the issues are
  recorded in this order:
  - the tags' structure: an array, not empty, of strings;
  - each measurement key in turn;
  - the `sensor:` refinement of the tags, which waits for the array to be
    parsed;
  - the "at least one measurement" rule.
- `ValidateRequest`: the schema-to-response middleware of both iterations.
- `ValidateApiKey`: the API-key gate.
- `Handlers`: one request as a value (`Run`). `SequentialRun` gives the
  awaited, abort-on-first-failure write sequence that both measurement
  routes use.
- `DhtRoute` and `PmsRoute`, one per endpoint. Each has:
  - the hand-written validator of the untyped iteration;
  - the shared POST handler, as a method on the sink proved against its
    `...Run` function;
  - both endpoint compositions (validator then handler, and schema then
    handler).
- `LegacyServer`: the `/environment` handler. It has a tag-scan loop and
  presence checks, then issues unawaited writes and sends the echo.

The handler files of the two iterations have the same body. They differ only
in which `extractSensorTag` they import. For that reason each route handler
is one method with a `Variant` parameter:

- `Typed` selects the extractor of `src/utils/helpers.ts`.
- `Untyped` selects the extractor of `src/utils/helpers.js`.

The schema files of the two iterations are identical apart from their type
aliases, so they are modelled once. The same holds for `validateApiKey`,
`escapeString` and `writeToInflux`.

`pmUgPerM3Schema`, `pmPer1LAirSchema` and `validatePMS` accept keys besides
the size fields they list, and the handler writes each group as sent, extra
keys included (`GroupCheckIgnoresOtherKeys`, `ObjectOfNumbersIgnoresOtherKeys`,
`PmsTypedKeepsExtraSubKeys`).

## Model

| member | source | states |
|---|---|---|
| JsString.Split | src/utils/helpers.ts:54 | `split(':')` yields at least one piece and no piece contains the separator. The first piece is a prefix of the input that ends at the first separator or at the end. |
| JsString.JoinSplit | src/utils/helpers.ts:54 | Joining the pieces of a split with the separator gives back the original string, so splitting loses nothing. |
| JsString.SplitWithoutSep | src/server.js:68 | A string without the separator splits into itself alone, so element 1 is `undefined`. |
| JsString.SplitAfterFirst | src/utils/helpers.js:36 | Splitting `p:q`, where `p` has no colon, gives `p` followed by the pieces of `q`. |
| Influx.Sink.WritePoints | src/utils/helpers.ts:29-36 | One write attempt. It succeeds exactly when the oracle does not fail this attempt number. On success the point is appended. The attempt counter always advances. |
| Influx.Committed | src/routes/dht.ts:18-33 | Under awaited writes, the number of points stored is the length of the leading run of successful attempts. It stops before the first failing attempt. |
| Influx.Landed | src/server.js:77-128 | Under unawaited writes, each point is stored unless its own attempt fails, so no more points land than were planned. |
| Influx.LandedIndices | src/server.js:77-128 | The positions, in increasing order, of the planned points whose own attempt does not fail. A position is listed exactly when its attempt does not fail. |
| Influx.LandedInOrder | src/server.js:77-128 | The stored points are exactly the planned points at those positions, in plan order. |
| Influx.LandedExtremes | src/server.js:77-128 | With no failing attempt every planned point lands. With every attempt failing none does. |
| JsValue.TypeOf | src/utils/helpers.js:2-3 | `typeof` gives `object` exactly for `null`, arrays and objects, `number` exactly for numbers and `NaN`, and `undefined` only for `undefined`. |
| JsValue.Truthy | src/routes/pms.js:17 | Arrays and objects are truthy. `undefined`, `null` and `NaN` are falsy. |
| Helpers.IsNumber | src/utils/helpers.js:2 | `isNumber(v)` holds exactly for a number that is not NaN. |
| Helpers.IsObject | src/utils/helpers.js:3 | `isObject(v)` holds exactly for arrays and objects: object-typed and not null. |
| Helpers.EscapeString | src/utils/helpers.ts:7 | The result is as long as the input plus one per comma, double quote or whitespace character. Every such character in the result is preceded by a backslash. An input without those characters comes back unchanged. |
| Helpers.UnescapeEscape | src/utils/helpers.js:6 | Removing the inserted backslashes gives back the input, so only backslashes were added and every other character kept its order. |
| Helpers.FindSensorTag | src/utils/helpers.ts:48-50 | The typed `find` returns the first string entry that starts with `sensor:`, skipping non-strings and other namespaces. It returns nothing exactly when no entry matches. |
| Helpers.FindSensorTagJs | src/utils/helpers.js:32 | The untyped `find` throws a type error exactly when a non-string is met before any match. Otherwise it returns the first match, or nothing when every entry is a non-matching string. |
| Helpers.SensorId | src/utils/helpers.ts:54 | The id taken from a `sensor:` tag contains no colon. |
| Helpers.SensorIdIsSecondField | src/utils/helpers.js:36 | The id is `x` exactly when `x` has no colon and the tag reads `sensor:x` followed by the end or a colon. So the id is element 1 of the full split, not the rest after the first colon. |
| Helpers.SensorIdStopsAtSecondColon | src/utils/helpers.ts:54-58 | `sensor:a:b` yields `a`. |
| Helpers.SensorIdOfSimpleTag | src/utils/helpers.ts:54-58 | `sensor:x` with a colon-free `x` is a sensor tag and yields `x`. |
| Helpers.ExtractSensorTagTs | src/utils/helpers.ts:44-59 | A non-array fails with `tags must be an array`, and only a non-array does. For an array, `sensor tag not found` is returned exactly when no entry is a string starting with `sensor:`. A returned id is non-empty and colon-free. |
| Helpers.ExtractSensorTagJs | src/utils/helpers.js:31-37 | A non-array throws a type error. An array of non-matching strings throws `sensor tag not found`. A returned id is colon-free. |
| Helpers.ExtractSensorTagTsSpec | src/utils/helpers.ts:48-58 | The typed extractor returns `id` if and only if `id` is non-empty and colon-free, and the first sensor entry reads `sensor:id` up to its second colon or its end. |
| Helpers.ExtractSensorTagTsEmptyId | src/utils/helpers.ts:48-57 | `invalid sensor tag format` is returned exactly when the first `sensor:` entry has an empty id: it is `sensor:` itself or goes on with a second colon. Non-strings before it do not matter, so `[5, 'sensor:']` is refused this way. |
| Helpers.ExtractSensorTagJsSpec | src/utils/helpers.js:32-36 | The untyped extractor returns `id`, possibly empty, if and only if `id` is colon-free, every entry before the first sensor entry is a string, and that entry reads `sensor:id` up to its second colon or its end. |
| Helpers.FindSensorTagVariantsAgree | src/utils/helpers.js:32 | On an array of strings the two `find` callbacks pick the same entry. |
| Helpers.ExtractFirstSensorTag | src/utils/helpers.ts:44-59 | Take `sensor:id` preceded only by strings in other namespaces. The typed extractor gives `id`, or `invalid sensor tag format` when `id` is empty. The untyped one gives `id` as it is, even when it is empty. |
| Helpers.ExtractSensorTag | src/routes/dht.ts:19 | Whichever helpers the handler was built against, a returned id is colon-free. With the typed helpers it is also non-empty. |
| Helpers.WriteToInflux | src/utils/helpers.ts:22-41 | Exactly one write attempt of the single point (measurement, tags, fields). On failure it rethrows the write error and stores nothing. |
| Schemas.FirstNonString | src/schemas/sensors.ts:4 | The array check stops at the first entry that is not a string. |
| Schemas.TagsShape | src/schemas/sensors.ts:4 | Valid exactly for a non-empty array whose every entry is a string. |
| Schemas.TagsSchema | src/schemas/sensors.ts:4-7 | Valid exactly for a non-empty array of strings with an entry starting `sensor:`, so `['sensor:']` passes. The fixed refinement message is given exactly for a non-empty array of non-matching strings. A structural issue comes before the refinement. |
| Schemas.NumberSchema | src/schemas/sensors.js:12 | Valid exactly for a number that is not NaN. |
| Schemas.OptionalNumberSchema | src/schemas/sensors.ts:15-16 | Valid exactly for `undefined` or a number that is not NaN. Otherwise the verdict is the plain number check's. |
| Schemas.DhtSchema | src/schemas/sensors.ts:13-20 | Valid exactly when the tags are valid, each measurement is absent or numeric, and one of them is present. The first issue comes from the first failing check in this order: tags structure, temperature type, humidity type, the `sensor:` refinement. When the tags are valid and both measurements are absent, the measurement message is given. |
| Schemas.NumberFields | src/schemas/sensors.js:20-24 | Valid exactly when every listed key of the group reads as a number. |
| Schemas.ObjectOfNumbers | src/schemas/sensors.js:26-33 | Valid exactly for an object whose listed keys all read as numbers. |
| Schemas.PmUgPerM3Schema | src/schemas/sensors.ts:26-30 | Valid exactly for an object with numeric `1.0um`, `2.5um` and `10um`. |
| Schemas.PmPer1LAirSchema | src/schemas/sensors.ts:35-42 | Valid exactly for an object with all six size fields numeric. |
| Schemas.OptionalGroup | src/schemas/sensors.ts:49-50 | An absent group passes. A present one gets the object-of-numbers verdict. |
| Schemas.PmsSchema | src/schemas/sensors.ts:47-54 | Valid exactly when the tags are valid, each present group matches its schema, and one group is present. The first issue comes from the first failing check in this order: tags structure, the µg/m³ group, the per-litre group, the `sensor:` refinement. When the tags are valid and both groups are absent, the measurement message is given. |
| Schemas.NumberFieldsListedOnly | src/schemas/sensors.js:20-24 | The number checks read only the listed keys. |
| Schemas.ObjectOfNumbersIgnoresOtherKeys | src/schemas/sensors.js:20-33 | Two objects that agree on the listed keys get the same verdict, so extra keys are neither required nor rejected. |
| Schemas.NonSensorSingleTag | src/schemas/sensors.ts:4-7 | One string tag without the `sensor:` prefix passes the structure and fails only the refinement. |
| Schemas.DhtTypeIssueBeforeSensorRefine | src/schemas/sensors.ts:4-20 | Tags without a `sensor:` entry and a string temperature give `Expected number, received string`, not the tags message. |
| Schemas.PmsTypeIssueBeforeSensorRefine | src/schemas/sensors.ts:4-54 | Tags without a `sensor:` entry and a string `pm_ug_per_m3` give `Expected object, received string`, not the tags message. |
| Schemas.MissingTagsRequired | src/middleware/validateRequest.ts:11-12 | A body without `tags` fails both route schemas with `Required`. |
| ValidateRequest.ParseAsync | src/middleware/validateRequest.ts:8 | The parse succeeds exactly when the schema's verdict is valid. A rejection is a schema error whose first message is the verdict's. |
| ValidateRequest.ValidateRequestTs | src/middleware/validateRequest.ts:5-16 | `next()` exactly when the parse succeeds. Otherwise the answer is 400: a schema error gives its first issue's message, and any other error gives `Invalid request body`. |
| ValidateRequest.ValidateRequestJs | src/middleware/validateRequest.js:3-13 | `next()` exactly when the parse succeeds. An error carrying messages answers 400 with the first of them, and an empty list throws. An error without messages answers 400 `Invalid request body`. |
| ValidateRequest.ValidateRequestVariantsAgree | src/middleware/validateRequest.js:8-11 | The two iterations differ only on a non-schema error that carries an `errors` list. |
| ValidateRequest.ValidateRequestFollowsSchema | src/middleware/validateRequest.ts:8-12 | For a schema verdict both iterations pass the request on exactly when it is valid, and otherwise answer 400 with the first issue's message. |
| ValidateApiKey.ValidateApiKey | src/middleware/validateApiKey.ts:5-17 | A missing or empty key gives 401 `API key is required`, and only such a key does. A non-empty key that differs from the configured one gives 401 `Invalid API key`. Only an exact match passes on. |
| ValidateApiKey.ApiKeyOneOutcome | src/middleware/validateApiKey.js:4-16 | Exactly one of the three outcomes happens. |
| Handlers.SequentialRun | src/routes/dht.ts:18-33 | The points stored are a prefix of the plan. Success is sent exactly when the whole plan is stored. Otherwise the answer is 500 `Failed to store measurements` and the next attempt was the failing one. Attempts are the stored points plus the failed one. |
| Handlers.SequentialRunExtremes | src/routes/pms.ts:18-33 | With no failing attempt the whole plan is stored and success is sent. When the first attempt fails nothing is stored and the answer is 500. |
| DhtRoute.ValidateDht | src/routes/dht.js:8-31 | `validateDHT` passes on exactly the accepted bodies. Every refusal is one 400. |
| DhtRoute.ValidateDhtPrecedence | src/routes/dht.js:12-28 | The checks run in this order: the tags check, then the presence check, then temperature before humidity. |
| DhtRoute.DhtPoints | src/routes/dht.js:39-45 | The temperature point comes before the humidity point, each only when defined, each with the sensor id as its only tag. |
| DhtRoute.DhtEcho | src/routes/dht.js:47 | The echo has exactly `temperature`, `humidity` and `sensor_id`, with the values sent. |
| DhtRoute.DhtRunStoresCommitted | src/routes/dht.js:36-51 | The stored points are the leading run of planned points whose attempts succeed. On a sink that fails none of them, every point is stored and the echo is sent. |
| DhtRoute.DhtRun | src/routes/dht.js:36-51 | A failed extraction gives 500 with nothing written. Otherwise the stored points are a prefix of the plan, success is sent exactly when all are stored, and success carries the echo. |
| DhtRoute.DhtHandler | src/routes/dht.ts:18-33 | The handler method appends exactly the points its run stores, makes exactly its attempts, and sends its response. |
| DhtRoute.PostDhtUntypedRun | src/routes/dht.js:33 | A body `validateDHT` refuses gets its 400 and no writes. An accepted body runs the handler with the untyped helpers. |
| DhtRoute.PostDhtTypedRun | src/routes/dht.ts:15 | A schema-invalid body gets 400 with the first issue's message and no writes. A valid one runs the handler with the typed helpers. |
| DhtRoute.PostDhtUntyped | src/routes/dht.js:33-52 | The untyped endpoint on the sink does what its run states. |
| DhtRoute.PostDhtTyped | src/routes/dht.ts:15-34 | The typed endpoint on the sink does what its run states. |
| DhtRoute.DhtSchemaImpliesGuard | src/routes/dht.js:8-31 | Every body the schema accepts also passes `validateDHT`. |
| DhtRoute.DhtTypedRejectsBeforeWrites | src/routes/dht.ts:15 | A schema-invalid body never reaches extraction or the sink. |
| DhtRoute.DhtSchemaLeavesOnlyEmptyId | src/routes/dht.ts:19 | Behind the schema, the typed extractor can only fail on an empty id. |
| DhtRoute.DhtSecondWriteFails | src/routes/dht.ts:21-33 | If the humidity write fails after the temperature write, the temperature point stays, no humidity point is stored, two attempts are made, and the answer is 500. |
| DhtRoute.DhtAcceptsSensorBody | src/routes/dht.ts:15-29 | With `sensor:id` and both values on a working sink, both iterations store temperature then humidity and echo the values with the id. |
| DhtRoute.DhtNonSensorTagVariants | src/routes/dht.js:36-51 | For a tag list with no sensor tag, the schema answers 400 with its fixed message. `validateDHT` lets it through, and extraction then throws: 500 with nothing written. |
| DhtRoute.SingleSensorTagList | src/schemas/sensors.ts:4-7 | A list of one `sensor:<id>` tag passes the tags schema. The typed extractor refuses it only when the id is empty; the untyped one returns the id. |
| DhtRoute.EmptyIdTagList | src/schemas/sensors.ts:5 | `['sensor:']` passes the tags schema. The typed extractor refuses it, and the untyped one returns `""`. |
| DhtRoute.DhtEmptySensorIdVariants | src/routes/dht.ts:19 | `['sensor:']` gives 500 with no writes in the typed iteration. The untyped iteration writes and echoes an empty `sensor_id`. |
| PmsRoute.FirstNonNumber | src/routes/pms.js:28-32 | The field loop stops at the first listed field that is not a number. |
| PmsRoute.GroupCheck | src/routes/pms.js:22-33 | A group passes exactly when it is an object and every listed field is numeric. A non-object gets `<group> must be an object`. Otherwise the first non-numeric field gets `<group>.<field> must be a number`. |
| PmsRoute.PmsGuard | src/routes/pms.js:8-50 | `validatePMS` passes on exactly the accepted bodies, where a falsy group counts as absent. Every refusal is one 400. |
| PmsRoute.CheckGroup | src/routes/pms.js:36-47 | The `for` loop over the field list returns exactly the group check's answer. |
| PmsRoute.ValidatePms | src/routes/pms.js:8-50 | The validator with its loops returns exactly `validatePMS`'s answer. |
| PmsRoute.PmsGuardPrecedence | src/routes/pms.js:12-47 | The checks run in this order: tags, then presence, then `pm_ug_per_m3` in full. `pm_per_1l_air` is checked only after `pm_ug_per_m3` is absent or passes. |
| PmsRoute.ArrayGroupReportsFirstField | src/routes/pms.js:23-31 | An array passes the object check, and its first listed field is reported as not a number. |
| PmsRoute.FirstNonNumberListedOnly | src/routes/pms.js:41-46 | Where the field loop stops depends only on the listed fields. |
| PmsRoute.GroupCheckIgnoresOtherKeys | src/routes/pms.js:27-32 | Two groups that agree on the listed fields get the same answer, so extra sub-keys are neither required nor rejected. |
| PmsRoute.PmsPoints | src/routes/pms.js:58-64 | `pm_ug_per_m3` is written before `pm_per_1l_air`, each only when truthy. Each point's fields are the group as sent, and its only tag is the sensor id. |
| PmsRoute.PmsEcho | src/routes/pms.js:66 | The echo has exactly the two groups as sent plus `sensor_id`. |
| PmsRoute.PmsRunStoresCommitted | src/routes/pms.js:55-70 | The stored points are the leading run of planned points whose attempts succeed. On a sink that fails none of them, every point is stored and the echo is sent. |
| PmsRoute.PmsRun | src/routes/pms.js:55-70 | A failed extraction gives 500 with nothing written. Otherwise the stored points are a prefix of the plan, success is sent exactly when all are stored, and success carries the echo. |
| PmsRoute.PmsHandler | src/routes/pms.ts:18-33 | The handler method appends exactly the points its run stores, makes exactly its attempts, and sends its response. |
| PmsRoute.PostPmsUntypedRun | src/routes/pms.js:52 | A body `validatePMS` refuses gets its 400 and no writes. An accepted body runs the handler with the untyped helpers. |
| PmsRoute.PostPmsTypedRun | src/routes/pms.ts:15 | A schema-invalid body gets 400 with the first issue's message and no writes. A valid one runs the handler with the typed helpers. |
| PmsRoute.PostPmsUntyped | src/routes/pms.js:52-71 | The untyped endpoint on the sink does what its run states. |
| PmsRoute.PostPmsTyped | src/routes/pms.ts:15-34 | The typed endpoint on the sink does what its run states. |
| PmsRoute.PmsSchemaImpliesGuard | src/routes/pms.js:8-50 | Every body the schema accepts also passes `validatePMS`. |
| PmsRoute.PmsTypedRejectsBeforeWrites | src/routes/pms.ts:15 | A schema-invalid body never reaches the sink. |
| PmsRoute.PmsTypedKeepsExtraSubKeys | src/middleware/validateRequest.ts:8 | The parsed value is discarded, so a group with extra sub-keys is written with them. |
| PmsRoute.PmsFalsyGroupVariants | src/routes/pms.js:17-22 | Take `pm_ug_per_m3: 0` next to a valid `pm_per_1l_air`. `validatePMS` treats the `0` as absent, writes only the other group and echoes the `0`. The schema refuses the body before any write. |
| PmsRoute.StringFieldMessage | src/schemas/sensors.ts:26-30 | A string in the `1.0um` field of the µg/m³ group fails that group's schema with `Expected number, received string`. |
| PmsRoute.PmsStringFieldMessage | src/schemas/sensors.ts:26-30 | With valid tags, a string in the `1.0um` field of `pm_ug_per_m3` fails the body with `Expected number, received string`. |
| LegacyServer.SensorScan | src/server.js:66-71 | The whole scan throws a type error exactly when some tag is not a string. |
| LegacyServer.ScanFromFails | src/server.js:67-68 | The scan throws a type error exactly when some tag is not a string. |
| LegacyServer.ScanFromKeeps | src/server.js:66-71 | Over tags none of which is named `sensor`, the id keeps its initial value. |
| LegacyServer.ScanFromLast | src/server.js:66-71 | Over strings, the scan ends with the value of the last tag named `sensor`. |
| LegacyServer.SensorScanSpec | src/server.js:66-71 | A non-string anywhere throws. Otherwise the last tag named `sensor` sets the id, later matches overriding earlier ones. With none, the id stays `''`. |
| LegacyServer.ScanSensorTag | src/server.js:66-71 | The `forEach` loop computes exactly that scan. |
| LegacyServer.NamesSensorIffPrefix | src/server.js:68-70 | A tag is named `sensor` exactly when it is `sensor` or starts with `sensor:`. |
| LegacyServer.SensorValueOfTag | src/server.js:68 | `sensor:x` with a colon-free `x` names the sensor and carries `x`. |
| LegacyServer.BareSensorValue | src/server.js:68 | A bare `sensor` names the sensor but carries `undefined`. |
| LegacyServer.BareSensorTagScan | src/server.js:66-71 | A lone bare `sensor` tag scans to `undefined`. |
| LegacyServer.EnvPoints | src/server.js:77-128 | A temperature write is issued exactly when the key is present, then a humidity write exactly when its key is present. The values are unchecked and tagged with the scanned id. |
| LegacyServer.EnvEcho | src/server.js:134-139 | The echo has exactly `temperature`, `humidity` and the scanned `sensor_id`. |
| LegacyServer.EnvironmentRun | src/server.js:57-140 | No `tags` key gives a bare 400. A `tags` that is not an array, or a non-string tag, throws. Once the scan succeeds, a bare 400 is sent exactly when the scanned id is `''`. Otherwise the echo and every point carry the scanned id, every write is issued, each point lands unless its own attempt fails, and 200 with the echo is sent regardless. |
| LegacyServer.Environment | src/server.js:57-140 | The handler method on the sink does what its run states. |
| LegacyServer.IssueWrites | src/server.js:77-128 | The unawaited writes make one attempt per present key, and store exactly the points that land. |
| LegacyServer.EnvironmentIgnoresWriteOutcome | src/server.js:134-139 | The response and the writes issued do not depend on how the writes fare. |
| LegacyServer.SingleSensorTagScan | src/server.js:66-71 | A single `sensor:x` tag yields `x`. |
| LegacyServer.EnvironmentFirstWriteFails | src/server.js:82-113 | A failed temperature write loses only its own point. The humidity point is stored and 200 is still sent. |
| LegacyServer.BareSensorTagPasses | src/server.js:68-75 | A bare `sensor` tag makes the id `undefined`, which passes the `''` check. The writes go out and 200 is sent. |
| LegacyServer.EmptySensorIdRefused | src/server.js:72-75 | No sensor tag, or `sensor:` as the last one, gives a bare 400 with nothing written. |
| LegacyServer.ScanKeepsSecondOfTwo | src/server.js:66-71 | Of two well-formed sensor tags, the scan keeps the value of the second. |
| LegacyServer.LastWinsOverFirst | src/server.js:66-71 | With two sensor tags the legacy scan keeps the last, while the untyped extractor takes the first. |

## Left out

- Network and database I/O are not modelled:
  - the database client, its construction and database creation;
  - the follow-up `select` queries in `src/server.js`;
  - all console logging.

  The sink stands for the database, and its failure oracle stands for
  whatever makes a write fail.
- Timestamps: the `new Date()` of each point is a clock read, so points
  carry no time.
- Asynchrony: awaited writes are modelled as sequential. The unawaited
  writes of `src/server.js` are modelled as issued in order, each landing or
  not. Their completion order and the unhandled rejection of a failed one
  are left out.
- Express itself is not modelled: routing, `express.json()`, header lookup
  (the header value is a parameter) and the status and content type of
  `res.send`. An exception that leaves a handler is the `Escaped` response.
  What Express then sends is left out.
- Environment configuration, health routes, rate limiting, app wiring and
  shutdown, and the HMAC test helper are plumbing or library configuration.
- The request body is always an object; a non-object JSON body is not
  modelled.
- Floating point: a number is an integer, with `NaN` as its own value.
  Values are only type-checked and echoed. `-0` is not distinguished from
  `0`.
- `JSON.stringify` and `res.json` drop `undefined` members. The model's echo
  keeps them as `Undef`.
- Schemas.DhtSchema: the validator reports every issue, but only the first
  is modelled, because that is the only one the middleware reads. Its default
  message wording is taken from the validator's default error map.
- Schemas.PmsSchema: same as Schemas.DhtSchema.
- ValidateRequest.ValidateRequestJs: an `errors` property that is truthy but
  not a list is not modelled; such a value is either a list of messages or
  absent.
- `sendError` is not a separate member. It is the `SendError` response.
