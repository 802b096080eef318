/**
 * The bridge between a schema and the routes: parse the body, pass control
 * on when the parse succeeds, answer 400 otherwise. The parsed value is
 * thrown away, so the route handler reads the original body. The typed
 * and the untyped iteration differ in how they recognise a validation
 * error.
 */
module ValidateRequest {
  import opened Wrappers
  import opened JsValue
  import opened Http
  import opened Schemas

  const INVALID_BODY := "Invalid request body"

  /** What `schema.parseAsync` can throw. */
  datatype ParseError =
    | ValidationError(first: string, rest: seq<string>) // a schema error: its issue messages, at least one
    | OtherError(errors: Option<seq<string>>)           // anything else; the messages of its `errors` property, if it has one

  datatype ParseOutcome = Parsed | Rejected(error: ParseError)

  /** `schema.parseAsync(body)` for a schema whose verdict is `v`; only the
      first issue is modelled. */
  function ParseAsync(v: Verdict): (o: ParseOutcome)
    ensures o.Parsed? <==> v.Valid?
    ensures o.Rejected? ==> o.error.ValidationError? && o.error.first == v.message
  {
    if v.Valid? then Parsed else Rejected(ValidationError(v.message, []))
  }

  /** `validateRequest` of the typed iteration: a schema error answers 400
      with its first issue's message; anything else answers 400 with a fixed
      message. */
  function ValidateRequestTs(o: ParseOutcome): (r: Response)
    ensures r.Next? <==> o.Parsed?
    ensures !r.Next? ==> r.SendError? && r.status == 400
    ensures o.Rejected? && o.error.ValidationError? ==> r.message == o.error.first
    ensures o.Rejected? && o.error.OtherError? ==> r.message == INVALID_BODY
  {
    match o
    case Parsed => Next
    case Rejected(ValidationError(first, _)) => SendError(400, first)
    case Rejected(OtherError(_)) => SendError(400, INVALID_BODY)
  }

  /** `validateRequest` of the untyped iteration: any error that carries an
      `errors` list answers 400 with its first message; reading the first
      message of an empty list throws. */
  function ValidateRequestJs(o: ParseOutcome): (r: Response)
    ensures r.Next? <==> o.Parsed?
    ensures r.Escaped? <==> o == Rejected(OtherError(Some([])))
    ensures !r.Next? && !r.Escaped? ==> r.SendError? && r.status == 400
    ensures o.Rejected? && o.error.ValidationError? ==> r == SendError(400, o.error.first)
    ensures o == Rejected(OtherError(None)) ==> r == SendError(400, INVALID_BODY)
  {
    match o
    case Parsed => Next
    case Rejected(ValidationError(first, _)) => SendError(400, first)
    case Rejected(OtherError(None)) => SendError(400, INVALID_BODY)
    case Rejected(OtherError(Some(errors))) =>
      if |errors| == 0 then Escaped else SendError(400, errors[0])
  }

  /** The two iterations answer alike except for a non-schema error that
      carries an `errors` list. */
  lemma ValidateRequestVariantsAgree(o: ParseOutcome)
    ensures ValidateRequestJs(o) != ValidateRequestTs(o) ==>
      o.Rejected? && o.error.OtherError? && o.error.errors.Some?
    ensures o == Rejected(OtherError(Some(["boom"]))) ==>
      ValidateRequestTs(o) == SendError(400, INVALID_BODY) && ValidateRequestJs(o) == SendError(400, "boom")
  {
  }

  /** For a schema of this gateway, the middleware passes the request on
      exactly when the schema accepts the body, and otherwise answers 400 with
      the first issue's message, in both iterations. */
  lemma ValidateRequestFollowsSchema(v: Verdict)
    ensures ValidateRequestTs(ParseAsync(v)) == ValidateRequestJs(ParseAsync(v))
    ensures ValidateRequestTs(ParseAsync(v)) == if v.Valid? then Next else SendError(400, v.message)
  {
  }
}
