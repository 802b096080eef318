/** What an Express middleware or route handler does with a request. */
module Http {
  import opened JsValue

  datatype Response =
    | Next                                    // `next()`: control passes to the following handler
    | SendError(status: int, message: string) // `res.status(status).json({ error: message })`
    | SendJson(body: Body)                    // status 200 with the given object as JSON
    | SendStatus(status: int)                 // `res.sendStatus(status)`
    | Escaped                                 // an exception left the handler; this code sent nothing

  /** Exceptions raised inside the handlers. */
  datatype Thrown =
    | Error(message: string) // `throw new Error(message)`
    | TypeError              // a method called on a value that does not have it
    | WriteError             // the time-series client rejected a write

  /** The 500 message of both measurement routes. */
  const STORE_FAILED := "Failed to store measurements"
  /** The first message of both hand-written validators. */
  const TAGS_NON_EMPTY := "tags must be a non-empty array"
}
