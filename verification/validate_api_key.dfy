/** The API-key gate in front of both measurement routes (the same code in
    both iterations). The header lookup and the configuration loading are
    outside the model: the header's value and the configured key are
    parameters. */
module ValidateApiKey {
  import opened Wrappers
  import opened Http

  const API_KEY_REQUIRED := "API key is required"
  const INVALID_API_KEY := "Invalid API key"

  /** `validateApiKey`: a missing or empty key answers 401 first; a key that
      differs from the configured one answers 401 next; an exact match passes
      control on and sends nothing. */
  function ValidateApiKey(header: Option<string>, configured: string): (r: Response)
    ensures r.Next? <==> header.Some? && header.value != "" && header.value == configured
    ensures r == SendError(401, API_KEY_REQUIRED) <==> header.None? || header.value == ""
    ensures r == SendError(401, INVALID_API_KEY) <==> header.Some? && header.value != "" && header.value != configured
  {
    if header.None? || header.value == "" then SendError(401, API_KEY_REQUIRED)
    else if header.value != configured then SendError(401, INVALID_API_KEY)
    else Next
  }

  /** Exactly one of the three outcomes happens. */
  lemma ApiKeyOneOutcome(header: Option<string>, configured: string)
    ensures var r := ValidateApiKey(header, configured);
      r in {Next, SendError(401, API_KEY_REQUIRED), SendError(401, INVALID_API_KEY)}
  {
  }
}
