/**
 * The request checks of the security-hardened API: bearer-token lookup in a
 * fixed key table, the five-minute replay window on an optional timestamp,
 * and the `/secure-process` endpoint that combines them. `int(time.time())`
 * is the parameter `now`; the salted PBKDF2 digest of the data is the
 * parameter `digest`, `None` when the data cannot be encoded as UTF-8
 * (a lone surrogate) and hashing raises.
 */
module SecureApi {
  import opened Wrappers

  const API_KEYS: map<string, string> := map[
    "demo_key_123" := "demo_user",
    "secure_key_456" := "admin_user"
  ]

  /** Largest accepted distance, in seconds, between a request's timestamp and the server clock. */
  const REPLAY_WINDOW := 300

  const RESULT_PREFIX := "Securely processed: "

  datatype HttpError = HttpError(status: int, detail: string, headers: map<string, string>)

  datatype SecureRequest = SecureRequest(data: string, timestamp: Option<int>)

  datatype SecureResponse = SecureResponse(result: string, processedAt: int, securityLevel: string)

  const INVALID_KEY := HttpError(401, "Invalid API key", map["WWW-Authenticate" := "Bearer"])
  const PROCESSING_FAILED := HttpError(500, "Secure processing failed", map[])

  /** `verify_api_key`: the user a bearer token belongs to, or 401. */
  function VerifyApiKey(token: string): (r: Result<string, HttpError>)
    ensures r.Success? <==> token in API_KEYS
    ensures r.Success? ==> r.value == API_KEYS[token]
    ensures r.Failure? ==> r.error == INVALID_KEY
  {
    if token !in API_KEYS then Failure(INVALID_KEY) else Success(API_KEYS[token])
  }

  lemma KnownTokens()
    ensures VerifyApiKey("demo_key_123") == Success("demo_user")
    ensures VerifyApiKey("secure_key_456") == Success("admin_user")
  {
  }

  function Abs(x: int): nat {
    if x < 0 then -x else x
  }

  /**
   * The replay check: a timestamp that is given and truthy (non-zero) is
   * refused when it lies more than the window away from the clock; a
   * missing or zero timestamp is never checked.
   */
  predicate Stale(timestamp: Option<int>, now: int) {
    timestamp.Some? && timestamp.value != 0 && Abs(now - timestamp.value) > REPLAY_WINDOW
  }

  /** A timestamp is refused exactly when it is given, non-zero and outside [now - 300, now + 300]. */
  lemma StaleWindow(timestamp: Option<int>, now: int)
    ensures Stale(timestamp, now) <==>
              timestamp.Some? && timestamp.value != 0 &&
              (timestamp.value < now - REPLAY_WINDOW || now + REPLAY_WINDOW < timestamp.value)
  {
  }

  /** `/secure-process` once authentication has succeeded. */
  function SecureProcess(req: SecureRequest, now: int, digest: Option<string>)
    : (r: Result<SecureResponse, HttpError>)
    ensures r.Success? <==> !Stale(req.timestamp, now) && digest.Some?
    ensures r.Success? ==> r.value.processedAt == now && r.value.securityLevel == "high"
                           && RESULT_PREFIX <= r.value.result
                           && r.value.result[|RESULT_PREFIX|..] == digest.value
    ensures r.Failure? ==> r.error == PROCESSING_FAILED
  {
    // The 400 for a stale timestamp and the encoding error of hashing are both
    // raised inside the `try` and replaced by the 500.
    if Stale(req.timestamp, now) then Failure(PROCESSING_FAILED)
    else if digest.None? then Failure(PROCESSING_FAILED)
    else Success(SecureResponse(RESULT_PREFIX + digest.value, now, "high"))
  }

  /** The endpoint with its `verify_api_key` dependency, which runs first and outside the `try`. */
  function HandleSecureProcess(token: string, req: SecureRequest, now: int, digest: Option<string>)
    : (r: Result<SecureResponse, HttpError>)
    ensures token !in API_KEYS ==> r == Failure(INVALID_KEY)
    ensures token in API_KEYS ==> r == SecureProcess(req, now, digest)
  {
    match VerifyApiKey(token)
    case Failure(e) => Failure(e)
    case Success(_) => SecureProcess(req, now, digest)
  }

  /** No request gets the 400 the replay check raises: an authenticated request fails only with 500. */
  lemma NoBadRequest(token: string, req: SecureRequest, now: int, digest: Option<string>)
    ensures HandleSecureProcess(token, req, now, digest).Failure? ==>
              HandleSecureProcess(token, req, now, digest).error.status in {401, 500}
    ensures token in API_KEYS && HandleSecureProcess(token, req, now, digest).Failure? ==>
              HandleSecureProcess(token, req, now, digest).error.status == 500
  {
  }

  /** The window is closed: a skew of exactly 300 seconds either way passes, 301 does not. */
  lemma WindowBoundary(now: int, data: string, digest: string)
    requires now - REPLAY_WINDOW - 1 != 0 && now + REPLAY_WINDOW + 1 != 0
    ensures SecureProcess(SecureRequest(data, Some(now - REPLAY_WINDOW)), now, Some(digest)).Success?
    ensures SecureProcess(SecureRequest(data, Some(now + REPLAY_WINDOW)), now, Some(digest)).Success?
    ensures SecureProcess(SecureRequest(data, Some(now - REPLAY_WINDOW - 1)), now, Some(digest)).Failure?
    ensures SecureProcess(SecureRequest(data, Some(now + REPLAY_WINDOW + 1)), now, Some(digest)).Failure?
  {
  }

  /** Without a timestamp, or with timestamp 0, any clock value is accepted. */
  lemma MissingTimestampSkipsCheck(now: int, data: string, digest: string)
    ensures SecureProcess(SecureRequest(data, None), now, Some(digest)).Success?
    ensures SecureProcess(SecureRequest(data, Some(0)), now, Some(digest)).Success?
  {
  }
}
