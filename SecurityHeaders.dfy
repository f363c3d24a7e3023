/**
 * The HTTP middleware of the security-hardened API, which adds four fixed
 * security headers to every response. Headers are kept as Starlette's
 * mutable header collection keeps them: under the lower-cased name, an
 * assignment replacing whatever the name held before.
 */
module SecurityHeaders {

  function LowerChar(c: char): char {
    if 'A' <= c <= 'Z' then (c as int + 32) as char else c
  }

  predicate IsLower(s: string) {
    forall i :: 0 <= i < |s| ==> !('A' <= s[i] <= 'Z')
  }

  /** ASCII lower-casing of a header name. */
  function Lower(s: string): (r: string)
    ensures |r| == |s| && IsLower(r)
    ensures IsLower(s) ==> r == s
    ensures forall i :: 0 <= i < |s| ==>
              r[i] == s[i] || ('A' <= s[i] <= 'Z' && r[i] as int == s[i] as int + 32)
  {
    seq(|s|, i requires 0 <= i < |s| => LowerChar(s[i]))
  }

  /** The names the middleware assigns are, lower-cased, the keys of SECURITY_HEADERS. */
  lemma SecurityHeaderNames()
    ensures Lower("X-Content-Type-Options") == "x-content-type-options"
    ensures Lower("X-Frame-Options") == "x-frame-options"
    ensures Lower("X-XSS-Protection") == "x-xss-protection"
    ensures Lower("Strict-Transport-Security") == "strict-transport-security"
  {
    LowerLiteral("X-Content-Type-Options", "x-content-type-options");
    LowerLiteral("X-Frame-Options", "x-frame-options");
    LowerLiteral("X-XSS-Protection", "x-xss-protection");
    LowerLiteral("Strict-Transport-Security", "strict-transport-security");
  }

  lemma LowerLiteral(s: string, t: string)
    requires |s| == |t| && forall i :: 0 <= i < |s| ==> LowerChar(s[i]) == t[i]
    ensures Lower(s) == t
  {
  }

  /** The four headers, by lower-cased name. */
  const SECURITY_HEADERS: map<string, string> := map[
    "x-content-type-options" := "nosniff",
    "x-frame-options" := "DENY",
    "x-xss-protection" := "1; mode=block",
    "strict-transport-security" := "max-age=31536000; includeSubDomains"
  ]

  /** A header map after the middleware: the four set, every other header as it was. */
  function Secured(headers: map<string, string>): (r: map<string, string>)
    ensures forall k :: k in SECURITY_HEADERS ==> k in r && r[k] == SECURITY_HEADERS[k]
    ensures forall k :: k !in SECURITY_HEADERS ==> (k in r <==> k in headers)
    ensures forall k :: k !in SECURITY_HEADERS && k in headers ==> r[k] == headers[k]
  {
    headers + SECURITY_HEADERS
  }

  /** The four assignments, one after the other, give the secured map. */
  lemma SecuredByAssignments(headers: map<string, string>)
    ensures Secured(headers) ==
              headers["x-content-type-options" := "nosniff"]
                     ["x-frame-options" := "DENY"]
                     ["x-xss-protection" := "1; mode=block"]
                     ["strict-transport-security" := "max-age=31536000; includeSubDomains"]
  {
  }

  /** Running the middleware twice gives the same headers as running it once. */
  lemma SecuredIdempotent(headers: map<string, string>)
    ensures Secured(Secured(headers)) == Secured(headers)
  {
  }

  /**
   * A response's header collection. The framework stores every header name
   * lower-cased, whether the endpoint or an assignment put it there; `Valid`
   * records that. A response starts with no headers, and names enter only
   * through `SetHeader`, which folds them.
   */
  class Response {
    var headers: map<string, string>

    constructor ()
      ensures Valid() && headers == map[]
    {
      headers := map[];
    }

    ghost predicate Valid()
      reads this
    {
      forall k :: k in headers ==> IsLower(k)
    }

    /** `response.headers[name] = value` */
    method SetHeader(name: string, value: string)
      requires Valid()
      modifies this
      ensures Valid()
      ensures headers == old(headers)[Lower(name) := value]
    {
      headers := headers[Lower(name) := value];
    }
  }

  /** `add_security_headers`, applied to the response the rest of the app produced. */
  method AddSecurityHeaders(response: Response)
    requires response.Valid()
    modifies response
    ensures response.Valid()
    ensures response.headers == Secured(old(response.headers))
  {
    SecurityHeaderNames();
    SecuredByAssignments(response.headers);
    response.SetHeader("X-Content-Type-Options", "nosniff");
    response.SetHeader("X-Frame-Options", "DENY");
    response.SetHeader("X-XSS-Protection", "1; mode=block");
    response.SetHeader("Strict-Transport-Security", "max-age=31536000; includeSubDomains");
  }
}
