/**
 * The Go notification service: the decisions of `healthHandler`,
 * `versionHandler` and `notifyHandler`. Each handler is a function from the
 * request to the status code and JSON body it writes; the clock readings and
 * the configured version are parameters.
 */
module Notifications {
  import opened Json

  /** A notification request as `json.Decoder` fills it: absent fields are "". */
  datatype NotificationRequest = NotificationRequest(
    kind: string,  // the `type` field: email, webhook or sms
    recipient: string,
    subject: string,
    body: string,
    metadata: map<string, Value>)

  /** The outcome of decoding the request body. */
  datatype Decoded =
    | Decoded(req: NotificationRequest)
    | Malformed(details: string)  // the decoder's error text

  datatype Body =
    | Error(error: string, details: string)  // `details` is omitted from the JSON when ""
    | Health(status: string, timestamp: string)
    | Version(version: string, service: string, language: string)
    | Queued(status: string, notificationId: string, timestamp: string)

  datatype Response = Response(code: int, body: Body)

  const MethodNotAllowed: Response := Response(405, Error("Method not allowed", ""))

  const MissingFields: Response := Response(400, Error("Missing required fields: type, recipient, body", ""))

  const InvalidType: Response := Response(400, Error("Invalid notification type. Must be: email, webhook, or sms", ""))

  // ------------------------------------------------------------------------
  // `fmt.Sprintf("%d", n)` and its inverse
  // ------------------------------------------------------------------------

  predicate IsDigit(c: char) {
    '0' <= c <= '9'
  }

  function Digit(d: nat): (c: char)
    requires d < 10
    ensures IsDigit(c)
  {
    ('0' as int + d) as char
  }

  /** The decimal digits of n, most significant first, with no leading zero. */
  function FormatNat(n: nat): (s: string)
    ensures |s| >= 1 && forall i :: 0 <= i < |s| ==> IsDigit(s[i])
    ensures s[0] == '0' ==> n == 0
  {
    if n < 10 then [Digit(n)] else FormatNat(n / 10) + [Digit(n % 10)]
  }

  /** `%d`: a minus sign before the digits of a negative number. */
  function FormatInt(n: int): string {
    if n < 0 then "-" + FormatNat(-n) else FormatNat(n)
  }

  function ParseNat(s: string): nat
    requires forall i :: 0 <= i < |s| ==> IsDigit(s[i])
  {
    if s == [] then 0
    else
      assert IsDigit(s[|s| - 1]);
      ParseNat(s[..|s| - 1]) * 10 + (s[|s| - 1] as int - '0' as int)
  }

  function ParseInt(s: string): int
    requires |s| >= 1
    requires s[0] == '-' || IsDigit(s[0])
    requires forall i :: 1 <= i < |s| ==> IsDigit(s[i])
  {
    if s[0] == '-' then -(ParseNat(s[1..]) as int) else ParseNat(s)
  }

  lemma {:induction false} ParseFormatNat(n: nat)
    ensures ParseNat(FormatNat(n)) == n
  {
    if n >= 10 {
      var s := FormatNat(n);
      assert s[..|s| - 1] == FormatNat(n / 10);
      ParseFormatNat(n / 10);
    }
  }

  /** Formatting loses nothing: the number can be read back from its text. */
  lemma ParseFormatInt(n: int)
    ensures var s := FormatInt(n);
            |s| >= 1 && (s[0] == '-' || IsDigit(s[0])) && (forall i :: 1 <= i < |s| ==> IsDigit(s[i]))
            && ParseInt(s) == n
  {
    if n < 0 {
      ParseFormatNat(-n);
      assert FormatInt(n)[1..] == FormatNat(-n);
    } else {
      ParseFormatNat(n);
    }
  }

  /** `fmt.Sprintf("notif-%d", nanos)`: the prefix, then digits that read back to the clock reading. */
  function NotificationId(nanos: int): (id: string)
    ensures |id| > 6 && id[..6] == "notif-"
    ensures var d := id[6..];
            && (d[0] == '-' || IsDigit(d[0])) && (forall i :: 1 <= i < |d| ==> IsDigit(d[i]))
            && ParseInt(d) == nanos
  {
    ParseFormatInt(nanos);
    var id := "notif-" + FormatInt(nanos);
    assert id[6..] == FormatInt(nanos);
    id
  }

  /** Two distinct clock readings never give the same notification id. */
  lemma NotificationIdInjective(a: int, b: int)
    requires NotificationId(a) == NotificationId(b)
    ensures a == b
  {
    var prefix := "notif-";
    assert FormatInt(a) == NotificationId(a)[|prefix|..];
    assert FormatInt(b) == NotificationId(b)[|prefix|..];
    ParseFormatInt(a);
    ParseFormatInt(b);
  }

  // ------------------------------------------------------------------------
  // Handlers
  // ------------------------------------------------------------------------

  /** `validTypes` */
  const ValidTypes: map<string, bool> := map["email" := true, "webhook" := true, "sms" := true]

  /** `validTypes[t]`: a missing key reads as false. */
  function ValidType(t: string): bool {
    t in ValidTypes && ValidTypes[t]
  }

  /** GET /health */
  function HealthHandler(verb: string, timestamp: string): (r: Response)
    ensures r.code == 405 <==> verb != "GET"
    ensures verb != "GET" ==> r == MethodNotAllowed
    ensures verb == "GET" ==> r == Response(200, Health("healthy", timestamp))
  {
    if verb != "GET" then MethodNotAllowed
    else Response(200, Health("healthy", timestamp))
  }

  /** GET /version; `version` is the configured version. */
  function VersionHandler(verb: string, version: string): (r: Response)
    ensures r.code == 405 <==> verb != "GET"
    ensures verb != "GET" ==> r == MethodNotAllowed
    ensures verb == "GET" ==> r == Response(200, Version(version, "notification-service", "go"))
  {
    if verb != "GET" then MethodNotAllowed
    else Response(200, Version(version, "notification-service", "go"))
  }

  /**
   * POST /notify: the verb is checked, then the body decoded, then the three
   * required fields, then the type; the first failure is the answer. `nanos`
   * is `time.Now().UnixNano()` and `timestamp` the RFC 3339 clock reading.
   */
  function NotifyHandler(verb: string, body: Decoded, nanos: int, timestamp: string): (r: Response)
    ensures verb != "POST" ==> r == MethodNotAllowed
    ensures verb == "POST" && body.Malformed? ==> r == Response(400, Error("Invalid JSON", body.details))
    ensures (&& verb == "POST" && body.Decoded?
             && (body.req.kind == "" || body.req.recipient == "" || body.req.body == ""))
            ==> r == MissingFields
    ensures (&& verb == "POST" && body.Decoded?
             && body.req.kind != "" && body.req.recipient != "" && body.req.body != ""
             && body.req.kind !in {"email", "webhook", "sms"})
            ==> r == InvalidType
    ensures r.code == 202 <==>
              && verb == "POST" && body.Decoded?
              && body.req.recipient != "" && body.req.body != ""
              && body.req.kind in {"email", "webhook", "sms"}
    ensures r.code == 202 ==> r.body == Queued("queued", NotificationId(nanos), timestamp)
    ensures r.code in {202, 400, 405}
  {
    if verb != "POST" then MethodNotAllowed
    else match body
      case Malformed(details) => Response(400, Error("Invalid JSON", details))
      case Decoded(req) =>
        if req.kind == "" || req.recipient == "" || req.body == "" then MissingFields
        else if !ValidType(req.kind) then InvalidType
        else Response(202, Queued("queued", NotificationId(nanos), timestamp))
  }
}
