/**
 * The Python audit service: `AuditHandler.do_GET`'s path dispatch and
 * `do_POST`'s validation and stamping of an audit event. Clock readings and
 * the configured version are parameters; the response written to the socket
 * is the returned `Response`.
 */
module Audit {
  import opened Wrappers
  import opened Json

  datatype Body =
    | Health(status: string, timestamp: string)
    | Version(version: string, service: string, language: string)
    | Ready(ready: bool, checks: map<string, string>)
    | Error(error: string)
    | MissingFields(error: string, missing: seq<string>)
    | Recorded(status: string, auditId: string)

  datatype Response = Response(code: int, body: Body)

  const NotFound: Response := Response(404, Error("Not found"))

  // ------------------------------------------------------------------------
  // GET
  // ------------------------------------------------------------------------

  /** `do_GET`: three fixed paths, everything else not found. */
  function DoGet(path: string, version: string, timestamp: string): (r: Response)
    ensures r.code == 200 <==> path in {"/health", "/version", "/ready"}
    ensures r.code != 200 ==> r == NotFound
    ensures path == "/health" ==> r.body == Health("healthy", timestamp)
    ensures path == "/version" ==> r.body == Version(version, "audit-service", "python")
    ensures path == "/ready" ==> r.body == Ready(true, map["database" := "ok", "queue" := "ok"])
  {
    if path == "/health" then Response(200, Health("healthy", timestamp))
    else if path == "/version" then Response(200, Version(version, "audit-service", "python"))
    else if path == "/ready" then Response(200, Ready(true, map["database" := "ok", "queue" := "ok"]))
    else NotFound
  }

  // ------------------------------------------------------------------------
  // The required-field check
  // ------------------------------------------------------------------------

  const RequiredFields: seq<string> := ["action", "actor", "resource"]

  predicate IsSubstring(k: string, s: string) {
    exists i :: 0 <= i <= |s| && k <= s[i..]
  }

  /** The documents Python's `in` can search: a dict (by key), a list (by element), a str (by substring). */
  predicate Searchable(v: Value) {
    v.Object? || v.Array? || v.String?
  }

  /**
   * Python's `key in container` on a decoded JSON document; `None` is the
   * TypeError that `in` raises on a number, a boolean or None.
   */
  function Contains(container: Value, key: string): (r: Option<bool>)
    ensures r.Some? <==> Searchable(container)
    ensures container.Object? ==> r == Some(key in container.fields)
  {
    match container
    case Object(fields) => Some(key in fields)
    case Array(items) => Some(String(key) in items)
    case String(s) => Some(IsSubstring(key, s))
    case _ => None
  }

  /**
   * `[f for f in required if f not in event]` on a document `in` can search:
   * the fields of `required` the document lacks, in the order of `required`.
   */
  function Absent(required: seq<string>, event: Value): (r: seq<string>)
    requires Searchable(event)
    ensures |r| <= |required|
    ensures forall f :: f in r ==> f in required
    ensures event.Object? ==> forall f :: f in r <==> f in required && f !in event.fields
  {
    if required == [] then []
    else (if Contains(event, required[0]).value then [] else [required[0]]) + Absent(required[1..], event)
  }

  /**
   * The comprehension as a whole: on a document `in` cannot search, its first
   * test raises (`None`); there is no test, and no error, when nothing is required.
   */
  function Missing(required: seq<string>, event: Value): (r: Option<seq<string>>)
    ensures r.None? <==> required != [] && !Searchable(event)
  {
    if required == [] then Some([])
    else if !Searchable(event) then None
    else Some(Absent(required, event))
  }

  /** The comprehension keeps the order of `required`: it distributes over concatenation. */
  lemma {:induction false} AbsentAppend(a: seq<string>, b: seq<string>, event: Value)
    requires Searchable(event)
    ensures Absent(a + b, event) == Absent(a, event) + Absent(b, event)
  {
    if a == [] {
      assert a + b == b;
    } else {
      assert (a + b)[0] == a[0];
      assert (a + b)[1..] == a[1..] + b;
      AbsentAppend(a[1..], b, event);
    }
  }

  /** For a dict event: the missing fields are those of action, actor, resource that are absent, in that order. */
  lemma MissingRequired(fields: map<string, Value>)
    ensures Missing(RequiredFields, Object(fields)) ==
              Some((if "action" in fields then [] else ["action"])
                 + (if "actor" in fields then [] else ["actor"])
                 + (if "resource" in fields then [] else ["resource"]))
  {
    var e := Object(fields);
    var tail1, tail2 := ["actor", "resource"], ["resource"];
    assert RequiredFields[1..] == tail1 && tail1[1..] == tail2 && tail2[1..] == [];
    var a3 := Absent(tail2, e);
    assert a3 == (if "resource" in fields then [] else ["resource"]);
    var a2 := Absent(tail1, e);
    assert a2 == (if "actor" in fields then [] else ["actor"]) + a3;
    var a1 := if "action" in fields then [] else ["action"];
    assert Absent(RequiredFields, e) == a1 + a2;
    assert a1 + ((if "actor" in fields then [] else ["actor"]) + a3)
        == (a1 + (if "actor" in fields then [] else ["actor"])) + a3;
  }

  // ------------------------------------------------------------------------
  // POST
  // ------------------------------------------------------------------------

  /** The request body after `body.decode('utf-8')` and `json.loads`. */
  datatype Payload =
    | Parsed(event: Value)
    | InvalidJson  // json.JSONDecodeError, which the handler catches
    | InvalidUtf8  // UnicodeDecodeError, which it does not

  datatype Outcome =
    | Respond(response: Response)
    | Unhandled  // an exception escapes `do_POST` and no response is written

  /**
   * `do_POST`. `timestamp` is `datetime.utcnow().isoformat()` and `stamp` the
   * `%Y%m%d%H%M%S%f` rendering of the second clock reading. `logged` is the
   * stamped event the handler logs.
   */
  method DoPost(path: string, payload: Payload, timestamp: string, stamp: string)
    returns (outcome: Outcome, logged: Option<map<string, Value>>)
    ensures path != "/audit" ==> outcome == Respond(NotFound) && logged == None
    ensures logged.Some? <==> outcome.Respond? && outcome.response.code == 201
    ensures path == "/audit" && payload == InvalidJson ==> outcome == Respond(Response(400, Error("Invalid JSON")))
    ensures outcome == Unhandled <==>
              && path == "/audit"
              && (|| payload == InvalidUtf8
                  || (&& payload.Parsed? && !payload.event.Object?
                      && Missing(RequiredFields, payload.event) in {None, Some([])}))
    ensures path == "/audit" && payload.Parsed? && payload.event.Object? ==>
              outcome.Respond? &&
              (outcome.response.code == 400 <==> exists f :: f in RequiredFields && f !in payload.event.fields)
    ensures outcome.Respond? && outcome.response.code == 400 && payload.Parsed? ==>
              outcome.response.body == MissingFields("Missing required fields", Missing(RequiredFields, payload.event).value)
              && Missing(RequiredFields, payload.event).value != []
              && logged == None
    ensures (&& path == "/audit" && payload.Parsed?
             && Missing(RequiredFields, payload.event).Some? && Missing(RequiredFields, payload.event).value != [])
            ==> outcome == Respond(Response(400, MissingFields("Missing required fields",
                                                              Missing(RequiredFields, payload.event).value)))
                && logged == None
    ensures outcome.Respond? && outcome.response.code == 201 <==>
              && path == "/audit" && payload.Parsed? && payload.event.Object?
              && forall f :: f in RequiredFields ==> f in payload.event.fields
    ensures outcome.Respond? && outcome.response.code == 201 ==>
              && outcome.response.body == Recorded("recorded", "audit-" + stamp)
              && logged.Some?
              && logged.value.Keys == payload.event.fields.Keys + {"timestamp", "id"}
              && logged.value["timestamp"] == String(timestamp)
              && logged.value["id"] == String("audit-" + stamp)
              && forall k :: k in payload.event.fields && k !in {"timestamp", "id"} ==>
                               logged.value[k] == payload.event.fields[k]
  {
    logged := None;
    if path != "/audit" {
      return Respond(NotFound), logged;
    }
    match payload {
      case InvalidUtf8 =>
        outcome := Unhandled;
      case InvalidJson =>
        outcome := Respond(Response(400, Error("Invalid JSON")));
      case Parsed(auditEvent) =>
        var missing := Missing(RequiredFields, auditEvent);
        if missing.None? {
          return Unhandled, logged;
        }
        if missing.value != [] {
          assert missing.value[0] in missing.value;
          return Respond(Response(400, MissingFields("Missing required fields", missing.value))), logged;
        }
        if !auditEvent.Object? {
          return Unhandled, logged;
        }
        var fields := auditEvent.fields;
        fields := fields["timestamp" := String(timestamp)];
        fields := fields["id" := String("audit-" + stamp)];
        logged := Some(fields);
        outcome := Respond(Response(201, Recorded("recorded", fields["id"].s)));
    }
  }
}
