/**
 * The health routes of the Express application: the liveness probes, and the
 * process-wide readiness flag that GET /health/ready reports and
 * POST /health/ready sets. Clock readings and the process uptime are passed in.
 */
module Health {
  import opened Wrappers
  import opened Json

  datatype Body =
    | Liveness(status: string, timestamp: string, uptime: real)  // GET /health
    | Probe(status: string, timestamp: string)                    // GET /health/live, GET /health/ready
    | Toggled(status: string, message: string)                    // POST /health/ready, accepted
    | Rejected(error: string, message: string)                    // POST /health/ready, refused

  datatype Response = Response(code: int, body: Body)

  datatype Request =
    | GetHealth(timestamp: string, uptime: real)
    | GetLive(timestamp: string)
    | GetReady(timestamp: string)
    | PostReady(ready: Option<Value>)  // the `ready` field of the body; `None` is undefined

  /** The status word for a flag value. */
  function ReadyText(flag: bool): string {
    if flag then "ready" else "not ready"
  }

  /** How a template literal renders a boolean. */
  function BoolText(b: bool): string {
    if b then "true" else "false"
  }

  /** `typeof ready === 'boolean'` */
  predicate IsBoolean(v: Option<Value>) {
    v.Some? && v.value.Bool?
  }

  /**
   * One request against the readiness flag: the flag afterwards and the response.
   * Only a POST whose `ready` is a boolean changes the flag, and it sets it to
   * exactly that value; the readiness probe answers 200 exactly when the flag is
   * set; the liveness probes always answer 200.
   */
  function Step(flag: bool, req: Request): (r: (bool, Response))
    ensures r.0 != flag ==> req.PostReady? && req.ready == Some(Bool(r.0))
    ensures req.PostReady? && IsBoolean(req.ready) ==>
              && r.0 == req.ready.value.b
              && r.1.code == 200
              && r.1.body == Toggled(ReadyText(r.0), "Readiness set to " + BoolText(r.0))
    ensures req.PostReady? && !IsBoolean(req.ready) ==>
              r.1 == Response(400, Rejected("Invalid request", "Body must contain { ready: boolean }"))
    ensures req.GetReady? ==> (r.1.code == 200 <==> flag) && (r.1.code == 503 <==> !flag)
    ensures req.GetReady? ==> r.1.body == Probe(ReadyText(flag), req.timestamp)
    ensures req.GetHealth? ==> r.1 == Response(200, Liveness("healthy", req.timestamp, req.uptime))
    ensures req.GetLive? ==> r.1 == Response(200, Probe("alive", req.timestamp))
  {
    match req
    case GetHealth(timestamp, uptime) => (flag, Response(200, Liveness("healthy", timestamp, uptime)))
    case GetLive(timestamp) => (flag, Response(200, Probe("alive", timestamp)))
    case GetReady(timestamp) =>
      if flag then (flag, Response(200, Probe("ready", timestamp)))
      else (flag, Response(503, Probe("not ready", timestamp)))
    case PostReady(ready) =>
      if IsBoolean(ready) then
        var flag' := ready.value.b;
        (flag', Response(200, Toggled(ReadyText(flag'), "Readiness set to " + BoolText(flag'))))
      else
        (flag, Response(400, Rejected("Invalid request", "Body must contain { ready: boolean }")))
  }

  /** The flag after serving `reqs` in order. */
  function Run(flag: bool, reqs: seq<Request>): bool
    decreases |reqs|
  {
    if reqs == [] then flag else Run(Step(flag, reqs[0]).0, reqs[1..])
  }

  /** The `ready` value of the last POST that carried a boolean, if any. */
  function LastBoolean(reqs: seq<Request>): Option<bool>
    decreases |reqs|
  {
    if reqs == [] then None
    else
      var last := reqs[|reqs| - 1];
      if last.PostReady? && IsBoolean(last.ready) then Some(last.ready.value.b)
      else LastBoolean(reqs[..|reqs| - 1])
  }

  lemma {:induction false} RunLast(flag: bool, reqs: seq<Request>)
    requires reqs != []
    ensures Run(flag, reqs) == Step(Run(flag, reqs[..|reqs| - 1]), reqs[|reqs| - 1]).0
    decreases |reqs|
  {
    if |reqs| > 1 {
      assert reqs[1..][..|reqs| - 2] == reqs[..|reqs| - 1][1..];
      RunLast(Step(flag, reqs[0]).0, reqs[1..]);
    }
  }

  /**
   * Whatever the requests, the flag ends as the last boolean posted, or as it
   * started when none was.
   */
  lemma {:induction false} RunIsLastBoolean(flag: bool, reqs: seq<Request>)
    ensures Run(flag, reqs) == if LastBoolean(reqs).Some? then LastBoolean(reqs).value else flag
    decreases |reqs|
  {
    if reqs != [] {
      RunLast(flag, reqs);
      RunIsLastBoolean(flag, reqs[..|reqs| - 1]);
    }
  }

  /** The module-level `isReady` variable and the routes that read and write it. */
  class Readiness {
    var isReady: bool

    /** `let isReady = true` */
    constructor ()
      ensures isReady
    {
      isReady := true;
    }

    /** GET /health */
    method Health(timestamp: string, uptime: real) returns (r: Response)
      ensures r == Step(isReady, GetHealth(timestamp, uptime)).1
      ensures r.code == 200 && r.body.status == "healthy"
    {
      r := Response(200, Liveness("healthy", timestamp, uptime));
    }

    /** GET /health/live */
    method Live(timestamp: string) returns (r: Response)
      ensures r == Step(isReady, GetLive(timestamp)).1
      ensures r.code == 200 && r.body.status == "alive"
    {
      r := Response(200, Probe("alive", timestamp));
    }

    /** GET /health/ready */
    method Ready(timestamp: string) returns (r: Response)
      ensures r == Step(isReady, GetReady(timestamp)).1
      ensures r.code == (if isReady then 200 else 503)
    {
      if isReady {
        r := Response(200, Probe("ready", timestamp));
      } else {
        r := Response(503, Probe("not ready", timestamp));
      }
    }

    /** POST /health/ready */
    method SetReady(ready: Option<Value>) returns (r: Response)
      modifies this
      ensures (isReady, r) == Step(old(isReady), PostReady(ready))
    {
      if IsBoolean(ready) {
        isReady := ready.value.b;
        r := Response(200, Toggled(ReadyText(isReady), "Readiness set to " + BoolText(isReady)));
      } else {
        r := Response(400, Rejected("Invalid request", "Body must contain { ready: boolean }"));
      }
    }
  }

  /** The sequence of the readiness tests: ready by default, set false, 503, set true, refuse a string. */
  method ReadinessToggles()
  {
    var health := new Readiness();
    var r := health.Ready("t0");
    assert r.code == 200;
    r := health.SetReady(Some(Bool(false)));
    assert r.code == 200 && r.body.status == "not ready";
    r := health.Ready("t1");
    assert r.code == 503 && r.body.status == "not ready";
    r := health.SetReady(Some(Bool(true)));
    assert r.body.status == "ready";
    r := health.SetReady(Some(String("invalid")));
    assert r.code == 400 && r.body.error == "Invalid request" && health.isReady;
  }
}
