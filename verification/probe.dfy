/** The connectivity prober: `test_lavalink_connection(host, port, password)`
    opens a WebSocket to the node, sends one info request, waits for one
    frame and reports a structured success or failure; the
    `/api/lavalink/test-connection` route validates its body first. The
    network is abstract: each step of the probe is given as an outcome. */
module Prober {
  import opened Outcomes
  import opened JsonValues
  import opened Http
  import PyText

  const Scheme := "ws://"
  const Path := "/websocket"
  const UserAgent := "Lavalink-Dashboard-Tester/1.0"
  const TimeoutSeconds := 5
  /** `json.dumps({"op": "info", "reconnect": False})`. */
  const InfoRequest := "{\"op\": \"info\", \"reconnect\": false}"
  const RouteKeys: seq<string> := ["host", "port", "password"]
  const InvalidDetails := Single("error", "Invalid connection details")

  /** `f"ws://{host}:{port}/websocket"`; None when host or port is a list or
      dict, whose `repr` the model does not render. */
  function Url(host: Json, port: Json): (r: Option<string>)
    ensures r.Some? <==> PyText.Str(host).Some? && PyText.Str(port).Some?
    ensures r.Some? ==> && |r.value| >= |Scheme| + |Path|
                        && r.value[..|Scheme|] == Scheme
                        && r.value[|r.value| - |Path|..] == Path
  {
    match (PyText.Str(host), PyText.Str(port))
    case (Some(h), Some(p)) => Some(Scheme + h + ":" + p + Path)
    case _ => None
  }

  /** The connection the probe asks for. */
  datatype Handshake = Handshake(url: Option<string>, authorization: Json, userAgent: string,
                                 timeout: int, request: string)

  /** The password travels unchanged as the `Authorization` header; with a
      str host and an int port, host and port text can be read back from
      the URL with `SplitUrl`. */
  function HandshakeFor(host: Json, port: Json, password: Json): (r: Handshake)
    ensures r.authorization == password && r.userAgent == UserAgent
    ensures r.timeout == TimeoutSeconds && r.request == InfoRequest
    ensures r.url == Url(host, port)
    ensures host.JStr? && port.JInt? ==>
              r.url.Some? && SplitUrl(r.url.value) == Some((host.s, PyText.Decimal(port.i)))
  {
    var h := Handshake(Url(host, port), password, UserAgent, TimeoutSeconds, InfoRequest);
    if host.JStr? && port.JInt? then
      IntPortHasNoColon(port.i);
      UrlRoundTrip(host, port);
      h
    else h
  }

  /** Position of the last colon in `s`, if any. */
  function LastColon(s: string): (r: Option<nat>)
    ensures r.Some? ==> r.value < |s| && s[r.value] == ':'
    ensures r.Some? ==> forall j :: r.value < j < |s| ==> s[j] != ':'
    ensures r.None? ==> forall j :: 0 <= j < |s| ==> s[j] != ':'
    decreases |s|
  {
    if |s| == 0 then None
    else if s[|s| - 1] == ':' then Some(|s| - 1)
    else LastColon(s[..|s| - 1])
  }

  /** Reads a probe URL back into its host and port text, splitting at the
      last colon. This is not how a WebSocket client parses the URL; it is
      the witness that `Url` loses nothing: host and port text can be read
      back from the URL it builds (Url is injective on them). */
  function SplitUrl(url: string): Option<(string, string)> {
    if |url| >= |Scheme| + |Path| && url[..|Scheme|] == Scheme && url[|url| - |Path|..] == Path then
      var middle := url[|Scheme|..|url| - |Path|];
      match LastColon(middle)
      case None => None
      case Some(i) => Some((middle[..i], middle[i + 1..]))
    else None
  }

  /** The only colon after `h` is the one that follows it. */
  lemma LastColonAfterHost(h: string, p: string)
    requires forall j :: 0 <= j < |p| ==> p[j] != ':'
    ensures LastColon(h + ":" + p) == Some(|h|)
  {
    var m := h + ":" + p;
    assert m[|h|] == ':';
    assert m[|h| + 1..] == p;
    forall j | |h| < j < |m|
      ensures m[j] != ':'
    {
      assert m[j] == m[|h| + 1..][j - |h| - 1];
    }
    var r := LastColon(m);
    assert r.Some?;
    var i := r.value;
    assert |h| <= i;
    assert m[i] == ':';
    assert !(|h| < i);
    assert r == Some(|h|);
  }

  /** Splitting a probe URL built from host and port text gives them back
      when the port text has no colon. */
  lemma SplitJoined(h: string, p: string)
    requires forall j :: 0 <= j < |p| ==> p[j] != ':'
    ensures SplitUrl(Scheme + h + ":" + p + Path) == Some((h, p))
  {
    var middle := h + ":" + p;
    var url := Scheme + middle + Path;
    assert Scheme + h + ":" + p + Path == url;
    assert url[..|Scheme|] == Scheme;
    assert url[|url| - |Path|..] == Path;
    assert url[|Scheme|..|url| - |Path|] == middle;
    LastColonAfterHost(h, p);
    assert middle[..|h|] == h;
    assert middle[|h| + 1..] == p;
  }

  /** The URL keeps host and port recoverable: whatever the host text, a
      port text without a colon comes back out intact. */
  lemma UrlRoundTrip(host: Json, port: Json)
    requires PyText.Str(host).Some? && PyText.Str(port).Some?
    requires forall j :: 0 <= j < |PyText.Str(port).value| ==> PyText.Str(port).value[j] != ':'
    ensures Url(host, port).Some?
    ensures SplitUrl(Url(host, port).value) == Some((PyText.Str(host).value, PyText.Str(port).value))
  {
    SplitJoined(PyText.Str(host).value, PyText.Str(port).value);
  }

  /** `str()` of an int has no colon, so an integer port always round-trips. */
  lemma IntPortHasNoColon(n: int)
    ensures forall j :: 0 <= j < |PyText.Decimal(n)| ==> PyText.Decimal(n)[j] != ':'
  {
  }

  /** What each step of the probe did: connect, send the info request,
      receive one frame, close, and decode the frame as JSON. */
  datatype ProbeRun = ProbeRun(connect: Outcome<()>, send: Outcome<()>, receive: Outcome<()>,
                               close: Outcome<()>, decode: Outcome<Json>)

  /** The steps, in the order the probe takes them. */
  function Steps(run: ProbeRun): seq<Outcome<()>> {
    [run.connect, run.send, run.receive, run.close,
     if run.decode.Ok? then Ok(()) else Err(run.decode.msg)]
  }

  /** The error of the first step that failed, if any did. */
  function FirstError(steps: seq<Outcome<()>>): (e: Option<string>)
    ensures e.None? <==> forall i :: 0 <= i < |steps| ==> steps[i].Ok?
    ensures e.Some? ==> exists i :: 0 <= i < |steps| && steps[i] == Err(e.value)
                                    && forall j :: 0 <= j < i ==> steps[j].Ok?
    decreases |steps|
  {
    if |steps| == 0 then None
    else if steps[0].Err? then Some(steps[0].msg)
    else
      var e := FirstError(steps[1..]);
      if e.Some? then
        var i :| 0 <= i < |steps[1..]| && steps[1..][i] == Err(e.value)
                 && forall j :: 0 <= j < i ==> steps[1..][j].Ok?;
        assert steps[i + 1] == Err(e.value);
        e
      else e
  }

  datatype TestDetails =
    | Answered(host: Json, port: Json, response: Json)
    | Refused(host: Json, port: Json, error: string)

  datatype TestResult = TestResult(success: bool, message: string, details: TestDetails)

  /** `test_lavalink_connection(host, port, password)` given what the probe
      with `HandshakeFor(host, port, password)` did. */
  function TestConnection(host: Json, port: Json, run: ProbeRun): (r: TestResult)
    ensures r.details.host == host && r.details.port == port
    ensures r.success <==> forall i :: 0 <= i < |Steps(run)| ==> Steps(run)[i].Ok?
    ensures r.success ==> run.decode.Ok? && r.message == "Connection successful" && r.details == Answered(host, port, run.decode.value)
    ensures !r.success ==> r.details.Refused? && r.message == "Connection failed: " + r.details.error
    ensures !r.success ==>
              exists i :: 0 <= i < |Steps(run)| && Steps(run)[i] == Err(r.details.error)
                          && forall j :: 0 <= j < i ==> Steps(run)[j].Ok?
  {
    match FirstError(Steps(run))
    case None =>
      assert Steps(run)[4].Ok?;
      TestResult(true, "Connection successful", Answered(host, port, run.decode.value))
    case Some(e) => TestResult(false, "Connection failed: " + e, Refused(host, port, e))
  }

  /** The JSON the route returns for a result. */
  function ResultJson(r: TestResult): Json {
    var details := match r.details
      case Answered(h, p, response) => map["host" := h, "port" := p, "response" := response]
      case Refused(h, p, error) => map["host" := h, "port" := p, "error" := JStr(error)];
    JObj(map["success" := JBool(r.success), "message" := JStr(r.message), "details" := JObj(details)])
  }

  /** `POST /api/lavalink/test-connection`: a body without `host`, `port`
      and `password` is refused with 400 and no probe; otherwise the probe
      is made with the body's values and its result returned. */
  function TestRoute(body: Object, run: ProbeRun): (r: (Reply, Option<Handshake>))
    ensures !HasKeys(body, RouteKeys) <==> r.0 == Reply(400, InvalidDetails)
    ensures !HasKeys(body, RouteKeys) ==> r.1 == None
    ensures HasKeys(body, RouteKeys) <==> "host" in body && "port" in body && "password" in body
    ensures "host" in body && "port" in body && "password" in body ==>
              && r.1 == Some(HandshakeFor(body["host"], body["port"], body["password"]))
              && r.0 == Ok200(ResultJson(TestConnection(body["host"], body["port"], run)))
  {
    assert RouteKeys[0] == "host" && RouteKeys[1] == "port" && RouteKeys[2] == "password";
    if !HasKeys(body, RouteKeys) then (Reply(400, InvalidDetails), None)
    else
      var host := body["host"];
      var port := body["port"];
      (Ok200(ResultJson(TestConnection(host, port, run))), Some(HandshakeFor(host, port, body["password"])))
  }

  /** Every answer echoes host and port, and a failure reports its error
      both in the message and under `details.error`. */
  lemma ResultEchoes(host: Json, port: Json, run: ProbeRun)
    ensures var j := ResultJson(TestConnection(host, port, run));
            var d := j.fields["details"].fields;
            && d["host"] == host && d["port"] == port
            && (j.fields["success"] == JBool(false) ==>
                  exists e :: d["error"] == JStr(e) && j.fields["message"] == JStr("Connection failed: " + e))
  {
    var r := TestConnection(host, port, run);
    if !r.success {
      var d := ResultJson(r).fields["details"].fields;
      assert d["error"] == JStr(r.details.error);
    }
  }

  /** A refused connection reports the connect error, whatever the later
      steps would have done. */
  lemma ConnectFailureWins(host: Json, port: Json, run: ProbeRun)
    requires run.connect.Err?
    ensures TestConnection(host, port, run) ==
              TestResult(false, "Connection failed: " + run.connect.msg, Refused(host, port, run.connect.msg))
  {
  }
}
