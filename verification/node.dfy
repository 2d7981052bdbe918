/** The node controller: `manage_lavalink(action)` and
    `get_lavalink_status()` over the `lavalink` container, with Docker's
    answers given as outcomes. */
module NodeControl {
  import opened Outcomes
  import opened JsonValues
  import opened Http

  /** The container operations the control route can trigger. */
  datatype Action = Start | Stop | Restart

  function ActionName(a: Action): string {
    match a
    case Start => "start"
    case Stop => "stop"
    case Restart => "restart"
  }

  /** `action in actions`: the action a requested value names, if any. Any
      other value, a list or dict included (whose TypeError the handler
      catches), names none. */
  function ActionOf(j: Json): Option<Action> {
    if j == JStr("start") then Some(Start)
    else if j == JStr("stop") then Some(Stop)
    else if j == JStr("restart") then Some(Restart)
    else None
  }

  /** What a control request did: the container operation it invoked, if
      any, and the boolean it answered. */
  datatype ControlRun = ControlRun(invoked: Option<Action>, success: bool)

  /** `manage_lavalink(action)`: `container` is the outcome of getting the
      container, `op` the outcome the named operation has if invoked. */
  function Manage(action: Json, container: Outcome<()>, op: Outcome<()>): (r: ControlRun)
    ensures r.invoked.Some? <==> container.Ok? && action in {JStr("start"), JStr("stop"), JStr("restart")}
    ensures r.invoked.Some? ==> action == JStr(ActionName(r.invoked.value))
    ensures r.success <==> r.invoked.Some? && op.Ok?
  {
    match container
    case Err(_) => ControlRun(None, false)
    case Ok(_) =>
      match ActionOf(action)
      case None => ControlRun(None, false)
      case Some(a) => ControlRun(Some(a), op.Ok?)
  }

  /** `POST /api/control`: `{"success": ...}` for the body's `action`
      (null when the key is absent). */
  function ControlRoute(body: Object, container: Outcome<()>, op: Outcome<()>): (r: (Reply, ControlRun))
    ensures r.0.Reply? && r.0.status == 200
    ensures r.0.body == JObj(map["success" := JBool(r.1.success)])
    ensures "action" !in body ==> r.1 == ControlRun(None, false)
    ensures "action" in body ==> r.1 == Manage(body["action"], container, op)
  {
    var run := Manage(if "action" in body then body["action"] else JNull, container, op);
    (Ok200(JObj(map["success" := JBool(run.success)])), run)
  }

  /** Action names and actions are in one-to-one correspondence. */
  lemma ActionNames(j: Json, a: Action)
    ensures ActionOf(j) == Some(a) <==> j == JStr(ActionName(a))
  {
  }

  /** An unknown action answers false without touching the container,
      whatever Docker would have done. */
  lemma UnknownActionIsInert(action: Json, container: Outcome<()>, op: Outcome<()>)
    requires forall a: Action :: action != JStr(ActionName(a))
    ensures Manage(action, container, op) == ControlRun(None, false)
  {
    assert action != JStr(ActionName(Start)) && action != JStr(ActionName(Stop))
      && action != JStr(ActionName(Restart));
  }

  /** What Docker reports about the container: its status, its image's
      tags and its raw `attrs`. */
  datatype Container = Container(status: string, imageTags: seq<string>, attrs: Object)

  /** The status snapshot: the container's view, or the error that stopped
      the query. */
  datatype Snapshot =
    | Live(status: string, image: string, created: Json, ports: Json, running: bool)
    | Failed(message: string)

  /** `get_lavalink_status()`, `container` being the outcome of getting and
      reloading the container. */
  function Status(container: Outcome<Container>): (r: Snapshot)
    ensures container.Err? ==> r == Failed(container.msg)
    ensures r.Live? ==>
              && container.Ok?
              && r.status == container.value.status
              && r.running == (r.status == "running")
              && (|container.value.imageTags| == 0 ==> r.image == "Unknown")
              && (|container.value.imageTags| > 0 ==> r.image == container.value.imageTags[0])
    ensures container.Ok? && "Created" !in container.value.attrs ==> r == Failed("'Created'")
  {
    match container
    case Err(msg) => Failed(msg)
    case Ok(c) =>
      var image := if |c.imageTags| > 0 then c.imageTags[0] else "Unknown";
      match Describe(c)
      case Err(msg) => Failed(msg)
      case Ok(found) => Live(c.status, image, found.0, found.1, c.status == "running")
  }

  /** `attrs['Created']` and `attrs['NetworkSettings']['Ports']`, in that
      order. */
  function Describe(c: Container): Outcome<(Json, Json)> {
    var created :- Index(JObj(c.attrs), "Created");
    var settings :- Index(JObj(c.attrs), "NetworkSettings");
    var ports :- Index(settings, "Ports");
    Ok((created, ports))
  }

  /** The JSON the status route returns. */
  function SnapshotJson(s: Snapshot): Json {
    match s
    case Live(status, image, created, ports, running) =>
      JObj(map["status" := JStr(status), "image" := JStr(image), "created" := created,
               "ports" := ports, "running" := JBool(running)])
    case Failed(message) =>
      JObj(map["status" := JStr("error"), "running" := JBool(false), "message" := JStr(message)])
  }

  /** Every snapshot the route returns says `running` exactly when its
      `status` is `running`, the error snapshot included. */
  lemma RunningMatchesStatus(container: Outcome<Container>)
    ensures var j := SnapshotJson(Status(container));
            && j.JObj? && "status" in j.fields && "running" in j.fields
            && j.fields["running"] == JBool(j.fields["status"] == JStr("running"))
  {
  }

  /** A container whose attributes have `Created` and a network-settings
      object with `Ports` gives a live snapshot of exactly those values. */
  lemma LiveSnapshot(c: Container, settings: Object)
    requires "Created" in c.attrs && "NetworkSettings" in c.attrs
    requires c.attrs["NetworkSettings"] == JObj(settings) && "Ports" in settings
    ensures Status(Ok(c)) == Live(c.status, if |c.imageTags| > 0 then c.imageTags[0] else "Unknown",
                                  c.attrs["Created"], settings["Ports"], c.status == "running")
  {
  }

  /** `GET /api/status`. */
  function StatusRoute(container: Outcome<Container>): (r: Reply)
    ensures r.Reply? && r.status == 200
    ensures r.body == SnapshotJson(Status(container))
    ensures container.Err? ==> r.body == JObj(map["status" := JStr("error"), "running" := JBool(false), "message" := JStr(container.msg)])
  {
    Ok200(SnapshotJson(Status(container)))
  }
}
