/** `generate_connection_details`: the host and port at which the node's
    container can be reached, read from its Docker attributes, with a fixed
    password and no TLS. Every failure, of Docker or of the attribute
    lookups, falls back to `localhost:2333`. */
module ConnectionInfo {
  import opened Outcomes
  import opened JsonValues
  import opened Http
  import PyText

  datatype Details = Details(host: Json, port: int, password: string, secure: bool)

  const DefaultPort := 2333
  const Password := "admin123"
  const PortKey := "2333/tcp"
  const Fallback := Details(JStr("localhost"), DefaultPort, Password, false)

  /** The body of the `try` block, given the container's `attrs`: an Err
      is an exception it raises. */
  function Derive(attrs: Json): Outcome<Details> {
    var settings :- Index(attrs, "NetworkSettings");
    var ports :- Get(settings, "Ports", JObj(map[]));
    var host :- Get(settings, "IPAddress", JStr("localhost"));
    var mapped :- Contains(ports, PortKey);
    if !mapped then Ok(Details(host, DefaultPort, Password, false))
    else
      var mappings :- Index(ports, PortKey);
      var mapping :- First(mappings);
      var hostIp :- Get(mapping, "HostIp", host);
      var hostPort :- Get(mapping, "HostPort", JInt(DefaultPort));
      match PyText.IntOf(hostPort)
      case None => Err("int() conversion failed")
      case Some(port) => Ok(Details(hostIp, port, Password, false))
  }

  /** `generate_connection_details()`, where `container` is the outcome of
      fetching and reloading the container: its `attrs`, or the error. */
  function ConnectionDetails(container: Outcome<Json>): (d: Details)
    ensures d.password == Password && !d.secure
    ensures container.Err? ==> d == Fallback
    ensures container.Ok? && Derive(container.value).Err? ==> d == Fallback
    ensures container.Ok? && Derive(container.value).Ok? ==> d == Derive(container.value).value
    ensures d.port != DefaultPort ==> container.Ok? && Derive(container.value).Ok?
  {
    match container
    case Err(_) => Fallback
    case Ok(attrs) =>
      match Derive(attrs)
      case Ok(d) => d
      case Err(_) => Fallback
  }

  /** `GET /api/lavalink/connection`: the details as a JSON object, always
      with status 200. */
  function ConnectionRoute(container: Outcome<Json>): (r: Reply)
    ensures r.Reply? && r.status == 200 && r.body.JObj?
    ensures r.body.fields.Keys == {"host", "port", "password", "secure"}
    ensures r.body.fields["password"] == JStr(Password) && r.body.fields["secure"] == JBool(false)
    ensures r.body.fields["host"] == ConnectionDetails(container).host
    ensures r.body.fields["port"] == JInt(ConnectionDetails(container).port)
    ensures container.Err? ==> r.body.fields["host"] == JStr("localhost") && r.body.fields["port"] == JInt(DefaultPort)
  {
    var d := ConnectionDetails(container);
    Ok200(JObj(map["host" := d.host, "port" := JInt(d.port), "password" := JStr(d.password),
                   "secure" := JBool(d.secure)]))
  }

  /** The container attributes `attrs` hold the network settings object
      `settings`; any other attributes are present or not. */
  predicate HasSettings(attrs: Object, settings: Object) {
    "NetworkSettings" in attrs && attrs["NetworkSettings"] == JObj(settings)
  }

  /** With a ports object that has no `2333/tcp` entry, the host is the
      container's `IPAddress` (or `localhost` if it has none) and the port
      2333. */
  lemma UnmappedPort(attrs: Object, settings: Object, ports: Object)
    requires HasSettings(attrs, settings)
    requires "Ports" in settings && settings["Ports"] == JObj(ports)
    requires PortKey !in ports
    ensures var d := ConnectionDetails(Ok(JObj(attrs)));
            && d.host == (if "IPAddress" in settings then settings["IPAddress"] else JStr("localhost"))
            && d.port == DefaultPort
  {
  }

  /** With no `Ports` key at all, `{}` stands in for it: the same result. */
  lemma NoPortsKey(attrs: Object, settings: Object)
    requires HasSettings(attrs, settings)
    requires "Ports" !in settings
    ensures var d := ConnectionDetails(Ok(JObj(attrs)));
            && d.host == (if "IPAddress" in settings then settings["IPAddress"] else JStr("localhost"))
            && d.port == DefaultPort
  {
  }

  /** With a `2333/tcp` entry whose first mapping is an object, the mapping
      overrides host and port field by field: `HostIp` if present, and
      `int(HostPort)` if present (2333 if not). */
  lemma MappedPort(attrs: Object, settings: Object, ports: Object, rest: seq<Json>, mapping: Object)
    requires HasSettings(attrs, settings)
    requires "Ports" in settings && settings["Ports"] == JObj(ports)
    requires PortKey in ports && ports[PortKey] == JArr([JObj(mapping)] + rest)
    requires "HostPort" in mapping ==> PyText.IntOf(mapping["HostPort"]).Some?
    ensures var d := ConnectionDetails(Ok(JObj(attrs)));
            var host := if "IPAddress" in settings then settings["IPAddress"] else JStr("localhost");
            && d.host == (if "HostIp" in mapping then mapping["HostIp"] else host)
            && d.port == (if "HostPort" in mapping then PyText.IntOf(mapping["HostPort"]).value else DefaultPort)
  {
  }

  /** A `HostPort` given as decimal text is read back as that number (up to
      the digit limit of `int()`). */
  lemma DecimalHostPort(attrs: Object, settings: Object, ports: Object, rest: seq<Json>, mapping: Object,
                        port: int)
    requires HasSettings(attrs, settings)
    requires "Ports" in settings && settings["Ports"] == JObj(ports)
    requires PortKey in ports && ports[PortKey] == JArr([JObj(mapping)] + rest)
    requires "HostPort" in mapping && mapping["HostPort"] == JStr(PyText.Decimal(port))
    requires PyText.WithinDigitLimit(port)
    ensures PyText.IntOf(mapping["HostPort"]) == Some(port)
    ensures ConnectionDetails(Ok(JObj(attrs))).port == port
  {
    PyText.DecimalRoundTrip(port);
    MappedPort(attrs, settings, ports, rest, mapping);
  }

  /** Attributes without network settings fall back. */
  lemma NoSettingsFallback(attrs: Object)
    requires "NetworkSettings" !in attrs
    ensures ConnectionDetails(Ok(JObj(attrs))) == Fallback
  {
  }

  /** `Ports` set to null fails the `in` test and falls back. */
  lemma NullPortsFallback(attrs: Object, settings: Object)
    requires HasSettings(attrs, settings)
    requires "Ports" in settings && settings["Ports"] == JNull
    ensures ConnectionDetails(Ok(JObj(attrs))) == Fallback
  {
  }

  /** A `2333/tcp` entry that is null or an empty list has no first mapping:
      fall back. */
  lemma EmptyMappingFallback(attrs: Object, settings: Object, ports: Object)
    requires HasSettings(attrs, settings)
    requires "Ports" in settings && settings["Ports"] == JObj(ports)
    requires PortKey in ports && (ports[PortKey] == JNull || ports[PortKey] == JArr([]))
    ensures ConnectionDetails(Ok(JObj(attrs))) == Fallback
  {
  }

  /** A `HostPort` that `int()` rejects falls back, even though the host was
      already known. */
  lemma BadHostPortFallback(attrs: Object, settings: Object, ports: Object, rest: seq<Json>, mapping: Object)
    requires HasSettings(attrs, settings)
    requires "Ports" in settings && settings["Ports"] == JObj(ports)
    requires PortKey in ports && ports[PortKey] == JArr([JObj(mapping)] + rest)
    requires "HostPort" in mapping && PyText.IntOf(mapping["HostPort"]).None?
    ensures ConnectionDetails(Ok(JObj(attrs))) == Fallback
  {
  }

  /** The attributes carry a `2333/tcp` mapping list whose first mapping has
      a `HostPort` that `int()` turns into `port`. */
  predicate HostPortMapped(attrs: Json, port: int) {
    && attrs.JObj? && "NetworkSettings" in attrs.fields
    && var settings := attrs.fields["NetworkSettings"];
    && settings.JObj? && "Ports" in settings.fields
    && var ports := settings.fields["Ports"];
    && ports.JObj? && PortKey in ports.fields
    && var mappings := ports.fields[PortKey];
    && mappings.JArr? && |mappings.items| > 0
    && var mapping := mappings.items[0];
    && mapping.JObj? && "HostPort" in mapping.fields
    && PyText.IntOf(mapping.fields["HostPort"]) == Some(port)
  }

  /** Whatever the attributes, a port other than 2333 comes from a
      `2333/tcp` mapping's `HostPort`. */
  lemma PortSource(attrs: Json)
    ensures var d := ConnectionDetails(Ok(attrs));
            d.port != DefaultPort ==> HostPortMapped(attrs, d.port)
  {
  }
}
