# Lavalink dashboard — a Dafny model of its decision rules

The dashboard is a small Flask application (`app.py`) that watches and
controls one Lavalink node running in a Docker container named `lavalink`.
Almost every route hands its work to a collaborator: the Docker SDK, a
WebSocket client, psutil, or a file. Between those calls sit a few
sequential decision rules, and this project models them as pure functions
over immutable data. Each collaborator becomes an input: an attribute
value, or an `Outcome` that is `Ok(value)` or `Err(text of the exception)`.
The modules follow the parts of `app.py`:

- `Outcomes` (outcomes.dfy) holds `Option`, and `Outcome`, the result of a
  step that may raise.
- `JsonValues` (json.dfy) holds decoded JSON values and the dict, list and
  str operations the code applies to them. These are `get`, `[key]`, `[0]`
  and `in`, each with the exception CPython raises when the value has the
  wrong shape.
- `PyText` (pytext.dfy) holds `str()` of JSON scalars and `int()` of a
  string. `int()` accepts surrounding whitespace, a sign, and digits with
  single underscores between them. Its partner lemma is `int(str(n)) == n`.
- `ConfigStore` (store.dfy) holds the connection-profile store. The file's
  contents are a `map<string, Profile>`, where a profile is the posted JSON
  object. It models the GET, POST (validate, then upsert) and DELETE routes.
  Each handler also reports whether it loaded the file and what mapping it
  saved.
- `LogTail` (logs.dfy) holds `readlines()`, the Python slice
  `lines[-count:]` and the `lines` query parameter, which defaults to 100.
  Note that a count of 0 returns the whole file, and a negative count drops
  that many leading lines.
- `ConnectionInfo` (connection.dfy) holds `generate_connection_details`,
  written as the body of its `try` block over the container's attributes.
  Any exception falls back to `localhost:2333`.
- `NodeControl` (node.dfy) holds the start/stop/restart dispatch and the
  status snapshot.
- `Prober` (probe.dfy) holds the WebSocket connection test and the route
  that validates its body. The probe's five steps are given as outcomes:
  connect, send, receive, close, and decode the frame as JSON.
- `Http` (http.dfy) holds a handler's reply: a status with a JSON body, or
  the framework's 500 page when the handler raised.

Two behaviours of the code are kept as written. First, a client `id` that is
not a string is stored under the key text that `json.dump` gives it (`5`
becomes `"5"`, `true` becomes `"true"`). Second, a list or dict `id` makes
the upsert raise `TypeError` after the file was loaded, so the reply is a
500 and nothing is saved.

## Model

| member | source | states |
|---|---|---|
| `ConfigStore.PostConfig` | app.py:245-269 | A POST is answered 400 `{"error": "Invalid configuration"}` exactly when one of `name`, `host`, `port`, `password` is missing. Only key presence is checked. A refused POST neither loads nor saves the file. A mapping is saved exactly when the reply is 200. |
| `ConfigStore.PostUpserts` | app.py:254-269 | After a valid POST, the saved mapping has the posted config under its id. Every other loaded entry is unchanged and no other key is added. The config's `id` is the client's `id` when that key is present, and the fresh id otherwise. The reply echoes the config with its `id`. |
| `ConfigStore.PostedProfile` | app.py:254-261 | The stored profile is the posted body with only `id` set. Every other field is kept as posted. |
| `ConfigStore.PostThenDelete` | app.py:254-283 | Upsert and delete are inverse: posting a new string id and then deleting it gives back the original mapping. The id is any string; Flask's `<config_id>` path segment cannot be empty or contain `/`, so such ids are reachable by POST but not by DELETE. |
| `ConfigStore.Load` | app.py:30-38 | A missing file and a file that cannot be read or decoded both load as an empty store. Otherwise the stored mapping is returned as it is. |
| `ConfigStore.PostIdempotent` | app.py:254-264 | Posting the same body with an `id` a second time saves the same mapping as the first time. |
| `ConfigStore.DeleteConfig` | app.py:271-283 | Deleting a present id removes exactly that key, keeps every other entry, saves, and answers 200 with a message. Deleting an absent id answers 404 `{"error": "Configuration not found"}` and saves nothing. |
| `ConfigStore.ListConfigs` | app.py:240-243 | GET returns the loaded mapping as a JSON object with the same keys and profiles. |
| `LogTail.ReadLines` | app.py:103-104 | `readlines()` splits the text into non-empty lines. Each line contains a newline only at its end, and every line but the last ends with one. Joining the lines gives back the text. |
| `LogTail.Tail` | app.py:104 | `lines[-count:]` is a suffix of the lines. A positive count keeps `min(count, n)` lines, a count of 0 keeps all lines, and a negative count drops the first `-count` lines. |
| `LogTail.Logs` | app.py:97-108 | A missing log file gives `Log file not found`, and an unreadable one gives `Error reading logs: ` followed by the error. Otherwise the file's text is the lines before the tail `lines[-count:]` followed by the text returned, so the text returned is a suffix holding exactly the tail's lines. A count of 0 returns the whole file. |
| `LogTail.GetLogs` | app.py:216-219 | The logs route answers an object whose only key is `logs`. Its value is the log text for the count `int()` reads from the `lines` argument, or for 100 when that argument is absent or `int()` rejects it. A missing file gives `Log file not found`, an unreadable one the error text, and a present one a suffix of the file. |
| `LogTail.TailIsWhole` | app.py:103-105 | The returned log text is the whole file exactly when the count is 0, the count is at least the number of lines, or the file has no lines. A negative count with a non-empty file always returns less. |
| `LogTail.LinesArg` | app.py:218 | The `lines` query argument is `int()` of the given text. When the argument is absent or `int()` rejects it, the value is 100. `int()` rejects a run of more than 4300 digits, and it skips only ASCII whitespace and the non-ASCII Unicode spaces around the number. |
| `PyText.ParseInt` | app.py:67 | `int()` of a str gives a value only when the text contains a digit. Text with no digit is rejected. |
| `PyText.IntOf` | app.py:67 | `int()` of a decoded JSON value: an int is itself, a bool is 0 or 1, null, a list and a dict are rejected, and a str that converts contains a digit. |
| `PyText.Str` | app.py:117 | `str()` is defined on every scalar and leaves a str unchanged. For an int of at most 4300 digits, `int()` reads the text back as the same int. |
| `PyText.DecimalRoundTrip` | app.py:67 | For every integer `n` of at most 4300 digits, `int()` applied to `str(n)` gives back `n`. Beyond 4300 digits both conversions raise ValueError. |
| `ConnectionInfo.ConnectionDetails` | app.py:48-82 | The password is always `admin123` and `secure` is always false. A Docker failure gives `localhost:2333`, and so does any exception raised by the attribute lookups or `int()`. When the lookups succeed, their result is returned. A port other than 2333 appears only when the attribute lookups all succeeded. |
| `ConnectionInfo.UnmappedPort` | app.py:56-64 | For any container attributes, whatever keys besides `NetworkSettings` they hold: when the ports object has no `2333/tcp` key, the host is `IPAddress` (`localhost` if that key is absent) and the port is 2333. |
| `ConnectionInfo.NoPortsKey` | app.py:57-64 | For any container attributes: a missing `Ports` key behaves like an empty object and gives the same result. |
| `ConnectionInfo.MappedPort` | app.py:63-67 | For any container attributes and any list of mappings after the first: a `2333/tcp` mapping overrides the base values field by field. The host is `HostIp`, or the previous host when `HostIp` is absent. The port is `int(HostPort)`, or 2333 when `HostPort` is absent. |
| `ConnectionInfo.DecimalHostPort` | app.py:67 | For any container attributes: a `HostPort` written as decimal text of at most 4300 digits is read back as that number, and it becomes the port. |
| `ConnectionInfo.NoSettingsFallback` | app.py:56 | Attributes without `NetworkSettings` fall back to `localhost:2333`. |
| `ConnectionInfo.NullPortsFallback` | app.py:57-64 | For any container attributes: `Ports` set to null makes the `in` test raise, which falls back to `localhost:2333`. |
| `ConnectionInfo.EmptyMappingFallback` | app.py:65 | For any container attributes: a `2333/tcp` entry that is null or an empty list falls back to `localhost:2333`. |
| `ConnectionInfo.BadHostPortFallback` | app.py:67 | For any container attributes: a `HostPort` that `int()` rejects falls back to `localhost:2333`, even when the host was already known. |
| `ConnectionInfo.PortSource` | app.py:59-67 | Any port other than 2333 is `int()` of the first `2333/tcp` mapping's `HostPort`. |
| `ConnectionInfo.ConnectionRoute` | app.py:227-233 | The connection route always answers 200 with `host`, `port`, `password` and `secure`. `host` and `port` are the host and port of the connection details. On a Docker failure these are `localhost` and 2333. |
| `NodeControl.Manage` | app.py:160-179 | A container operation is invoked exactly when the container was found and the action is `start`, `stop` or `restart`. The invoked operation is the one the action names. The answer is true exactly when an operation was invoked and it succeeded. |
| `NodeControl.ActionNames` | app.py:166-172 | A requested value names an action exactly when it is that action's string. |
| `NodeControl.UnknownActionIsInert` | app.py:172-176 | Any other action answers false and invokes no operation. |
| `NodeControl.ControlRoute` | app.py:221-225 | The control route answers 200 `{"success": b}`. A body without `action` answers false and invokes nothing. A body with `action` invokes and answers exactly what `Manage` does for that value. |
| `NodeControl.Status` | app.py:181-197 | The live snapshot's `running` is `status == "running"`. `image` is the first tag, or `Unknown` when there are no tags. A Docker failure gives the error snapshot with the failure text. A missing `Created` gives the error snapshot with the KeyError text `'Created'`. |
| `NodeControl.RunningMatchesStatus` | app.py:188-197 | In every status body, the error body included, `running` is true exactly when `status` is `"running"`. |
| `NodeControl.LiveSnapshot` | app.py:188-194 | Attributes that have `Created` and `NetworkSettings.Ports` give a live snapshot of exactly those values. |
| `NodeControl.StatusRoute` | app.py:208-210 | The status route always answers 200 with the JSON form of the status snapshot. On a Docker failure the body is `{status: "error", running: false, message}`. |
| `Prober.TestConnection` | app.py:110-158 | `success` is true exactly when connect, send, receive, close and the JSON decode all succeed. `details` always echoes `host` and `port`. On success the response is the decoded frame. On failure the message is `"Connection failed: " + err`, and `err` is the error of the first step that failed. |
| `Prober.FirstError` | app.py:115-148 | The probe's error is the error of the earliest failing step. There is no error exactly when every step succeeded. |
| `Prober.ResultEchoes` | app.py:139-158 | The result body echoes host and port. A failed result carries the same error text in `message` and in `details.error`. |
| `Prober.ConnectFailureWins` | app.py:120-127 | A failed connect is reported as such, whatever the later steps would have done. |
| `Prober.Url` | app.py:117 | The probe URL exists exactly when host and port are scalars. It starts with `ws://` and ends with `/websocket`. |
| `Prober.HandshakeFor` | app.py:117-133 | The handshake sends the password unchanged as `Authorization`, the fixed User-Agent, a 5 s timeout and the info request. With a str host and an int port, the host and port text can be read back from the URL by splitting it at its last colon (`SplitUrl`). |
| `Prober.UrlRoundTrip` | app.py:117 | The probe URL `ws://{host}:{port}/websocket` loses nothing: `Url` is injective on host and port text whose port has no colon. The model's split at the last colon is only the witness of this. It is not how the WebSocket client parses the URL. |
| `Prober.SplitJoined` | app.py:117 | Splitting `ws://h:p/websocket` at its last colon gives back `(h, p)` when `p` has no colon. This is the inverse that shows `Url` injective. |
| `Prober.IntPortHasNoColon` | app.py:117 | `str()` of an integer port has no colon, so integer ports always round-trip. |
| `Prober.TestRoute` | app.py:285-303 | A body without `host`, `port` or `password` gets 400 `{"error": "Invalid connection details"}` and no probe is made. Otherwise the probe uses the body's values with the password as `Authorization`, and the reply is 200 with the result. |

## Left out

- Flask routing, CORS, the template and static-file routes and `app.run` are framework plumbing. Only the handler bodies are modelled.
- The Docker SDK calls (`from_env`, `containers.get`, `reload`, `start`/`stop`/`restart`, `image.tags`) are a foreign API. They appear as outcomes and an abstract `Container` value.
- The WebSocket connection, its 5 s timeout and the text of the received frame are network I/O and timing. The probe is five step outcomes. The handshake it asks for is stated as a value (`Prober.HandshakeFor`).
- Reading and writing the JSON file (`load_configs`, `save_configs`) and reading the log file are file I/O. Both files are given as datatypes. `Load` maps a missing or unreadable file to an empty store, as the code does. A failed save is invisible to the caller, so it is not modelled.
- A configuration file whose JSON is not an object of objects is not modelled.
- `uuid.uuid4()` is randomness. The fresh id is a parameter and no uniqueness is claimed for it.
- `get_system_info` and its route are psutil and platform calls with floating-point formatting.
- Logging, and the unlocked load-modify-save race between concurrent requests, are side effects and concurrency.
- Request bodies that are not JSON objects are not modelled. For these, `in` tests list membership or substrings and the later `.get` raises, which gives a 500.
- JSON numbers are integers only. Floats are not modelled.
- Python treats `True` and `1` as equal. This equality is not modelled for list membership or action lookup.
- `PyText.ParseInt` does not model the non-ASCII Unicode decimal digits that `int()` also accepts.
- `LogTail.LinesArg` inherits that gap: a `lines` value written in non-ASCII decimal digits (such as Arabic-Indic digits) gives 100 in the model, not the number.
- `PyText.Str` renders ints of any size. CPython raises ValueError for `str()` of an int with more than 4300 digits. No such int reaches the handlers, because decoding a request body or the config file with such a literal raises first, so `KeyText` and `Url` are not affected in practice.
- `Prober.Url` does not render a list or dict host or port. Python would use `repr` there, and the model gives None.
- `ConnectionInfo.Derive` gives its own placeholder text for the `int()` error. That text is only logged, never returned.
- `NodeControl.Status` uses the CPython 3.12 wording for type-error messages. The KeyError text is modelled for the literal keys the code uses.
- The log text is modelled after Python's universal-newline translation. `\r\n` and `\r` have already become `\n`.
