/** The connection-profile store: `load_configs`/`save_configs` around a
    JSON file mapping profile id to profile, and the three routes that read,
    upsert and delete profiles. */
module ConfigStore {
  import opened Outcomes
  import opened JsonValues
  import opened Http
  import PyText

  /** A profile is the JSON object a client posted, plus its `id`. */
  type Profile = Object

  /** The mapping kept in the configuration file. */
  type Store = map<string, Profile>

  /** What `load_configs` finds: no file, a file it cannot read or decode,
      or a stored mapping. */
  datatype ConfigFile = NoFile | Unreadable | Stored(store: Store)

  /** What one request did to the file: whether it loaded it, and the
      mapping it saved, if it saved one. */
  datatype StoreIo = StoreIo(loaded: bool, saved: Option<Store>)

  datatype Handled = Handled(reply: Reply, io: StoreIo)

  const ProfileKeys: seq<string> := ["name", "host", "port", "password"]

  const Invalid := Single("error", "Invalid configuration")
  const NotFound := Single("error", "Configuration not found")
  const Deleted := Single("message", "Configuration deleted successfully")
  const SavedText := "Configuration saved successfully"

  /** `load_configs`: a missing or unreadable file reads as no profiles. */
  function Load(file: ConfigFile): (r: Store)
    ensures file.Stored? ==> r == file.store
    ensures !file.Stored? ==> r == map[]
  {
    match file
    case Stored(s) => s
    case _ => map[]
  }

  /** `config.get('id', newId)`: the client's id when the key is present. */
  function ConfigId(body: Object, newId: string): Json {
    if "id" in body then body["id"] else JStr(newId)
  }

  /** The key under which `json.dump` writes a dict key: a str as it is, an
      int in decimal, `true`/`false`/`null` for the other scalars. A list
      or dict cannot be a dict key: the assignment raises TypeError. */
  function KeyText(id: Json): Option<string> {
    match id
    case JStr(s) => Some(s)
    case JInt(n) => Some(PyText.Decimal(n))
    case JBool(b) => Some(if b then "true" else "false")
    case JNull => Some("null")
    case _ => None
  }

  /** `GET /api/lavalink/configs`: the stored mapping as a JSON object. */
  function ListConfigs(file: ConfigFile): (r: Reply)
    ensures r.Reply? && r.status == 200 && r.body.JObj?
    ensures r.body.fields.Keys == Load(file).Keys
    ensures forall id :: id in Load(file) ==> r.body.fields[id] == JObj(Load(file)[id])
  {
    var s := Load(file);
    Ok200(JObj(map id | id in s :: JObj(s[id])))
  }

  /** `POST /api/lavalink/configs` with body `body`, `newId` standing for
      `str(uuid.uuid4())`. A body lacking a required key is refused before
      the file is touched; otherwise the body, with its `id` set, overwrites
      or adds the entry under that id and the whole mapping is saved. */
  function PostConfig(body: Object, newId: string, file: ConfigFile): (h: Handled)
    ensures !HasKeys(body, ProfileKeys) <==> h.reply == Reply(400, Invalid)
    ensures !HasKeys(body, ProfileKeys) ==> h.io == StoreIo(false, None)
    ensures HasKeys(body, ProfileKeys) ==> h.io.loaded
    ensures h.io.saved.Some? <==> h.reply.Reply? && h.reply.status == 200
  {
    if !HasKeys(body, ProfileKeys) then
      Handled(Reply(400, Invalid), StoreIo(false, None))
    else
      var id := ConfigId(body, newId);
      var config := body["id" := id];
      var configs := Load(file);
      match KeyText(id)
      case None => Handled(InternalError, StoreIo(true, None))
      case Some(key) =>
        var saved := configs[key := config];
        Handled(
          Ok200(JObj(map["message" := JStr(SavedText), "config" := JObj(config)])),
          StoreIo(true, Some(saved)))
  }

  /** `DELETE /api/lavalink/configs/<id>`. */
  function DeleteConfig(id: string, file: ConfigFile): (h: Handled)
    ensures h.io.loaded
    ensures h.io.saved.Some? <==> id in Load(file)
    ensures h.io.saved.Some? ==> h.reply == Reply(200, Deleted)
    ensures h.io.saved.None? ==> h.reply == Reply(404, NotFound)
    ensures h.io.saved.Some? ==>
              && h.io.saved.value.Keys == Load(file).Keys - {id}
              && forall k :: k in h.io.saved.value ==> h.io.saved.value[k] == Load(file)[k]
  {
    var configs := Load(file);
    if id in configs then
      Handled(Reply(200, Deleted), StoreIo(true, Some(configs - {id})))
    else
      Handled(Reply(404, NotFound), StoreIo(true, None))
  }

  /** A valid post saves the loaded mapping with exactly one entry set: the
      posted body under its id, whose `id` field is the client's id when one
      was given and the newId one otherwise; every other entry is kept, and
      the reply echoes the saved profile. */
  lemma PostUpserts(body: Object, newId: string, file: ConfigFile)
    requires HasKeys(body, ProfileKeys)
    requires body.Keys !! {"id"} || KeyText(body["id"]).Some?
    ensures var h := PostConfig(body, newId, file);
            var id := if "id" in body then body["id"] else JStr(newId);
            var key := KeyText(id).value;
            var config := body["id" := id];
            && h.io.saved.Some?
            && h.io.saved.value.Keys == Load(file).Keys + {key}
            && h.io.saved.value[key] == config
            && (forall k :: k in Load(file) && k != key ==> h.io.saved.value[k] == Load(file)[k])
            && h.reply == Ok200(JObj(map["message" := JStr(SavedText), "config" := JObj(config)]))
  {
  }

  /** The saved profile is the posted body with only its `id` set. */
  lemma PostedProfile(body: Object, newId: string, file: ConfigFile)
    requires PostConfig(body, newId, file).io.saved.Some?
    ensures var saved := PostConfig(body, newId, file).io.saved.value;
            exists key :: key in saved && (
              && saved[key].Keys == body.Keys + {"id"}
              && (forall f :: f in body && f != "id" ==> saved[key][f] == body[f])
              && ("id" in body ==> saved[key]["id"] == body["id"])
              && ("id" !in body ==> saved[key]["id"] == JStr(newId)))
  {
    var key := KeyText(ConfigId(body, newId)).value;
    assert key in PostConfig(body, newId, file).io.saved.value;
  }

  /** A post with a string id that was not stored, followed by a delete of
      that id, leaves the file's mapping as it was. */
  lemma PostThenDelete(body: Object, id: string, file: ConfigFile, newId: string)
    requires HasKeys(body, ProfileKeys)
    requires "id" in body && body["id"] == JStr(id)
    requires id !in Load(file)
    ensures var posted := PostConfig(body, newId, file).io.saved;
            && posted.Some?
            && DeleteConfig(id, Stored(posted.value)).io.saved == Some(Load(file))
  {
    var posted := PostConfig(body, newId, file).io.saved.value;
    assert body["id" := JStr(id)] == body;
    assert posted == Load(file)[id := body];
    assert posted - {id} == Load(file);
  }

  /** Posting the same body with an id twice saves what posting it once
      saved. */
  lemma PostIdempotent(body: Object, file: ConfigFile, newId: string, newId': string)
    requires "id" in body
    requires PostConfig(body, newId, file).io.saved.Some?
    ensures var once := PostConfig(body, newId, file).io.saved.value;
            PostConfig(body, newId', Stored(once)).io.saved == Some(once)
  {
    assert body["id" := body["id"]] == body;
    var key := KeyText(body["id"]).value;
    var once := Load(file)[key := body];
    assert once[key := body] == once;
  }
}
