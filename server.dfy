/** The `RealTimeServer` object: its store, its set of WebSocket clients,
    the request dispatch for the data API, broadcasting, the WebSocket
    handshake and the replies to client messages.

    Everything the server gets from outside is a parameter: the ISO time
    stamp `saveData` writes (`stamp`), whether the file write succeeds
    (`writeOk`), `Date.now()` (`now`), `JSON.stringify` followed by UTF-8
    encoding (`encode`), `JSON.parse` (`parse`, None where it throws), and
    the SHA-1 digest in base64 (`digest`). */
module Server {
  import opened JsonValue
  import opened Router
  import opened Frames
  import opened Store

  // --------------------------------------------------------------- messages

  /** What is written to a socket: the handshake text, or one frame. */
  datatype Write = Text(text: string) | Bytes(bytes: seq<byte>)

  /** What `client.send(data)` writes: one frame when the socket is still
      writable, nothing otherwise. */
  function Sent(writable: bool, payload: seq<byte>): (w: seq<Write>)
    ensures |w| <= 1
    ensures w != [] <==> writable
  {
    if writable then [Bytes(Frame(payload))] else []
  }

  /** `{ type, data, timestamp }`, the shape of every broadcast. */
  function Envelope(kind: string, payload: Json, now: int): (e: Json)
    ensures e.Obj? && e.fields.Keys == {"type", "data", "timestamp"}
    ensures e.fields["type"] == Str(kind) && e.fields["data"] == payload && e.fields["timestamp"] == Num(now)
  {
    Obj(map["type" := Str(kind), "data" := payload, "timestamp" := Num(now)])
  }

  const Guid: string := "258EAFA5-E914-47DA-95CA-C5AB0DC85B11"

  /** The text whose SHA-1 digest, in base64, is `Sec-WebSocket-Accept`. */
  function AcceptSource(key: string): (s: string)
    ensures |s| == |key| + 36
    ensures s[..|key|] == key && s[|key|..] == Guid
  {
    key + Guid
  }

  /** Distinct keys are hashed from distinct texts. */
  lemma AcceptSourceInjective(a: string, b: string)
    requires AcceptSource(a) == AcceptSource(b)
    ensures a == b
  {
    assert a == AcceptSource(a)[..|a|];
  }

  /** The status line and headers up to the accept value. */
  const HandshakeHead: string :=
    "HTTP/1.1 101 Switching Protocols\r\nUpgrade: websocket\r\nConnection: Upgrade\r\nSec-WebSocket-Accept: "

  /** The four header lines joined by CRLF, and an empty line. */
  function Handshake(accept: string): (h: string)
    ensures |h| == |HandshakeHead| + |accept| + 4
    ensures h[..|HandshakeHead|] == HandshakeHead && h[|h| - 4..] == "\r\n\r\n"
    ensures h[|HandshakeHead|..|h| - 4] == accept
  {
    HandshakeHead + accept + "\r\n\r\n"
  }

  /** Distinct accept values give distinct handshakes. */
  lemma {:induction false} HandshakeInjective(a: string, b: string)
    requires Handshake(a) == Handshake(b)
    ensures a == b
  {
    var h := Handshake(a);
    assert a == h[|HandshakeHead|..|h| - 4];
  }

  function Welcome(now: int, count: nat): (w: Json)
    ensures w.Obj? && w.fields.Keys == {"type", "data"} && w.fields["type"] == Str("WELCOME")
    ensures w.fields["data"].Obj? && w.fields["data"].fields.Keys == {"message", "timestamp", "clients"}
    ensures w.fields["data"].fields["clients"] == Num(count) && w.fields["data"].fields["timestamp"] == Num(now)
  {
    Obj(map[
      "type" := Str("WELCOME"),
      "data" := Obj(map[
        "message" := Str("Добро пожаловать на RealTime сервер"),
        "timestamp" := Num(now),
        "clients" := Num(count)])])
  }

  /** `handleClientMessage`: the reply to one parsed client message, None
      where the handler throws (a null message, or a SUBSCRIBE whose `data`
      is missing or null) and so sends nothing. */
  function Reply(message: Json, now: int): (r: Option<Json>)
    ensures r.Some? ==> r.value.Obj? && "type" in r.value.fields
    ensures r.Some? ==> r.value.fields["type"] in {Str("PONG"), Str("SUBSCRIBED"), Str("ECHO")}
  {
    match Prop(message, "type")
    case TypeError => None
    case Found(Str("PING")) => Some(Obj(map["type" := Str("PONG"), "timestamp" := Num(now)]))
    case Found(Str("SUBSCRIBE")) =>
      (match Prop(message, "data")
       case Found(data) =>
         if data.Null? then None
         else
           var channels := match Prop(data, "channels")
             case Found(c) => if Truthy(c) then c else Arr([])
             case _ => Arr([]);
           Some(Obj(map["type" := Str("SUBSCRIBED"), "data" := Obj(map["channels" := channels])]))
       case _ => None)
    case _ => Some(Obj(map["type" := Str("ECHO"), "data" := message, "timestamp" := Num(now)]))
  }

  /** A client is answered nothing exactly when its message is null, or is
      a SUBSCRIBE without a non-null `data`. */
  lemma ReplySilent(message: Json, now: int)
    ensures Reply(message, now).None? <==>
      message.Null? ||
      (message.Obj? && "type" in message.fields && message.fields["type"] == Str("SUBSCRIBE") &&
       !("data" in message.fields && !message.fields["data"].Null?))
  {
  }

  lemma PingGetsPong(message: Json, now: int)
    requires message.Obj? && "type" in message.fields && message.fields["type"] == Str("PING")
    ensures Reply(message, now) == Some(Obj(map["type" := Str("PONG"), "timestamp" := Num(now)]))
  {
  }

  /** A subscription is confirmed with the truthy `channels` it asked for,
      and with an empty list otherwise. */
  lemma SubscribeConfirmsChannels(message: Json, now: int)
    requires message.Obj? && "type" in message.fields && message.fields["type"] == Str("SUBSCRIBE")
    requires "data" in message.fields && !message.fields["data"].Null?
    ensures var data := message.fields["data"];
      var asked := data.Obj? && "channels" in data.fields && Truthy(data.fields["channels"]);
      Reply(message, now) == Some(Obj(map[
        "type" := Str("SUBSCRIBED"),
        "data" := Obj(map["channels" := if asked then data.fields["channels"] else Arr([])])]))
  {
  }

  /** Any other non-null message, whatever its shape, comes back whole. */
  lemma EchoReturnsMessage(message: Json, now: int)
    requires !message.Null?
    requires !(message.Obj? && "type" in message.fields && message.fields["type"] in {Str("PING"), Str("SUBSCRIBE")})
    ensures Reply(message, now) == Some(Obj(map["type" := Str("ECHO"), "data" := message, "timestamp" := Num(now)]))
  {
  }

  /** What one `data` chunk makes the server answer: nothing for a zero
      length or a payload that does not parse, otherwise the reply to the
      parsed message. */
  function Answer(chunk: seq<byte>, parse: seq<byte> -> Option<Json>, now: int): (r: Option<Json>)
    ensures PayloadLength(chunk) == 0 ==> r.None?
    ensures parse(Unmasked(chunk)).None? ==> r.None?
    ensures r.Some? ==> parse(Unmasked(chunk)).Some? && r == Reply(parse(Unmasked(chunk)).value, now)
  {
    if PayloadLength(chunk) == 0 then None
    else match parse(Unmasked(chunk))
      case None => None
      case Some(message) => Reply(message, now)
  }

  /** A client's masked frame of up to 125 bytes is answered as the message
      the client masked, whatever the masking key. */
  lemma MaskedFrameAnswered(key: seq<byte>, payload: seq<byte>, parse: seq<byte> -> Option<Json>, now: int)
    requires |key| == 4 && 0 < |payload| <= 125
    ensures Answer(ClientFrame(0x81, key, payload), parse, now) ==
      match parse(payload) case None => None case Some(message) => Reply(message, now)
  {
    UnmaskRoundTrip(0x81, key, payload);
  }

  // --------------------------------------------------------------- requests

  /** The reply the request adapter writes, or the two that are not JSON: the
      empty 200 of a preflight and a page or file this model does not
      render. */
  datatype Response = JsonReply(status: int, body: Json) | NoContent | Served(handler: Handler)

  function ErrorBody(message: string): Json {
    Obj(map["error" := Bool(true), "message" := Str(message)])
  }

  function FailureMessage(f: Failure): string {
    match f
    case KeyRequired => "Ключ обязателен"
    case KeyNotFound => "Ключ не найден"
    case HandlerThrew => "Внутренняя ошибка сервера"
  }

  function Refusal(f: Failure): (r: Response)
    ensures r.JsonReply? && r.status == f.Status() && r.status != 200
  {
    JsonReply(f.Status(), ErrorBody(FailureMessage(f)))
  }

  const SaveFailed: Response := JsonReply(500, ErrorBody("Ошибка сохранения"))
  const RouteNotFound: Response := JsonReply(404, ErrorBody("Маршрут не найден"))

  /** `{ success: true, message, key, timestamp }`; `key` is left out when it
      is undefined, as JSON.stringify leaves it out. */
  function Done(message: string, key: map<string, Json>, now: int): Response {
    JsonReply(200, Obj(map["success" := Bool(true), "message" := Str(message), "timestamp" := Num(now)] + key))
  }

  /** The `key` route parameter, `(route.params || {}).key`; a route matched
      exactly has no parameters, so no key. */
  function KeyParam(params: map<string, string>): (r: Option<string>)
    ensures r.Some? <==> "key" in params
    ensures r.Some? ==> r.value == params["key"]
  {
    if "key" in params then Some(params["key"]) else None
  }

  /** `this.data[key]` with an undefined key reads the property "undefined". */
  function StoreKey(key: Option<string>): (k: string)
    ensures key.Some? ==> k == key.value
    ensures key.None? ==> k == "undefined"
  {
    if key.Some? then key.value else "undefined"
  }

  function KeyField(key: Option<string>): map<string, Json> {
    if key.Some? then map["key" := Str(key.value)] else map[]
  }

  function QueryParam(query: map<string, string>, name: string): Option<string> {
    if name in query then Some(query[name]) else None
  }

  /** `safeParseJSON`: the parsed value, or an empty object where parsing
      throws; nothing more is promised about the text. */
  function SafeParse(text: string, parse: string -> Option<Json>): (v: Json)
    ensures parse(text).None? ==> v == Obj(map[])
    ensures parse(text).Some? ==> v == parse(text).value
  {
    match parse(text)
    case Some(v) => v
    case None => Obj(map[])
  }

  /** `buffer ? this.safeParseJSON(buffer) : {}`: an empty body and an
      unparsable one both read as `{}`. */
  function RequestBody(buffer: string, parse: string -> Option<Json>): (v: Json)
    ensures buffer == "" ==> v == Obj(map[])
    ensures buffer != "" ==> v == SafeParse(buffer, parse)
  {
    if buffer == "" then Obj(map[]) else SafeParse(buffer, parse)
  }

  /** What a request leaves behind: the store, the response, and the data
      of the DATA_UPDATED broadcast when there is one. */
  datatype Effect = Effect(data: Data, response: Response, notice: Option<Json>)

  /** GET /api/data/:key, with the optional `field` query. */
  function GetDataResponse(data: Data, key: Option<string>, field: Option<string>, now: int): (r: Response)
    ensures r.JsonReply? && r.status in {200, 404, 500}
    ensures r.status == 404 <==> StoreKey(key) !in data
    ensures r.status == 500 <==> StoreKey(key) in data && Given(field) && data[StoreKey(key)].Null?
    ensures r.status == 200 && !Given(field) ==>
      r.body.Obj? && "data" in r.body.fields && r.body.fields["data"] == data[StoreKey(key)]
  {
    match GetEntry(data, StoreKey(key), field)
    case ReadFailed(f) => Refusal(f)
    case Value(v) => JsonReply(200, Obj(map["success" := Bool(true), "data" := v, "timestamp" := Num(now)]))
  }

  /** GET /api/data: the whole store. */
  function AllData(data: Data, now: int): (r: Response)
    ensures r.JsonReply? && r.status == 200 && r.body.Obj? && "data" in r.body.fields &&
      r.body.fields["data"] == Obj(data)
  {
    JsonReply(200, Obj(map["success" := Bool(true), "data" := Obj(data), "timestamp" := Num(now)]))
  }

  /** POST /api/data. */
  function SetDataEffect(data: Data, body: Json, stamp: string, writeOk: bool, now: int): (e: Effect)
    ensures e.response.JsonReply? && (e.response.status == 200 <==> e.notice.Some?)
    ensures e.response.status == 400 <==> !body.Null? && !(body.Obj? && "key" in body.fields && Truthy(body.fields["key"]))
    ensures e.response.status != 200 && e.response != SaveFailed ==> e.data == data
    ensures e.notice.Some? ==>
      (e.notice.value.Obj? && "operation" in e.notice.value.fields && "value" in e.notice.value.fields &&
       e.notice.value.fields["operation"] == Str("set") &&
       body.Obj? && "key" in body.fields && KeyString(body.fields["key"]) in e.data &&
       e.notice.value.fields["value"] == e.data[KeyString(body.fields["key"])])
  {
    match SetEntry(data, body)
    case Failed(f) => Effect(data, Refusal(f), None)
    case Changed(written) =>
      var after := Stamped(written, stamp);
      var key := body.fields["key"];
      if !writeOk then Effect(after, SaveFailed, None)
      else Effect(after, Done("Данные сохранены", map["key" := key], now),
        Some(Obj(map["key" := key, "value" := after[KeyString(key)], "operation" := Str("set")])))
  }

  /** PUT /api/data/:key. */
  function UpdateDataEffect(data: Data, key: Option<string>, body: Json, stamp: string, writeOk: bool, now: int): (e: Effect)
    ensures e.response.JsonReply? && (e.response.status == 200 <==> e.notice.Some?)
    ensures e.response.status == 404 <==> StoreKey(key) !in data
    ensures e.response.status != 200 && e.response != SaveFailed ==> e.data == data
    ensures e.data.Keys - {"lastUpdate"} == data.Keys - {"lastUpdate"}
    ensures e.notice.Some? ==>
      (e.notice.value.Obj? && "operation" in e.notice.value.fields && "value" in e.notice.value.fields &&
       e.notice.value.fields["operation"] == Str("update") &&
       StoreKey(key) in e.data && e.notice.value.fields["value"] == e.data[StoreKey(key)])
  {
    match UpdateEntry(data, StoreKey(key), body)
    case Failed(f) => Effect(data, Refusal(f), None)
    case Changed(written) =>
      var after := Stamped(written, stamp);
      if !writeOk then Effect(after, SaveFailed, None)
      else Effect(after, Done("Данные обновлены", KeyField(key), now),
        Some(Obj(KeyField(key) + map["value" := after[StoreKey(key)], "operation" := Str("update")])))
  }

  /** DELETE /api/data/:key. */
  function DeleteDataEffect(data: Data, key: Option<string>, field: Option<string>, id: Option<string>,
                            stamp: string, writeOk: bool, now: int): (e: Effect)
    ensures e.response.JsonReply? && (e.response.status == 200 <==> e.notice.Some?)
    ensures e.response.status == 404 <==> StoreKey(key) !in data
    ensures e.response.status != 200 && e.response != SaveFailed ==> e.data == data
    ensures e.data.Keys <= data.Keys + {"lastUpdate"}
    ensures e.notice.Some? ==>
      (e.notice.value.Obj? && "operation" in e.notice.value.fields &&
       e.notice.value.fields["operation"] == Str("delete"))
  {
    match DeleteEntry(data, StoreKey(key), field, id)
    case Failed(f) => Effect(data, Refusal(f), None)
    case Changed(written) =>
      var after := Stamped(written, stamp);
      if !writeOk then Effect(after, SaveFailed, None)
      else Effect(after, Done("Данные удалены", KeyField(key), now),
        Some(Obj(KeyField(key) + map["operation" := Str("delete")])))
  }

  /** What the matched handler does. */
  function Handle(data: Data, handler: Handler, params: map<string, string>, query: map<string, string>,
                  body: Json, stamp: string, writeOk: bool, now: int): (e: Effect)
    ensures e.response.Served? <==> handler !in {GetAllData, GetData, SetData, UpdateData, DeleteData}
    ensures e.response.Served? ==> e.response.handler == handler
    ensures !e.response.Served? ==> e.response.JsonReply?
  {
    var key := KeyParam(params);
    match handler
    case GetAllData => Effect(data, AllData(data, now), None)
    case GetData => Effect(data, GetDataResponse(data, key, QueryParam(query, "field"), now), None)
    case SetData => SetDataEffect(data, body, stamp, writeOk, now)
    case UpdateData => UpdateDataEffect(data, key, body, stamp, writeOk, now)
    case DeleteData =>
      DeleteDataEffect(data, key, QueryParam(query, "field"), QueryParam(query, "id"), stamp, writeOk, now)
    case _ => Effect(data, Served(handler), None)
  }

  /** `handleRequest` once the body has arrived: preflight, route lookup,
      then the handler. */
  function Dispatch(data: Data, verb: string, pathname: string, query: map<string, string>, buffer: string,
                    parse: string -> Option<Json>, stamp: string, writeOk: bool, now: int): (e: Effect)
    ensures e.response.NoContent? <==> verb == "OPTIONS"
    ensures verb == "OPTIONS" ==> e.data == data && e.notice.None?
    ensures verb != "OPTIONS" && Resolve(Routes(), verb, pathname).None? ==>
      e == Effect(data, RouteNotFound, None)
  {
    if verb == "OPTIONS" then Effect(data, NoContent, None)
    else match Resolve(Routes(), verb, pathname)
      case None => Effect(data, RouteNotFound, None)
      case Some(m) => Handle(data, m.handler, m.params, query, RequestBody(buffer, parse), stamp, writeOk, now)
  }

  /** Only POST, PUT and DELETE requests change the store or broadcast. */
  lemma ReadOnlyRequests(data: Data, verb: string, pathname: string, query: map<string, string>, buffer: string,
                         parse: string -> Option<Json>, stamp: string, writeOk: bool, now: int)
    requires verb !in {"POST", "PUT", "DELETE"}
    ensures Dispatch(data, verb, pathname, query, buffer, parse, stamp, writeOk, now).data == data
    ensures Dispatch(data, verb, pathname, query, buffer, parse, stamp, writeOk, now).notice.None?
  {
    if verb != "OPTIONS" && verb != "GET" {
      UnknownMethod(verb, pathname);
    } else if verb == "GET" && Resolve(Routes(), verb, pathname).Some? {
      var m := Resolve(Routes(), verb, pathname).value;
      GetNeverWrites(pathname);
      ReadOnlyHandlers(data, m.handler, m.params, query, RequestBody(buffer, parse), stamp, writeOk, now);
    }
  }

  /** The handlers other than setData, updateData and deleteData only read. */
  lemma ReadOnlyHandlers(data: Data, handler: Handler, params: map<string, string>, query: map<string, string>,
                         body: Json, stamp: string, writeOk: bool, now: int)
    requires handler !in {SetData, UpdateData, DeleteData}
    ensures Handle(data, handler, params, query, body, stamp, writeOk, now).data == data
    ensures Handle(data, handler, params, query, body, stamp, writeOk, now).notice.None?
  {
  }

  /** A request that is refused (400, 404 or 500 from the handler) leaves
      the store as it was and notifies nobody; a change that the file write
      then fails to save answers 500 but stays in memory, stamped. */
  lemma WritesAndResponses(data: Data, handler: Handler, params: map<string, string>, query: map<string, string>,
                           body: Json, stamp: string, writeOk: bool, now: int)
    ensures var e := Handle(data, handler, params, query, body, stamp, writeOk, now);
      && (e.notice.Some? ==> writeOk && e.response.JsonReply? && e.response.status == 200)
      && (e.data != data ==> "lastUpdate" in e.data && e.data["lastUpdate"] == Str(stamp))
      && (e.response.JsonReply? && e.response.status != 200 && e.response != SaveFailed ==> e.data == data)
  {
  }

  /** A value posted under a key can be read back by GET /api/data/<key>. */
  lemma SetThenGet(data: Data, key: string, value: Json, buffer: string, parse: string -> Option<Json>,
                   stamp: string, now: int, later: int)
    requires NoSlash(key) && key != ":key" && key != "lastUpdate" && key != ""
    requires Truthy(value) && buffer != "" && parse(buffer) == Some(Obj(map["key" := Str(key), "value" := value]))
    ensures var posted := Dispatch(data, "POST", "/api/data", map[], buffer, parse, stamp, true, now);
      && posted.response == Done("Данные сохранены", map["key" := Str(key)], now)
      && Dispatch(posted.data, "GET", "/api/data/" + key, map[], "", parse, stamp, true, later).response ==
         JsonReply(200, Obj(map["success" := Bool(true), "data" := value, "timestamp" := Num(later)]))
  {
    PostKeyStores(data, key, value, buffer, parse, stamp, now);
    var posted := Dispatch(data, "POST", "/api/data", map[], buffer, parse, stamp, true, now);
    GetKeyRoute(key);
    DispatchRouted(posted.data, "GET", "/api/data/" + key, map[], "", parse, stamp, true, later,
      RouteMatch(GetData, map["key" := key]));
    assert GetEntry(posted.data, key, None) == Value(value);
  }

  /** POST /api/data with a string key and a truthy value stores the value
      under the key, stamped, and answers success. */
  lemma PostKeyStores(data: Data, key: string, value: Json, buffer: string, parse: string -> Option<Json>,
                      stamp: string, now: int)
    requires key != "lastUpdate" && key != ""
    requires Truthy(value) && buffer != "" && parse(buffer) == Some(Obj(map["key" := Str(key), "value" := value]))
    ensures var posted := Dispatch(data, "POST", "/api/data", map[], buffer, parse, stamp, true, now);
      && posted.response == Done("Данные сохранены", map["key" := Str(key)], now)
      && posted.data == Stamped(data[key := value], stamp)
  {
    var body := Obj(map["key" := Str(key), "value" := value]);
    PostRoute("/api/data");
    DispatchRouted(data, "POST", "/api/data", map[], buffer, parse, stamp, true, now, RouteMatch(SetData, map[]));
    assert RequestBody(buffer, parse) == body;
    assert SetEntry(data, body) == Changed(data[key := value]);
  }

  /** DELETE /api/data/<key> without a query removes the key: reading it
      back answers 404. */
  lemma DeleteThenGet(data: Data, key: string, stamp: string, writeOk: bool, now: int, later: int,
                      parse: string -> Option<Json>)
    requires NoSlash(key) && key != ":key" && key != "lastUpdate" && key in data
    ensures var deleted := Dispatch(data, "DELETE", "/api/data/" + key, map[], "", parse, stamp, writeOk, now);
      && key !in deleted.data
      && Dispatch(deleted.data, "GET", "/api/data/" + key, map[], "", parse, stamp, writeOk, later).response ==
         Refusal(KeyNotFound)
  {
    var path := "/api/data/" + key;
    DeleteKeyRemoves(data, key, stamp, writeOk, now, parse);
    var deleted := Dispatch(data, "DELETE", path, map[], "", parse, stamp, writeOk, now);
    GetKeyRoute(key);
    DispatchRouted(deleted.data, "GET", path, map[], "", parse, stamp, writeOk, later, RouteMatch(GetData, map["key" := key]));
    assert GetEntry(deleted.data, key, None) == ReadFailed(KeyNotFound);
  }

  /** DELETE /api/data/<key> without a query leaves the store without the
      key, stamped, whether or not the file write then succeeds. */
  lemma DeleteKeyRemoves(data: Data, key: string, stamp: string, writeOk: bool, now: int,
                         parse: string -> Option<Json>)
    requires NoSlash(key) && key != ":key" && key in data
    ensures Dispatch(data, "DELETE", "/api/data/" + key, map[], "", parse, stamp, writeOk, now).data ==
      Stamped(data - {key}, stamp)
  {
    var path := "/api/data/" + key;
    PutDeleteKeyRoutes(key);
    var params := map["key" := key];
    DispatchRouted(data, "DELETE", path, map[], "", parse, stamp, writeOk, now, RouteMatch(DeleteData, params));
    DeleteWithoutQuery(data, key, RequestBody("", parse), stamp, writeOk, now);
  }

  /** The delete handler, given a present key and no query, drops the key. */
  lemma DeleteWithoutQuery(data: Data, key: string, body: Json, stamp: string, writeOk: bool, now: int)
    requires key in data
    ensures Handle(data, DeleteData, map["key" := key], map[], body, stamp, writeOk, now).data ==
      Stamped(data - {key}, stamp)
  {
    assert KeyParam(map["key" := key]) == Some(key);
    assert QueryParam(map[], "field") == None && QueryParam(map[], "id") == None;
    assert DeleteEntry(data, key, None, None) == Changed(data - {key});
  }

  /** The literal path `/api/data/:key` is an exact key of the GET, PUT and
      DELETE tables, so it is matched with no parameters and its handler
      acts on the store key "undefined". */
  lemma LiteralPatternPath(verb: string)
    requires verb in {"GET", "PUT", "DELETE"}
    ensures var m := Resolve(Routes(), verb, "/api/data/:key");
      m.Some? && m.value.params == map[] && StoreKey(KeyParam(m.value.params)) == "undefined"
  {
    var table := Routes()[verb];
    var k := if verb == "GET" then 3 else 0;
    assert table[k].pattern == "/api/data/:key";
    ExactRouteWins(Routes(), verb, "/api/data/:key", k);
  }

  /** A request that is not a preflight goes to the handler its route names. */
  lemma DispatchRouted(data: Data, verb: string, pathname: string, query: map<string, string>, buffer: string,
                       parse: string -> Option<Json>, stamp: string, writeOk: bool, now: int, m: RouteMatch)
    requires verb != "OPTIONS" && Resolve(Routes(), verb, pathname) == Some(m)
    ensures Dispatch(data, verb, pathname, query, buffer, parse, stamp, writeOk, now) ==
      Handle(data, m.handler, m.params, query, RequestBody(buffer, parse), stamp, writeOk, now)
  {
  }

  // ----------------------------------------------------------------- objects

  /** A connected client together with its socket: `readyState` (1, OPEN),
      whether the socket is still writable, and what has been written to it. */
  class Client {
    var readyState: int
    var writable: bool
    var written: seq<Write>

    /** A client whose socket has already been sent the handshake. */
    constructor (writable: bool, handshake: string)
      ensures readyState == 1 && this.writable == writable && written == [Text(handshake)]
    {
      readyState := 1;
      this.writable := writable;
      written := [Text(handshake)];
    }

    /** `client.send`: a text frame with the data, if the socket is writable. */
    method Send(payload: seq<byte>)
      modifies this`written
      ensures written == old(written) + Sent(writable, payload)
    {
      if writable {
        written := written + [Bytes(Frame(payload))];
      }
    }
  }

  /** What a broadcast writes to one client: a frame if the client is open
      and its socket writable. */
  function Delivered(c: Client, payload: seq<byte>): (w: seq<Write>)
    reads c
    ensures |w| <= 1
    ensures w != [] <==> c.readyState == 1 && c.writable
  {
    if c.readyState == 1 then Sent(c.writable, payload) else []
  }

  /** What a request's DATA_UPDATED notice writes to one client. */
  function Announced(c: Client, notice: Option<Json>, now: int, encode: Json -> seq<byte>): (w: seq<Write>)
    reads c
    ensures |w| <= 1
    ensures w != [] <==> notice.Some? && c.readyState == 1 && c.writable
    ensures w != [] ==> w == [Bytes(Frame(encode(Envelope("DATA_UPDATED", notice.value, now))))]
  {
    match notice
    case None => []
    case Some(n) => Delivered(c, encode(Envelope("DATA_UPDATED", n, now)))
  }

  class RealTimeServer {
    var data: Data
    var clients: set<Client>
    const routes: map<string, Table>

    /** Every connected client is OPEN; nothing ever sets another state. */
    predicate Valid()
      reads this, clients
    {
      forall c :: c in clients ==> c.readyState == 1
    }

    /** The initial store, before anything is loaded from the file. */
    constructor (stamp: string)
      ensures Valid()
      ensures clients == {} && routes == Routes()
      ensures data == map[
        "users" := Arr([]), "content" := Obj(map[]), "config" := Obj(map[]), "cache" := Obj(map[]),
        "version" := Str("1.0.0"), "lastUpdate" := Str(stamp)]
    {
      data := map[
        "users" := Arr([]), "content" := Obj(map[]), "config" := Obj(map[]), "cache" := Obj(map[]),
        "version" := Str("1.0.0"), "lastUpdate" := Str(stamp)];
      clients := {};
      routes := Routes();
    }

    /** `saveData`: stamp the store, then report whether the write worked. */
    method SaveData(stamp: string, writeOk: bool) returns (saved: bool)
      modifies this`data
      ensures data == Stamped(old(data), stamp) && saved == writeOk
    {
      data := data["lastUpdate" := Str(stamp)];
      saved := writeOk;
    }

    /** `broadcast`: every open client gets the one message, once. */
    method Broadcast(kind: string, payload: Json, now: int, encode: Json -> seq<byte>)
      modifies clients`written
      ensures forall c :: c in clients ==> c.written == old(c.written) + Delivered(c, encode(Envelope(kind, payload, now)))
    {
      var message := encode(Envelope(kind, payload, now));
      var pending := clients;
      while pending != {}
        invariant pending <= clients
        invariant forall c :: c in clients && c !in pending ==> c.written == old(c.written) + Delivered(c, message)
        invariant forall c :: c in pending ==> c.written == old(c.written)
        decreases pending
      {
        var c :| c in pending;
        if c.readyState == 1 {
          c.Send(message);
        }
        pending := pending - {c};
      }
    }

    /** In a valid server a broadcast reaches every client whose socket is
        writable. */
    lemma BroadcastReachesAll(payload: seq<byte>)
      requires Valid()
      ensures forall c :: c in clients ==> Delivered(c, payload) == Sent(c.writable, payload)
    {
    }

    method GetData(key: Option<string>, field: Option<string>, now: int) returns (response: Response)
      ensures response == GetDataResponse(data, key, field, now)
    {
      var k := StoreKey(key);
      if k !in data {
        return Refusal(KeyNotFound);
      }
      var value := data[k];
      if Given(field) && value.Null? {
        return Refusal(HandlerThrew);
      }
      if Given(field) && value.Obj? && field.value in value.fields {
        value := value.fields[field.value];
      }
      response := JsonReply(200, Obj(map["success" := Bool(true), "data" := value, "timestamp" := Num(now)]));
    }

    method SetData(body: Json, stamp: string, writeOk: bool, now: int, encode: Json -> seq<byte>)
      returns (response: Response)
      modifies this`data, clients`written
      ensures var e := SetDataEffect(old(data), body, stamp, writeOk, now);
        && data == e.data && response == e.response
        && forall c :: c in clients ==> c.written == old(c.written) + Announced(c, e.notice, now, encode)
    {
      match Prop(body, "key") {
        case TypeError =>
          return Refusal(HandlerThrew);
        case Undefined =>
          return Refusal(KeyRequired);
        case Found(key) =>
          if !Truthy(key) {
            return Refusal(KeyRequired);
          }
          if KeyThrows(key) {
            return Refusal(HandlerThrew);
          }
          data := data[KeyString(key) := StoredValue(body)];
          var saved := SaveData(stamp, writeOk);
          if saved {
            Broadcast("DATA_UPDATED", Obj(map["key" := key, "value" := data[KeyString(key)], "operation" := Str("set")]), now, encode);
            response := Done("Данные сохранены", map["key" := key], now);
          } else {
            response := SaveFailed;
          }
      }
    }

    /** The part of `updateData` that changes the store. */
    method UpdateValue(k: string, body: Json) returns (failure: Option<Failure>)
      modifies this`data
      ensures match UpdateEntry(old(data), k, body)
        case Failed(f) => failure == Some(f) && data == old(data)
        case Changed(after) => failure.None? && data == after
    {
      if k !in data {
        return Some(KeyNotFound);
      }
      var current := data[k];
      if current.Obj? || current.Null? {
        data := data[k := Merge(current, body)];
      } else if current.Arr? {
        match Prop(body, "id") {
          case TypeError =>
            return Some(HandlerThrew);
          case Undefined =>
            data := data[k := Arr(current.items + [body])];
          case Found(id) =>
            if !Truthy(id) {
              data := data[k := Arr(current.items + [body])];
            } else {
              match FindById(current.items, id) {
                case Throws =>
                  return Some(HandlerThrew);
                case Missing =>
                case FoundAt(i) =>
                  data := data[k := Arr(current.items[i := Merge(current.items[i], Obj(OwnFields(body) - {"id"}))])];
              }
            }
        }
      } else {
        data := data[k := body];
      }
      failure := None;
    }

    method UpdateData(key: Option<string>, body: Json, stamp: string, writeOk: bool, now: int, encode: Json -> seq<byte>)
      returns (response: Response)
      modifies this`data, clients`written
      ensures var e := UpdateDataEffect(old(data), key, body, stamp, writeOk, now);
        && data == e.data && response == e.response
        && forall c :: c in clients ==> c.written == old(c.written) + Announced(c, e.notice, now, encode)
    {
      var k := StoreKey(key);
      var failure := UpdateValue(k, body);
      if failure.Some? {
        return Refusal(failure.value);
      }
      var saved := SaveData(stamp, writeOk);
      if saved {
        Broadcast("DATA_UPDATED", Obj(KeyField(key) + map["value" := data[k], "operation" := Str("update")]), now, encode);
        response := Done("Данные обновлены", KeyField(key), now);
      } else {
        response := SaveFailed;
      }
    }

    /** The part of `deleteData` that changes the store. */
    method RemoveValue(k: string, field: Option<string>, id: Option<string>) returns (failure: Option<Failure>)
      modifies this`data
      ensures match DeleteEntry(old(data), k, field, id)
        case Failed(f) => failure == Some(f) && data == old(data)
        case Changed(after) => failure.None? && data == after
    {
      if k !in data {
        return Some(KeyNotFound);
      }
      var current := data[k];
      if Given(field) && current.Null? {
        return Some(HandlerThrew);
      }
      if Given(field) && current.Obj? && field.value in current.fields {
        data := data[k := Obj(current.fields - {field.value})];
      } else if Given(id) && current.Arr? {
        if !NoNullItem(current.items) {
          return Some(HandlerThrew);
        }
        data := data[k := Arr(WithoutId(current.items, Str(id.value)))];
      } else {
        data := data - {k};
      }
      failure := None;
    }

    method DeleteData(key: Option<string>, field: Option<string>, id: Option<string>,
                      stamp: string, writeOk: bool, now: int, encode: Json -> seq<byte>)
      returns (response: Response)
      modifies this`data, clients`written
      ensures var e := DeleteDataEffect(old(data), key, field, id, stamp, writeOk, now);
        && data == e.data && response == e.response
        && forall c :: c in clients ==> c.written == old(c.written) + Announced(c, e.notice, now, encode)
    {
      var k := StoreKey(key);
      var failure := RemoveValue(k, field, id);
      if failure.Some? {
        return Refusal(failure.value);
      }
      var saved := SaveData(stamp, writeOk);
      if saved {
        Broadcast("DATA_UPDATED", Obj(KeyField(key) + map["operation" := Str("delete")]), now, encode);
        response := Done("Данные удалены", KeyField(key), now);
      } else {
        response := SaveFailed;
      }
    }

    /** `handleRequest` once the body has arrived. */
    method HandleRequest(verb: string, pathname: string, query: map<string, string>, buffer: string,
                         parse: string -> Option<Json>, stamp: string, writeOk: bool, now: int,
                         encode: Json -> seq<byte>)
      returns (response: Response)
      requires routes == Routes()
      modifies this`data, clients`written
      ensures var e := Dispatch(old(data), verb, pathname, query, buffer, parse, stamp, writeOk, now);
        && data == e.data && response == e.response
        && forall c :: c in clients ==> c.written == old(c.written) + Announced(c, e.notice, now, encode)
    {
      if verb == "OPTIONS" {
        return NoContent;
      }
      var route := FindRoute(routes, verb, pathname);
      if route.None? {
        return RouteNotFound;
      }
      DispatchRouted(data, verb, pathname, query, buffer, parse, stamp, writeOk, now, route.value);
      var body := RequestBody(buffer, parse);
      var key := KeyParam(route.value.params);
      match route.value.handler {
        case GetAllData =>
          response := AllData(data, now);
        case GetData =>
          response := GetData(key, QueryParam(query, "field"), now);
        case SetData =>
          response := SetData(body, stamp, writeOk, now, encode);
        case UpdateData =>
          response := UpdateData(key, body, stamp, writeOk, now, encode);
        case DeleteData =>
          response := DeleteData(key, QueryParam(query, "field"), QueryParam(query, "id"), stamp, writeOk, now, encode);
        case _ =>
          response := Served(route.value.handler);
      }
    }

    /** The `upgrade` event and `handleWebSocketUpgrade`: a request for a
        path other than /ws, or without a Sec-WebSocket-Key, has its socket
        destroyed; otherwise the socket gets the handshake, the new client
        joins the set and is sent the welcome message. */
    method Upgrade(url: string, key: Option<string>, writable: bool, now: int,
                   digest: string -> string, encode: Json -> seq<byte>)
      returns (client: Client?)
      requires Valid()
      modifies this`clients
      ensures Valid()
      ensures url != "/ws" || !Given(key) ==> client == null && clients == old(clients)
      ensures url == "/ws" && Given(key) ==>
        && client != null && fresh(client)
        && clients == old(clients) + {client} && |clients| == |old(clients)| + 1
        && client.readyState == 1 && client.writable == writable
        && client.written == [Text(Handshake(digest(AcceptSource(key.value))))]
                             + Sent(writable, encode(Welcome(now, |clients|)))
    {
      if url != "/ws" || !Given(key) {
        return null;
      }
      var accept := digest(AcceptSource(key.value));
      client := new Client(writable, Handshake(accept));
      clients := clients + {client};
      client.Send(encode(Welcome(now, |clients|)));
    }

    /** The `close` and `error` events: the client leaves the set. */
    method Disconnect(client: Client)
      requires Valid()
      modifies this`clients
      ensures Valid()
      ensures clients == old(clients) - {client}
    {
      clients := clients - {client};
    }

    /** `handleClientMessage`. */
    method HandleClientMessage(client: Client, message: Json, now: int, encode: Json -> seq<byte>)
      modifies client`written
      ensures client.written == old(client.written) + (
        match Reply(message, now) case None => [] case Some(r) => Sent(client.writable, encode(r)))
    {
      var reply := Reply(message, now);
      if reply.Some? {
        client.Send(encode(reply.value));
      }
    }

    /** The `data` event of a client socket: unmask the chunk, parse it and
        answer it. */
    method OnData(client: Client, chunk: array<byte>, parse: seq<byte> -> Option<Json>, now: int,
                  encode: Json -> seq<byte>)
      modifies client`written
      ensures client.written == old(client.written) + (
        match Answer(chunk[..], parse, now) case None => [] case Some(r) => Sent(client.writable, encode(r)))
    {
      var payload := DecodeFrame(chunk);
      if payload.Some? {
        var message := parse(payload.value);
        if message.Some? {
          HandleClientMessage(client, message.value, now, encode);
        }
      }
    }
  }
}
