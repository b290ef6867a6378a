# RealTime server core in Dafny

A model of the dependency-free Node.js "RealTime" server (`server.js`,
class `RealTimeServer`), with proofs about it. The server answers a small
JSON key-value API over HTTP and pushes updates to WebSocket clients. The
model covers four parts:

- **Routing.** `findRoute` uses one table per HTTP method. An exact key
  wins. Otherwise the first pattern containing `:` whose `/`-segments line
  up with the path is taken, and its `:name` segments become parameters.
- **The store.** `this.data` is a `map<string, Json>`. `getData`,
  `setData`, `updateData` and `deleteData` act on it, and `saveData`
  stamps `lastUpdate`.
- **Framing.** The hand-written WebSocket framing: the outbound text frame
  that `client.send` writes, and the unmasking of each inbound `data`
  chunk. Both are compared with section 5.2 (base framing) and section 5.3
  (client-to-server masking) of RFC 6455.
- **Clients.** The client set, the upgrade handshake (accept key from
  section 4.2.2 of RFC 6455), `broadcast`, and the replies of
  `handleClientMessage`.

Layout, one module per file:

- `json.dfy` (`JsonValue`): JSON values and the JavaScript semantics the
  handlers rely on:
  - truthiness;
  - property access, where a property of null throws;
  - object spread;
  - `===`;
  - the conversion of a value to a property key.
- `router.dfy` (`Router`):
  - the reference resolver `Resolve`;
  - `FindRoute`, the loop the server runs, proved equal to `Resolve`;
  - the table `setupRoutes` builds.
- `frames.dfy` (`Frames`):
  - the encoder `Frame`;
  - the decoding method `DecodeFrame`, which works on an `array`;
  - an RFC 6455 reference parser `ParseFrame`.
- `store.dfy` (`Store`): each handler's effect on the store as a pure
  function, with lemmas:
  - `SetEntry`;
  - `UpdateEntry`;
  - `DeleteEntry`;
  - `GetEntry`.
- `server.dfy` (`Server`): the two classes and the request-level
  specification `Dispatch`.
  - `Client` is a client and its socket: `readyState`, `writable`, and the
    bytes written so far.
  - `RealTimeServer` has the fields `data`, `clients` and `routes`. Each
    handler method there is proved against the matching store function.

Whatever the server takes from its environment is a parameter:

- the ISO time stamp that `saveData` writes (`stamp`);
- whether the file write succeeds (`writeOk`);
- `Date.now()` (`now`);
- `JSON.stringify` followed by UTF-8 encoding (`encode`);
- `JSON.parse` (`parse`), which returns `None` where it would throw;
- SHA-1 in base64 (`digest`).

A handler that throws is answered 500 "Внутренняя ошибка сервера" by the
request adapter. The model represents this as the failure `HandlerThrew`.
In every handler the throw comes before any change to the store.

Where the code departs from RFC 6455 or from what its own comments suggest, the model follows the code:

- The outbound frame stores its length in a single byte, modulo 256. It is
  a correct RFC 6455 frame only up to 125 bytes (`FrameIsRfcTextFrame`,
  `FrameMisreadFrom126`).
- The decoder reads only the low 7 bits of the length. It ignores FIN, the
  opcode and the MASK bit.
- When the file write fails, the request is answered 500, but the change
  and the new `lastUpdate` stay in memory (`WritesAndResponses`).
- A route matched exactly has no parameters. So PUT, DELETE or GET of the
  literal path `/api/data/:key` acts on the key `"undefined"`
  (`KeyParam`, `StoreKey`).

## Model

| member | source | states |
|---|---|---|
| JsonValue.Prop | server.js:327-328 | reading a property of null throws; only an object's own fields are found, with their values |
| JsonValue.Merge | server.js:383-384 | `{...a, ...b}` has the fields of both, and those of `b` win |
| JsonValue.Truthy | server.js:349 | arrays and objects are always truthy and null never is, so `!key` refuses null and accepts any array or object |
| JsonValue.StrictEquals | server.js:388 | `===` holds only between equal values, and never when either side is an array or an object |
| JsonValue.HasId | server.js:388 | an item matches only when it is an object with an `id` field equal to the id; an array or object id matches nothing |
| JsonValue.KeyThrows | server.js:353 | converting the key throws exactly for an object with its own `toString` field, or an array holding such a value; such a key is always truthy |
| JsonValue.KeyString | server.js:353 | where the conversion does not throw: a string key is used as it is; a natural number becomes its decimal digits; a negative number starts with `-` |
| JsonValue.NatString | server.js:353 | the property key of a natural number is a non-empty string of decimal digits |
| JsonValue.NatStringInjective | server.js:353 | different natural numbers used as `key` write different entries |
| JsonValue.NumberStringInjective | server.js:353 | different integers, of either sign, used as `key` write different entries |
| Router.Split | server.js:200-201 | `split('/')` always yields at least one piece |
| Router.SplitPiecesHaveNoSlash | server.js:200-201 | no piece of a split contains `/` |
| Router.JoinSplit | server.js:200-201 | joining the pieces with `/` gives back the path |
| Router.SplitJoin | server.js:200-201 | splitting slash-free pieces joined by `/` gives back the pieces |
| Router.Bind | server.js:206-211 | every bound name comes from a `:name` segment before the bound position, carrying the path segment at that position |
| Router.Scan | server.js:198-222 | a result is some matching `:` pattern's handler with that pattern's bindings |
| Router.Resolve | server.js:188-225 | a method without a table resolves to nothing; any result is the handler of one of the method's routes |
| Router.MatchSegments | server.js:205-216 | the segment loop succeeds exactly when every literal segment equals the path's, and then returns exactly `Bind` |
| Router.MatchRoute | server.js:199-220 | one route yields a result exactly when its pattern matches the path, and then its handler with its bindings |
| Router.GetRoutes | server.js:48-64 | eight GET routes, the fourth being `/api/data/:key` to getData |
| Router.Routes | server.js:35-65 | the five method tables of the constructor; GET holds the GET routes and OPTIONS none |
| Router.RouteTables | server.js:35-65 | no table repeats a key; among the GET keys only `/api/data/:key` has a parameter; POST, PUT and DELETE hold one route each |
| Router.Exact | server.js:193-195 | there is an exact hit iff some route's key equals the path, and the hit is that route's handler |
| Router.FindRoute | server.js:188-225 | the loop over the table, with its inner loop and `break`, returns exactly the reference resolution `Resolve` |
| Router.ExactRouteWins | server.js:193-195 | a path that is itself a key gets that handler with no params, even when a pattern would also match |
| Router.ScanFirstMatch | server.js:198-222 | the pattern scan succeeds iff some `:` pattern matches, and returns the first one with its bindings |
| Router.ScanSucceeds | server.js:198-222 | the pattern scan succeeds exactly when some `:` pattern of the table matches |
| Router.ScanReturnsFirst | server.js:198-222 | a successful scan returns the first matching pattern, with its bindings |
| Router.ResolveNone | server.js:189-190 | null is returned iff the method has no table, or no key equals the path and no pattern matches |
| Router.ResolveByPattern | server.js:199-218 | a pattern match has as many segments as the path; its literal segments equal the path's; no earlier pattern matched |
| Router.BindKeys | server.js:206-211 | the bound parameter names are exactly the names of the `:` segments |
| Router.BindValue | server.js:208-210 | each `:name` is bound to the path segment at its position (the later one when a name repeats) |
| Router.SubstitutedPathMatches | server.js:198-218 | substituting slash-free values for a pattern's segments gives a path that the pattern matches, binding each name to its value |
| Router.GetKeyRoute | server.js:54 | GET `/api/data/<key>` reaches getData with `key` bound |
| Router.PutDeleteKeyRoutes | server.js:56-57 | PUT and DELETE `/api/data/<key>` reach updateData and deleteData with `key` bound |
| Router.PostRoute | server.js:55 | POST reaches setData for `/api/data` exactly, with no params, and nothing for any other path |
| Router.ResolvedHandlerAmong | server.js:188-225 | when every route of a method's table has a handler from a set, whatever is returned is in that set |
| Router.GetHandlersRead | server.js:48-64 | every GET route's handler is one that only reads |
| Router.GetNeverWrites | server.js:47-65 | no GET path reaches setData, updateData or deleteData |
| Router.UnknownMethod | server.js:35-41 | a method outside GET, POST, PUT, DELETE and OPTIONS resolves to nothing |
| Frames.Frame | server.js:837-842 | the frame is `0x81`, the length modulo 256, then the payload unchanged and unmasked: 2 + n bytes |
| Frames.FrameIsRfcTextFrame | server.js:837-842 | up to 125 bytes, an RFC 6455 reader sees a final, unmasked text frame carrying the payload |
| Frames.FrameMisreadFrom126 | server.js:840 | from 126 bytes on, an RFC 6455 reader never recovers that frame |
| Frames.PayloadLength | server.js:868 | the length read is the low 7 bits of byte 1, at most 127 (0 for a chunk shorter than 2 bytes) |
| Frames.Unmasked | server.js:872-876 | byte i is byte 6+i XOR byte 2+(i mod 4); a byte past the end reads as 0 |
| Frames.DecodeFrame | server.js:866-878 | nothing iff the length is 0; otherwise the loop fills a fresh buffer with exactly `Unmasked` |
| Frames.XorUndo | server.js:875 | XOR with the same mask byte twice gives the byte back |
| Frames.MaskTwice | server.js:872-876 | masking twice with the same 4-byte key gives the data back |
| Frames.UnmaskRoundTrip | server.js:866-878 | masking any payload of up to 125 bytes with any 4-byte key, then decoding, gives the payload back |
| Frames.ClientFrameIsRfcFrame | server.js:866-878 | that client frame is what RFC 6455 reads as a masked text frame carrying the payload |
| Frames.UnmaskedAgreesWithRfc | server.js:866-878 | on any masked frame of up to 125 bytes, the unmasked bytes are the payload RFC 6455 assigns to it |
| Store.Stamped | server.js:251 | the stamp adds or overwrites `lastUpdate` with the time stamp and keeps every other entry |
| Store.StoredValue | server.js:353 | `value` is stored when it is present and truthy; otherwise (absent or falsy) the whole body is stored |
| Store.SetEntry | server.js:346-353 | the write happens exactly when the body is an object with a truthy `key` that converts to a property key; a null body or a key whose conversion throws gives 500, anything else 400; a write adds exactly that key |
| Store.SetEntryRefuses | server.js:347-351 | a non-null body without a truthy `key` is refused with 400 |
| Store.SetEntryWrites | server.js:353 | with a truthy key that converts, that entry (and no other) becomes `value` when truthy, else the whole body |
| Store.SetEntryKeyThrows | server.js:353 | a key whose conversion throws passes the `!key` test, then the assignment throws: 500 and nothing written |
| Store.ObjectKeyWithToString | server.js:353 | the body `{"key": {"toString": 1}, "value": 5}` is answered 500 |
| Store.SetEntryIdempotent | server.js:346-354 | posting the same body twice leaves the store as once, also after the `lastUpdate` stamp |
| Store.FindById | server.js:388 | `findIndex`: the first index whose item has that id, none, or a throw on a null item met first |
| Store.UpdateItems | server.js:386-394 | a throw only on a null body or a null item; otherwise the body is appended, or the length stays and only items carrying the body's `id` change |
| Store.UpdateEntry | server.js:379-397 | 404 exactly for an absent key; never 400; a throw only on an array value |
| Store.UpdateAbsentKey | server.js:379-381 | an absent key is refused with 404 |
| Store.UpdateKeepsOtherKeys | server.js:375-397 | an update keeps the set of keys and every other key's value |
| Store.UpdateMergesObject | server.js:383-384 | an object is shallow-merged: body fields win, the others stay |
| Store.UpdateObjectIdempotent | server.js:383-384 | merging the same body twice gives the same store as once |
| Store.UpdateArrayById | server.js:386-391 | with a truthy id only the first matching item changes, getting the other body fields; no match changes nothing and appends nothing |
| Store.UpdateArrayAppends | server.js:392-394 | an array with no truthy id in the body gets the body appended |
| Store.UpdateReplacesScalar | server.js:395-397 | a string, number or boolean is replaced by the body |
| Store.WithoutId | server.js:430 | the filter never lengthens the array |
| Store.WithoutIdMembers | server.js:430 | the filter keeps exactly the items that do not carry the id |
| Store.WithoutIdConcat | server.js:430 | the filter works piecewise, so the kept items keep their order |
| Store.WithoutIdIdempotent | server.js:430 | filtering the same id twice is filtering it once |
| Store.DeleteEntry | server.js:423-433 | 404 exactly for an absent key; never 400; a delete keeps the set of keys or drops exactly its own key |
| Store.DeleteAbsentKey | server.js:423-425 | an absent key is refused with 404 |
| Store.DeleteRemovesField | server.js:427-428 | a present field is removed and nothing else changes |
| Store.DeleteById | server.js:429-430 | otherwise an id on an array keeps exactly the items without it, in order |
| Store.DeleteWholeKey | server.js:431-433 | otherwise the whole key goes, also when the field asked for is absent |
| Store.DeleteTouchesOnlyItsKey | server.js:419-433 | a delete adds no key and changes no other key |
| Store.GetEntry | server.js:323-344 | 404 for an absent key; the field when asked for and present; the whole value otherwise; a throw for a field of null |
| Server.Sent | server.js:834-844 | `client.send` writes one frame exactly when the socket is writable |
| Server.Envelope | server.js:266-270 | a broadcast message has exactly `type`, `data` and `timestamp`, carrying the given values |
| Server.Handshake | server.js:823-830 | the fixed status and header lines, then the accept value, then the blank line |
| Server.HandshakeInjective | server.js:823-830 | different accept values give different handshakes |
| Server.Welcome | server.js:854-861 | a WELCOME message whose data carries the time and the client count |
| Server.AcceptSource | server.js:818-820 | the hashed text is the key followed by the fixed GUID |
| Server.AcceptSourceInjective | server.js:818-820 | different keys are hashed from different texts |
| Server.Reply | server.js:906-930 | every reply is a PONG, SUBSCRIBED or ECHO object |
| Server.ReplySilent | server.js:906-930 | no reply exactly for a null message, or a SUBSCRIBE without non-null `data` |
| Server.PingGetsPong | server.js:910-912 | PING gets PONG with the time |
| Server.SubscribeConfirmsChannels | server.js:914-920 | SUBSCRIBE gets SUBSCRIBED with the truthy `data.channels`, else `[]` |
| Server.EchoReturnsMessage | server.js:922-928 | any other non-null message comes back whole in an ECHO |
| Server.Answer | server.js:864-889 | a zero length or a payload that does not parse is not answered; any answer is the reply to the parsed unmasked payload |
| Server.MaskedFrameAnswered | server.js:866-884 | a client's masked frame is answered as the message the client masked, whatever the key |
| Server.Refusal | server.js:162-165 | an error reply carries the failure's status, never 200 |
| Server.KeyParam | server.js:134 | the key is present exactly when the route bound `key`, and is then that path segment |
| Server.StoreKey | server.js:324 | a present key is used as it is; an undefined key reads and writes the property "undefined" |
| Server.LiteralPatternPath | server.js:193-195 | GET, PUT and DELETE of the literal path `/api/data/:key` match exactly, with no params, and so act on the key "undefined" |
| Server.SafeParse | server.js:228-234 | the parsed value, or `{}` where parsing throws |
| Server.RequestBody | server.js:135 | an empty body is `{}`; any other body is what `safeParseJSON` gives |
| Server.GetDataResponse | server.js:323-344 | 404 exactly for an absent key; 500 exactly for a field asked of null; otherwise 200 with the whole value when no field is asked |
| Server.AllData | server.js:315-321 | 200 with the whole store as `data` |
| Server.SetDataEffect | server.js:346-373 | a notice exactly with a 200; 400 exactly for a non-null body without a truthy key; a refusal changes nothing; the notice's `value` is the stored entry |
| Server.UpdateDataEffect | server.js:375-417 | a notice exactly with a 200; 404 exactly for an absent key; a refusal changes nothing; no key is added but `lastUpdate`; the notice's `value` is the updated entry |
| Server.DeleteDataEffect | server.js:419-452 | a notice exactly with a 200; 404 exactly for an absent key; a refusal changes nothing; no key is added but `lastUpdate` |
| Server.Handle | server.js:131-173 | the data API handlers answer JSON; any other handler serves its page or file |
| Server.Dispatch | server.js:122-177 | exactly a preflight answers the empty 200 and changes nothing; an unrouted request answers 404 and changes nothing |
| Server.ReadOnlyHandlers | server.js:315-344 | the handlers other than set, update and delete leave the store alone and notify nobody |
| Server.ReadOnlyRequests | server.js:124-177 | requests other than POST, PUT and DELETE leave the store alone and notify nobody |
| Server.WritesAndResponses | server.js:346-452 | a notice goes out only with a 200; any change carries the new `lastUpdate`; a refusal changes nothing |
| Server.DispatchRouted | server.js:131-170 | a routed request goes to the handler the route names, with its params and the parsed body |
| Server.PostKeyStores | server.js:346-373 | a POST with a string key and a truthy value succeeds and stores the value under the key, stamped |
| Server.SetThenGet | server.js:323-373 | a value posted under a key is what GET of that key returns |
| Server.DeleteThenGet | server.js:419-433 | after DELETE of a key, reading it back answers 404 |
| Server.DeleteKeyRemoves | server.js:419-433 | DELETE of a present key with no query drops the key and stamps the store, whether or not the save works |
| Server.DeleteWithoutQuery | server.js:431-433 | the delete handler with no `field` or `id` drops the whole key |
| Server.Announced | server.js:358-362 | a DATA_UPDATED notice writes at most one frame to a client, exactly when there is a notice and the client is OPEN and writable, and that frame carries the notice in its envelope |
| Server.Delivered | server.js:272-276 | a broadcast writes at most one frame to a client, exactly when it is OPEN and writable |
| Server.Client.constructor | server.js:823-847 | a new client is OPEN, and its socket holds the handshake |
| Server.Client.Send | server.js:834-844 | a writable socket gets exactly one more frame; otherwise nothing is written |
| Server.RealTimeServer.constructor | server.js:23-43 | the initial store, no clients, the route table of `setupRoutes` |
| Server.RealTimeServer.SaveData | server.js:249-262 | the store gets the new `lastUpdate`; the result is whether the write worked |
| Server.RealTimeServer.Broadcast | server.js:265-277 | every client in the set gets one frame of the message iff it is OPEN and writable; no other state changes |
| Server.RealTimeServer.BroadcastReachesAll | server.js:265-277 | while all clients are OPEN, every writable client is reached |
| Server.RealTimeServer.GetData | server.js:323-344 | the response is what `GetEntry` prescribes |
| Server.RealTimeServer.SetData | server.js:346-373 | the new store, the response and the broadcast are those of `SetEntry` followed by saving |
| Server.RealTimeServer.UpdateValue | server.js:379-397 | the in-place update changes the store exactly as `UpdateEntry` says, or reports its failure |
| Server.RealTimeServer.UpdateData | server.js:375-417 | the new store, the response and the broadcast are those of `UpdateEntry` followed by saving |
| Server.RealTimeServer.RemoveValue | server.js:423-433 | the in-place delete changes the store exactly as `DeleteEntry` says, or reports its failure |
| Server.RealTimeServer.DeleteData | server.js:419-452 | the new store, the response and the broadcast are those of `DeleteEntry` followed by saving |
| Server.RealTimeServer.HandleRequest | server.js:122-177 | preflight, route lookup, body parsing and handler give exactly `Dispatch` |
| Server.RealTimeServer.Upgrade | server.js:809-861 | (with the path test of server.js:87-94) refused for another path or a missing key; otherwise handshake, one new OPEN client in the set, and the welcome frame with the new count |
| Server.RealTimeServer.Disconnect | server.js:892-900 | the client leaves the set, and the rest stay OPEN |
| Server.RealTimeServer.HandleClientMessage | server.js:906-930 | only the sender gets a frame, the one `Reply` gives, if its socket is writable |
| Server.RealTimeServer.OnData | server.js:864-889 | a chunk is answered as `Answer` says: unmask, parse, reply |

## Left out

- Property access on strings and arrays is not modelled. The model does not read their `length` or indices, or spread their characters or elements as fields. Properties inherited from `Object.prototype` (`toString`, `__proto__`) are also not modelled. A property of such a value reads as undefined, and spreading it copies nothing. Setting `__proto__` as a key is not modelled either. So a key named after an inherited property answers differently: GET, PUT and DELETE on `/api/data/toString` answer 200 in the server and 404 in the model, and `DELETE /api/data/k?field=toString` on an object value changes nothing in the server but removes the whole key in the model.
- Numbers are integers. Floating point, `NaN` and the exponent forms that `String(n)` gives are not modelled.
- Object key order is not modelled. Objects are maps, and `JSON.stringify` and `JSON.parse` are parameters.
- SHA-1 and base64 are not modelled; `digest` is a parameter.
- File I/O is not modelled. `loadData` does not replace the store from the file. `saveData` is the stamp plus a boolean outcome, and the pretty-printed file is not modelled.
- `Date.now()` and the ISO time are not modelled; they are parameters.
- SSL, the `listen` call, the signal handlers and the start-up logging are not modelled.
- The request stream, `StringDecoder`, `URL` parsing, CORS headers and `writeHead` are not modelled. A request enters the model as a method, a pathname, a query map and a body text. The outer 500 "Ошибка сервера" for a malformed URL is not modelled.
- The page and file handlers (`handleIndex`, `handleStatus`, `handleWebSocket`, `serveClientJS`, `serveStyleCSS`, `serveTestHTML`) are not rendered. A request that reaches one is answered `Served(handler)`.
- `sessions` is never used by the code and is not modelled.
- Handlers run one at a time: the interleavings that `await` allows are not modelled.
- Broadcast order is not modelled. The model states what each client receives, not the order in which the set is visited.
- The remote address and the log lines are not modelled.
- TCP chunking is not modelled: each `data` event is taken to be one frame, as the code assumes.
- `script.js` is not part of this model. It is the browser-side demo.
- Frames.Frame: modelled as written. The length byte wraps modulo 256 and there are no extended lengths, so frames over 125 bytes do not follow RFC 6455.
- Server.RealTimeServer.OnData: a JSON parse error and a throw inside `handleClientMessage` both send nothing. The model does not distinguish them.
