# BitMEX client core in Dafny

This project models two pieces of sequential logic in a JavaScript client for the BitMEX derivatives exchange.

- **REST side (`src/bitmex/api.js`).**
  - How a request is signed. The string to sign is built from the verb, the `/api/v1` path with the route (and, for GET, the query), the `expires` second and, for POST/PUT/DELETE, the serialised body.
  - How the URL and `api-*` headers are put on the wire.
  - The `API` constructor's checks and its choice of host.
  - The `count` guard of `getHistoricalData`.
  - The symbol lookup of `position`.
  - The paginated loop of `getAllHistoricalData`. It runs batches of 115 page requests at offsets that grow by 1000. It stops after the first batch whose last page is empty. The loop model returns the first page that is not an array, or else every page concatenated in request order; the code as written lets a falsy non-array page (`null`, `false`, `0`, `""`) through, which is modelled separately (see Findings).
- **Realtime side (`src/bitmex/websocket.js`).** The `WebSocket` session:
  - handler defaults and validation;
  - endpoint choice;
  - the `isOpen` flag, which only the socket's open and close callbacks write;
  - `subscribe`, `unsubscribe`, `auth` and `close`, each of which hands at most one command to the socket.

Some things are foreign to the model and enter it as parameters:

- HMAC-SHA256, `URLSearchParams` and `JSON.stringify` (`Signing.Primitives`);
- the clock (`nowMs`, milliseconds since the epoch);
- the exchange's page responses (a function from `(start, count)` to the JSON value that `getHistoricalData` resolves to).

Modules, one per concern:

- `Wrappers`: `Option` and `Result`.
- `Json`: JavaScript values and their truthiness.
- `Decimal`: how a `Number` is spelled inside the signed string.
- `Signing`: `__get`, `__post`, `__put`, `__delete`.
- `Api`: the `API` class.
- `History`: `getAllHistoricalData`.
- `Realtime`: the `WebSocket` class.

`Signing.Authentic` states what the exchange checks. It recomputes the message from the request as received and compares the HMAC of that message with the `api-signature` header. Every request the client builds passes this check.

Points where the code's behaviour is easy to misread, all modelled as the code has them:

- `auth` throws on a missing key or secret before it checks whether the session is open.
- After sending, `auth` resolves to `undefined`, not `true`.
- `close()` before `init` throws, because there is no socket yet.
- The code has no keep-alive and no forced termination.

The bulk fetch's error test, `if (invalidData)`, is JavaScript truthiness rather than "not an array". `History.BatchStepAsWritten` models it as written; the loop model `History.GetAllHistoricalData` uses the corrected test `History.BatchStep` (see Findings).

## Model

| member | source | states |
|---|---|---|
| `Decimal.FromNat` | src/bitmex/api.js:14 | the number concatenated into the signed string (also api.js:39, 65, 91 and websocket.js:63) is spelled as at least one decimal digit, with no leading zero |
| `Decimal.ToNatFromNat` | src/bitmex/api.js:14 | reading the spelled `expires` back gives the number (round trip) |
| `Decimal.FromNatInjective` | src/bitmex/api.js:14 | distinct `expires` values are spelled differently |
| `Signing.Expires` | src/bitmex/api.js:11 | `expires` is at least 60, and `expires - 60` is the whole second nearest to the clock, with halves rounding up (`Math.round`) |
| `Signing.SignedGet` | src/bitmex/api.js:6-29 | GET: the URL is `baseUrl + "/api/v1" + route + "?" + query`, with no body. The exchange recomputes `"GET" + "/api/v1" + route + "?" + query + expires` from the wire. The `api-expires` header is the signed expiry, and the signature is the HMAC of the recomputed message |
| `Signing.SignedWithBody` | src/bitmex/api.js:31-107 | POST/PUT/DELETE: the URL is `baseUrl + "/api/v1" + route`, with no query. The body sent is `JSON.stringify(body)`. The recomputed message is `verb + "/api/v1" + route + expires + body`, and the signature matches it |
| `Signing.GetMessageCoversRoute` | src/bitmex/api.js:9-15 | two GETs with one query in one second on different routes sign different messages |
| `Signing.BodyMessageCoversRoute` | src/bitmex/api.js:33-40 | two body requests with one body in one second on different routes sign different messages |
| `Signing.GetMessageCoversExpires` | src/bitmex/api.js:11-15 | two GETs that differ only in their expiry second sign different messages |
| `Signing.GetMessageCoversQuery` | src/bitmex/api.js:8-15 | two GETs in one second whose encoded queries differ sign different messages |
| `Signing.BodyMessageCoversBody` | src/bitmex/api.js:34-45 | two body requests whose serialised bodies differ sign different messages |
| `Signing.BodyMessageCoversExpires` | src/bitmex/api.js:36-40 | two body requests with the same body but different expiry seconds sign different messages |
| `Api.NewClient` | src/bitmex/api.js:119-127 | construction succeeds iff key and secret are both non-empty. The key is checked first, with the source's messages. The base URL is the testnet host iff `testnet`, otherwise the production host |
| `Api.HistoricalDataParams` | src/bitmex/api.js:257-264 | the query object has the keys `count, start, symbol, binSize, startTime, endTime` in that order, which is the order encoded into the signed query, with the caller's values |
| `Api.GetHistoricalData` | src/bitmex/api.js:255-267 | it fails iff `count > 1000`, and then no request exists. Otherwise it is one authentic GET of `/trade/bucketed` with the query `count, start, symbol, binSize, startTime, endTime`, no body, the JSON content type, the client's `api-key` and `api-expires` equal to the current expiry |
| `Api.PositionRequest` | src/bitmex/api.js:248-250 | `position` issues one authentic GET of `/position` with empty parameters, no body, the JSON content type, the client's `api-key` and `api-expires` equal to the current expiry |
| `Api.FindBySymbol` | src/bitmex/api.js:251 | `find` returns the first entry whose `symbol` equals the requested one, if no `null` comes before it. A `null` met first throws. `undefined` iff no entry matches and none is `null` |
| `Api.SelectPosition` | src/bitmex/api.js:251 | without a symbol, the response is returned unchanged. With one, a non-array response throws, and an array is searched with `find` |
| `Api.SelectPositionFindsFirst` | src/bitmex/api.js:251 | over a list of position objects, a position is found iff one has the symbol, and it is the first such |
| `History.RequestsInOrder` | src/bitmex/api.js:272-286 | request `j` of the fetch (batch `j / 115`, slot `j % 115`) asks for 1000 records at offset `1000 * j`, so batch `k` asks for `115000 * k + 1000 * i` |
| `History.RequestsIncreaseAndPassGuard` | src/bitmex/api.js:256-286 | offsets strictly increase over the whole fetch, and every request uses count 1000 and passes the `count` guard |
| `History.FirstNonArray` | src/bitmex/api.js:290 | `data.find(r => !Array.isArray(r))` gives the first index whose page is not an array, or nothing iff every page is an array |
| `History.BatchStep` | src/bitmex/api.js:290-295 | corrected batch step. It aborts iff some page is not an array, with the first such page as payload. Otherwise it appends the concatenated pages, and it is finished iff the last page is empty |
| `History.GetAllHistoricalData` | src/bitmex/api.js:269-299 | the loop stops after the first stopping batch and issues exactly the requests of the batches up to it. The result is the outcome of that batch: the first non-array page, or every record merged |
| `History.AccumulatedIsAllPages` | src/bitmex/api.js:294 | merging batch after batch equals concatenating every page in request order |
| `History.DoneIsConcatenation` | src/bitmex/api.js:294-298 | a successful fetch returns every page concatenated in request order. If the first batch already stops, that is its own pages |
| `History.AbortedIsFirstNonArray` | src/bitmex/api.js:290-291 | an aborted fetch returns the first non-array response of the whole fetch in request order, which lies in the last batch. No accumulated records come with it |
| `History.ThreeFullPagesScenario` | src/bitmex/api.js:269-299 | with pages of 1000, 1000, 1000 and then 0 records, the fetch stops after one batch with exactly 3000 records in offset order |
| `History.ErrorInSecondBatchScenario` | src/bitmex/api.js:269-299 | with an error object as the 47th page of the second batch, exactly two batches run and the result is that object |
| `History.Flat` | src/bitmex/api.js:294 | `data.flat()`: exactly the concatenation, in page order, of every array page's items and of each non-array page as a one-element list (`Flatten` of `Wrap`); on array pages alone it is their plain concatenation |
| `History.LengthIsZero` | src/bitmex/api.js:295 | `v.length === 0`: throws iff `v` is `null`; true for an empty array or string, false for booleans and numbers, and for an object only when it has a `length` field equal to 0 |
| `History.BatchStepAsWritten` | src/bitmex/api.js:290-295 | the step as written. It returns a page iff the first non-array page is truthy, and then returns that page. Otherwise it throws iff the last page is `null`, and else merges `data.flat()` and is finished iff the last page's `length` is 0 |
| `History.AsWrittenAgreesOnTruthyPages` | src/bitmex/api.js:290-295 | when every non-array page is truthy, the step as written equals the corrected step |
| `History.FalsyPageSlipsThrough` | src/bitmex/api.js:290-291 | a batch with a `null` first page and 114 empty pages: the step as written appends `[null]` to the records and finishes the fetch, while the corrected step aborts with `null` |
| `Realtime.ConnectionUri` | src/bitmex/websocket.js:36 | the testnet realtime URI iff `testnet`, otherwise the production URI |
| `Realtime.ToJson` | src/bitmex/websocket.js:66-82 | the frame object has exactly the keys `op` and `args`, with the operation's name and its argument array |
| `Realtime.FrameRoundTrip` | src/bitmex/websocket.js:66-82 | every `{op, args}` frame the session builds reads back as the frame it came from |
| `Realtime.ConfigureHandlers` | src/bitmex/websocket.js:25-32 | construction fails iff `onMessage` is missing. Each missing open, close or error handler is replaced by its logging default, and a supplied one is kept |
| `Realtime.AuthFrame` | src/bitmex/websocket.js:58-66 | the auth frame carries `[apiKey, expires, sig]`, where `expires` is the REST expiry of the clock and `sig` is the HMAC of `"GET/realtime" + expires` |
| `Realtime.CheckCredentials` | src/bitmex/websocket.js:53-55 | `auth` rejects iff the key or the secret is missing, key first, with the source's messages |
| `Realtime.WebSocket.Create` | src/bitmex/websocket.js:25-32 | the constructor fails iff `onMessage` is missing. Otherwise the session is closed, has no URI and has sent nothing |
| `Realtime.WebSocket.Init` | src/bitmex/websocket.js:34-37 | it records the chosen URI and connects to it once. `isOpen` is unchanged |
| `Realtime.WebSocket.HandleOpen` | src/bitmex/websocket.js:39-43 | the open callback sets `isOpen` and calls the open handler. Nothing is sent |
| `Realtime.WebSocket.HandleClose` | src/bitmex/websocket.js:45-48 | the close callback clears `isOpen` and calls the close handler |
| `Realtime.WebSocket.HandleMessage` | src/bitmex/websocket.js:44 | an inbound event goes unchanged to the caller's message handler, and nothing else changes |
| `Realtime.WebSocket.HandleError` | src/bitmex/websocket.js:49 | an error event goes to the error handler, and nothing else changes |
| `Realtime.WebSocket.Auth` | src/bitmex/websocket.js:53-68 | it throws on a missing key or secret before it looks at the state. Not open: it returns false and sends nothing. Open: it sends exactly one `authKeyExpires` frame. `isOpen` is unchanged |
| `Realtime.WebSocket.Subscribe` | src/bitmex/websocket.js:70-77 | it returns the open state. It sends exactly one `subscribe` frame iff open, otherwise nothing. `isOpen` is unchanged |
| `Realtime.WebSocket.Unsubscribe` | src/bitmex/websocket.js:79-86 | the same as `subscribe`, with an `unsubscribe` frame |
| `Realtime.WebSocket.Close` | src/bitmex/websocket.js:88-90 | it asks the socket to close once. It throws before `init`. `isOpen` is left to the close callback |
| `Realtime.SubscribeAroundOpen` | src/bitmex/websocket.js:39-86 | a session driven through the socket's life: subscribing before `init` or before the open event sends nothing, and after it sends one frame; `auth` without a secret throws; after the close event an unsubscribe sends nothing, so the wire holds exactly the connect and one subscribe |

## Left out

- Network I/O: `node-fetch`, `response.json()` and `info()` (src/bitmex/api.js:18-28, 129-134). A request is returned as a value, and a response is an oracle value.
- HMAC-SHA256, `URLSearchParams` encoding and `JSON.stringify`: these are foreign. They are function parameters, so nothing is assumed about collisions.
- `Date.now()` is the parameter `nowMs`, a non-negative integer. The floating-point division inside `Math.round` is not modelled. JSON numbers are integers. Spelling numbers from 1e21 up in exponent form is not modelled.
- The 60-second `__sleep` before each batch and the concurrency of `Promise.all`: these are timing. Issuance order is kept.
- History.GetAllHistoricalData: it requires that some batch stops. For responses where none ever does, the source keeps issuing batches forever, and the model does not describe that run.
- The order convenience methods (`updateOrder`, `listOrdersOpen`, `cancelOrders`, `buyMarket`, `sellMarket`, `buyLimit`, `sellLimit`, `reduceOnlyOrder`, `stopMarket`, `setLeverage`). Each builds a body or a query object from its arguments and hands it to `__post`/`__put`/`__delete`/`__get`, which `Signing.SignedWithBody` and `Signing.SignedGet` cover for any body and any parameters. `updateOrder` also sets `orderID` on the caller's own body object before sending it; that mutation of the caller's object is not modelled.
- The socket transport (the `ws` library) and the console output of the default handlers. The defaults are the named callbacks `LogConnected`, `LogDisconnected` and `LogError`.
- The promise returned by `init` and when it resolves.
- A second `init` while an older socket is alive: the older socket's callbacks would still write `_isOpen`.
- Keep-alive pings and forced termination after `close`: they do not exist in this code.
- `src/bitmex/index.js` only re-exports the two classes.

## Findings

| source | as written | input that shows it | evidently intended | confidence | as-written member | corrected member |
|---|---|---|---|---|---|---|
| src/bitmex/api.js:290-291 | `if (invalidData)` returns a non-array page only when it is truthy. A JSON `null`, `false`, `0` or `""` page is merged into the records by `data.flat()` instead | a batch whose first page is `null` and whose other 114 pages are `[]`: the step appends `[null]` to the records and finishes the fetch (with records exactly `[null]` when it is the first batch) | any page that is not an array aborts the fetch with that page | medium, not executed | `History.BatchStepAsWritten` (shown by `History.FalsyPageSlipsThrough`) | `History.BatchStep` (used by `History.GetAllHistoricalData`) |
