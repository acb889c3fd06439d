/** The `API` class of `api.js`: construction-time validation, the choice of
    REST host, and the request-level logic of `getHistoricalData` and
    `position`. The instance fields are written only by the constructor, so
    an instance is a value here. */
module Api {
  import opened Wrappers
  import opened Json
  import opened Signing

  const ProductionHost: string := "https://www.bitmex.com"
  const TestnetHost: string := "https://testnet.bitmex.com"
  const MaxCount: int := 1000
  const BucketedRoute: string := "/trade/bucketed"
  const PositionRoute: string := "/position"

  datatype Client = Client(apiKey: string, apiSecret: string, isTestnet: bool, baseUrl: string)

  /** `new API(apiKey, apiSecret, testnet)`: the key is checked before the
      secret; the testnet host is used exactly when `testnet` is set. */
  function NewClient(apiKey: Option<string>, apiSecret: Option<string>, testnet: bool): (r: Result<Client, string>)
    ensures r.Ok? <==> Present(apiKey) && Present(apiSecret)
    ensures !Present(apiKey) ==> r == Err("apiKey argument is required")
    ensures Present(apiKey) && !Present(apiSecret) ==> r == Err("apiSecret argument is required")
    ensures r.Ok? ==> r.value.apiKey == apiKey.value && r.value.apiSecret == apiSecret.value
                      && r.value.isTestnet == testnet
    ensures r.Ok? ==> (r.value.baseUrl == TestnetHost <==> testnet)
    ensures r.Ok? ==> r.value.baseUrl in {TestnetHost, ProductionHost}
  {
    if !Present(apiKey) then Err("apiKey argument is required")
    else if !Present(apiSecret) then Err("apiSecret argument is required")
    else Ok(Client(apiKey.value, apiSecret.value, testnet, if testnet then TestnetHost else ProductionHost))
  }

  /** The query object of `getHistoricalData`, in its insertion order. */
  function HistoricalDataParams(symbol: string, interval: string, start: int, count: int,
                                startTime: Json, endTime: Json): (p: Params)
    ensures |p| == 6
    ensures [p[0].0, p[1].0, p[2].0, p[3].0, p[4].0, p[5].0]
         == ["count", "start", "symbol", "binSize", "startTime", "endTime"]
    ensures p[0].1 == JNum(count) && p[1].1 == JNum(start) && p[2].1 == JStr(symbol)
            && p[3].1 == JStr(interval) && p[4].1 == startTime && p[5].1 == endTime
  {
    [("count", JNum(count)), ("start", JNum(start)), ("symbol", JStr(symbol)),
     ("binSize", JStr(interval)), ("startTime", startTime), ("endTime", endTime)]
  }

  /** `getHistoricalData`: a `count` above 1000 is rejected before any
      request exists; otherwise one signed GET of the bucketed-trade route. */
  function GetHistoricalData(c: Client, symbol: string, interval: string, start: int, count: int,
                             startTime: Json, endTime: Json, nowMs: nat, prims: Primitives)
    : (r: Result<Request, string>)
    ensures r.Err? <==> count > MaxCount
    ensures r.Err? ==> r.error == "'count' cannot be greater than 1000"
    ensures r.Ok? ==> r.value.verb == GET && r.value.body == None
    ensures r.Ok? ==> r.value.url == c.baseUrl + ApiPath + BucketedRoute + "?"
                                     + prims.encodeQuery(HistoricalDataParams(symbol, interval, start, count, startTime, endTime))
    ensures r.Ok? ==> r.value.headers.contentType == JsonContentType && r.value.headers.apiKey == c.apiKey
                      && r.value.headers.apiExpires == Expires(nowMs)
    ensures r.Ok? ==> Authentic(r.value, c.baseUrl, c.apiSecret, prims.hmac)
  {
    if count > MaxCount then Err("'count' cannot be greater than 1000")
    else Ok(SignedGet(c.baseUrl, BucketedRoute, HistoricalDataParams(symbol, interval, start, count, startTime, endTime),
                      c.apiSecret, c.apiKey, nowMs, prims))
  }

  /** The request `position` issues: a GET of `/position` with no parameters. */
  function PositionRequest(c: Client, nowMs: nat, prims: Primitives): (r: Request)
    ensures r.verb == GET && r.url == c.baseUrl + ApiPath + PositionRoute + "?" + prims.encodeQuery([])
    ensures r.body == None
    ensures r.headers.contentType == JsonContentType && r.headers.apiKey == c.apiKey
            && r.headers.apiExpires == Expires(nowMs)
    ensures Authentic(r, c.baseUrl, c.apiSecret, prims.hmac)
  {
    SignedGet(c.baseUrl, PositionRoute, [], c.apiSecret, c.apiKey, nowMs, prims)
  }

  /** The value `position` resolves to. `Missing` is `undefined` from `find`;
      `TypeError` is the exception raised when the response is not an array
      (`find` is not a function) or when the scan meets a `null` element. */
  datatype Lookup = Whole(response: Json) | Found(position: Json) | Missing | TypeError

  /** `p.symbol === symbol`. */
  predicate HasSymbol(p: Json, symbol: string) {
    p.JObj? && "symbol" in p.fields && p.fields["symbol"] == JStr(symbol)
  }

  /** `Array.prototype.find` with `p => p.symbol === symbol` over `items`
      from index `from`: the first match, unless a `null` is met first, whose
      property read throws. */
  function FindBySymbol(items: seq<Json>, symbol: string, from: nat): (r: Lookup)
    requires from <= |items|
    ensures r.Found? || r.Missing? || r.TypeError?
    ensures r.Found? ==> exists i :: from <= i < |items| && items[i] == r.position && HasSymbol(items[i], symbol)
                                       && forall j :: from <= j < i ==> items[j] != JNull && !HasSymbol(items[j], symbol)
    ensures r.TypeError? ==> exists i :: from <= i < |items| && items[i] == JNull
                                       && forall j :: from <= j < i ==> !HasSymbol(items[j], symbol)
    ensures r.Missing? <==> forall j :: from <= j < |items| ==> items[j] != JNull && !HasSymbol(items[j], symbol)
    decreases |items| - from
  {
    if from == |items| then Missing
    else if items[from] == JNull then TypeError
    else if HasSymbol(items[from], symbol) then Found(items[from])
    else FindBySymbol(items, symbol, from + 1)
  }

  /** Line 251 of `position`: with a non-empty symbol, the matching entry of
      the response array; without one, the response unchanged. */
  function SelectPosition(symbol: Option<string>, response: Json): (r: Lookup)
    ensures !Present(symbol) ==> r == Whole(response)
    ensures Present(symbol) && !response.JArr? ==> r == TypeError
    ensures Present(symbol) && response.JArr? ==> r == FindBySymbol(response.items, symbol.value, 0)
  {
    if !Present(symbol) then Whole(response)
    else if !response.JArr? then TypeError
    else FindBySymbol(response.items, symbol.value, 0)
  }

  /** When every entry of the position list is an object, the lookup finds
      a position exactly when one has the requested symbol, and that one is
      the first such entry. */
  lemma SelectPositionFindsFirst(symbol: string, positions: seq<Json>)
    requires symbol != ""
    requires forall j :: 0 <= j < |positions| ==> positions[j].JObj?
    ensures SelectPosition(Some(symbol), JArr(positions)).Found?
        <==> exists i :: 0 <= i < |positions| && HasSymbol(positions[i], symbol)
    ensures SelectPosition(Some(symbol), JArr(positions)).Found? ==>
              exists i :: 0 <= i < |positions| && HasSymbol(positions[i], symbol)
                          && SelectPosition(Some(symbol), JArr(positions)).position == positions[i]
                          && forall j :: 0 <= j < i ==> !HasSymbol(positions[j], symbol)
  {
  }
}
