/** The signed REST requests of `api.js`: the string to sign, the URL on the
    wire and the authentication headers built by `__get`, `__post`, `__put`
    and `__delete`. HMAC-SHA256, `URLSearchParams` and `JSON.stringify` are
    foreign and enter as function parameters; the clock enters as `nowMs`. */
module Signing {
  import opened Wrappers
  import opened Json
  import Decimal

  const ApiPath: string := "/api/v1"
  const JsonContentType: string := "application/json"

  datatype Verb = GET | POST | PUT | DELETE

  function VerbName(v: Verb): string {
    match v
    case GET => "GET"
    case POST => "POST"
    case PUT => "PUT"
    case DELETE => "DELETE"
  }

  /** Query parameters in insertion order, as `URLSearchParams` keeps them. */
  type Params = seq<(string, Json)>

  /** The foreign primitives: `hmac(secret, message)` is the lowercase hex
      HMAC-SHA256 digest, `encodeQuery` is `new URLSearchParams(p).toString()`
      and `stringify` is `JSON.stringify`. */
  datatype Primitives = Primitives(
    hmac: (string, string) -> string,
    encodeQuery: Params -> string,
    stringify: Json -> string)

  datatype Headers = Headers(contentType: string, apiKey: string, apiExpires: nat, apiSignature: string)

  /** One request as handed to `fetch`. */
  datatype Request = Request(verb: Verb, url: string, headers: Headers, body: Option<string>)

  /** `Math.round(Date.now() / 1000) + 60`: the whole second nearest to the
      clock (halves round up), one minute ahead. */
  function Expires(nowMs: nat): (e: nat)
    ensures e >= 60
    ensures 1000 * (e - 60) - 500 <= nowMs < 1000 * (e - 60) + 500
  {
    (nowMs + 500) / 1000 + 60
  }

  function BodyText(body: Option<string>): string {
    if body.Some? then body.value else ""
  }

  predicate HasPrefix(s: string, p: string) {
    |p| <= |s| && s[..|p|] == p
  }

  /** The message the exchange recomputes from a request it receives on
      `baseUrl`: verb, path (with query), the `api-expires` header and the
      body, in that order. */
  function ServerMessage(r: Request, baseUrl: string): string
    requires HasPrefix(r.url, baseUrl)
  {
    VerbName(r.verb) + r.url[|baseUrl|..] + Decimal.FromNat(r.headers.apiExpires) + BodyText(r.body)
  }

  /** The exchange accepts `r`: its signature is the HMAC of what it can
      recompute from the wire. */
  predicate Authentic(r: Request, baseUrl: string, apiSecret: string, hmac: (string, string) -> string) {
    HasPrefix(r.url, baseUrl) && r.headers.apiSignature == hmac(apiSecret, ServerMessage(r, baseUrl))
  }

  /** `__get`: the query travels in the URL and is signed with it; no body. */
  function SignedGet(baseUrl: string, route: string, params: Params, apiSecret: string, apiKey: string,
                     nowMs: nat, prims: Primitives): (r: Request)
    ensures r.verb == GET && r.body == None
    ensures r.url == baseUrl + ApiPath + route + "?" + prims.encodeQuery(params)
    ensures r.headers.contentType == JsonContentType && r.headers.apiKey == apiKey
    ensures r.headers.apiExpires == Expires(nowMs)
    ensures HasPrefix(r.url, baseUrl)
    ensures ServerMessage(r, baseUrl)
         == "GET" + ApiPath + route + "?" + prims.encodeQuery(params) + Decimal.FromNat(Expires(nowMs))
    ensures Authentic(r, baseUrl, apiSecret, prims.hmac)
  {
    var routePath := ApiPath + route + "?" + prims.encodeQuery(params);
    var expires := Expires(nowMs);
    var signature := prims.hmac(apiSecret, VerbName(GET) + routePath + Decimal.FromNat(expires));
    var url := baseUrl + routePath;
    assert url[|baseUrl|..] == routePath;
    assert VerbName(GET) + routePath + Decimal.FromNat(expires) + BodyText(None)
        == VerbName(GET) + routePath + Decimal.FromNat(expires);
    Request(GET, url, Headers(JsonContentType, apiKey, expires, signature), None)
  }

  /** `__post`, `__put` and `__delete`: the same serialised body is signed
      and sent; the signed path carries no query string. */
  function SignedWithBody(verb: Verb, baseUrl: string, route: string, body: Json, apiSecret: string,
                          apiKey: string, nowMs: nat, prims: Primitives): (r: Request)
    requires verb != GET
    ensures r.verb == verb && r.body == Some(prims.stringify(body))
    ensures r.url == baseUrl + ApiPath + route
    ensures r.headers.contentType == JsonContentType && r.headers.apiKey == apiKey
    ensures r.headers.apiExpires == Expires(nowMs)
    ensures HasPrefix(r.url, baseUrl)
    ensures ServerMessage(r, baseUrl)
         == VerbName(verb) + ApiPath + route + Decimal.FromNat(Expires(nowMs)) + prims.stringify(body)
    ensures Authentic(r, baseUrl, apiSecret, prims.hmac)
  {
    var routePath := ApiPath + route;
    var bodyStr := prims.stringify(body);
    var expires := Expires(nowMs);
    var signature := prims.hmac(apiSecret, VerbName(verb) + routePath + Decimal.FromNat(expires) + bodyStr);
    var url := baseUrl + routePath;
    assert url[|baseUrl|..] == routePath;
    Request(verb, url, Headers(JsonContentType, apiKey, expires, signature), Some(bodyStr))
  }

  lemma PrefixCancels(p: string, a: string, b: string)
    requires p + a == p + b
    ensures a == b
  {
    assert a == (p + a)[|p|..];
    assert b == (p + b)[|p|..];
  }

  lemma SuffixCancels(a: string, b: string, s: string)
    requires a + s == b + s
    ensures a == b
  {
    assert a == (a + s)[..|a|];
    assert b == (b + s)[..|b|];
  }

  /** Two GET requests on the same route and query whose clocks round to
      different expiry seconds sign different messages. */
  lemma GetMessageCoversExpires(baseUrl: string, route: string, params: Params, apiSecret: string,
                                apiKey: string, nowMs1: nat, nowMs2: nat, prims: Primitives)
    requires Expires(nowMs1) != Expires(nowMs2)
    ensures ServerMessage(SignedGet(baseUrl, route, params, apiSecret, apiKey, nowMs1, prims), baseUrl)
         != ServerMessage(SignedGet(baseUrl, route, params, apiSecret, apiKey, nowMs2, prims), baseUrl)
  {
    var p := "GET" + ApiPath + route + "?" + prims.encodeQuery(params);
    if p + Decimal.FromNat(Expires(nowMs1)) == p + Decimal.FromNat(Expires(nowMs2)) {
      PrefixCancels(p, Decimal.FromNat(Expires(nowMs1)), Decimal.FromNat(Expires(nowMs2)));
      Decimal.FromNatInjective(Expires(nowMs1), Expires(nowMs2));
    }
  }

  /** Two GET requests on the same route signed in the same second whose
      encoded queries differ sign different messages. */
  lemma GetMessageCoversQuery(baseUrl: string, route: string, params1: Params, params2: Params,
                              apiSecret: string, apiKey: string, nowMs: nat, prims: Primitives)
    requires prims.encodeQuery(params1) != prims.encodeQuery(params2)
    ensures ServerMessage(SignedGet(baseUrl, route, params1, apiSecret, apiKey, nowMs, prims), baseUrl)
         != ServerMessage(SignedGet(baseUrl, route, params2, apiSecret, apiKey, nowMs, prims), baseUrl)
  {
    var p := "GET" + ApiPath + route + "?";
    var d := Decimal.FromNat(Expires(nowMs));
    var q1, q2 := prims.encodeQuery(params1), prims.encodeQuery(params2);
    assert p + q1 + d == (p + q1) + d && p + q2 + d == (p + q2) + d;
    if (p + q1) + d == (p + q2) + d {
      SuffixCancels(p + q1, p + q2, d);
      PrefixCancels(p, q1, q2);
    }
  }

  /** For POST/PUT/DELETE on one route in one second, a different serialised
      body gives a different signed message. */
  lemma BodyMessageCoversBody(verb: Verb, baseUrl: string, route: string, body1: Json, body2: Json,
                              apiSecret: string, apiKey: string, nowMs: nat, prims: Primitives)
    requires verb != GET
    requires prims.stringify(body1) != prims.stringify(body2)
    ensures ServerMessage(SignedWithBody(verb, baseUrl, route, body1, apiSecret, apiKey, nowMs, prims), baseUrl)
         != ServerMessage(SignedWithBody(verb, baseUrl, route, body2, apiSecret, apiKey, nowMs, prims), baseUrl)
  {
    var p := VerbName(verb) + ApiPath + route + Decimal.FromNat(Expires(nowMs));
    if p + prims.stringify(body1) == p + prims.stringify(body2) {
      PrefixCancels(p, prims.stringify(body1), prims.stringify(body2));
    }
  }

  /** For POST/PUT/DELETE with one body, different expiry seconds give
      different signed messages. */
  lemma BodyMessageCoversExpires(verb: Verb, baseUrl: string, route: string, body: Json, apiSecret: string,
                                 apiKey: string, nowMs1: nat, nowMs2: nat, prims: Primitives)
    requires verb != GET
    requires Expires(nowMs1) != Expires(nowMs2)
    ensures ServerMessage(SignedWithBody(verb, baseUrl, route, body, apiSecret, apiKey, nowMs1, prims), baseUrl)
         != ServerMessage(SignedWithBody(verb, baseUrl, route, body, apiSecret, apiKey, nowMs2, prims), baseUrl)
  {
    var p := VerbName(verb) + ApiPath + route;
    var d1, d2 := Decimal.FromNat(Expires(nowMs1)), Decimal.FromNat(Expires(nowMs2));
    var s := prims.stringify(body);
    assert p + d1 + s == (p + d1) + s && p + d2 + s == (p + d2) + s;
    if (p + d1) + s == (p + d2) + s {
      SuffixCancels(p + d1, p + d2, s);
      PrefixCancels(p, d1, d2);
      Decimal.FromNatInjective(Expires(nowMs1), Expires(nowMs2));
    }
  }

  /** Two GET requests with one query in one second on different routes
      sign different messages. */
  lemma GetMessageCoversRoute(baseUrl: string, route1: string, route2: string, params: Params,
                              apiSecret: string, apiKey: string, nowMs: nat, prims: Primitives)
    requires route1 != route2
    ensures ServerMessage(SignedGet(baseUrl, route1, params, apiSecret, apiKey, nowMs, prims), baseUrl)
         != ServerMessage(SignedGet(baseUrl, route2, params, apiSecret, apiKey, nowMs, prims), baseUrl)
  {
    var p := "GET" + ApiPath;
    var t := "?" + prims.encodeQuery(params) + Decimal.FromNat(Expires(nowMs));
    assert p + route1 + "?" + prims.encodeQuery(params) + Decimal.FromNat(Expires(nowMs)) == (p + route1) + t;
    assert p + route2 + "?" + prims.encodeQuery(params) + Decimal.FromNat(Expires(nowMs)) == (p + route2) + t;
    if (p + route1) + t == (p + route2) + t {
      SuffixCancels(p + route1, p + route2, t);
      PrefixCancels(p, route1, route2);
    }
  }

  /** For POST/PUT/DELETE with one body in one second, different routes
      give different signed messages. */
  lemma BodyMessageCoversRoute(verb: Verb, baseUrl: string, route1: string, route2: string, body: Json,
                               apiSecret: string, apiKey: string, nowMs: nat, prims: Primitives)
    requires verb != GET
    requires route1 != route2
    ensures ServerMessage(SignedWithBody(verb, baseUrl, route1, body, apiSecret, apiKey, nowMs, prims), baseUrl)
         != ServerMessage(SignedWithBody(verb, baseUrl, route2, body, apiSecret, apiKey, nowMs, prims), baseUrl)
  {
    var p := VerbName(verb) + ApiPath;
    var t := Decimal.FromNat(Expires(nowMs)) + prims.stringify(body);
    assert p + route1 + Decimal.FromNat(Expires(nowMs)) + prims.stringify(body) == (p + route1) + t;
    assert p + route2 + Decimal.FromNat(Expires(nowMs)) + prims.stringify(body) == (p + route2) + t;
    if (p + route1) + t == (p + route2) + t {
      SuffixCancels(p + route1, p + route2, t);
      PrefixCancels(p, route1, route2);
    }
  }
}
