/** The `WebSocket` class of `websocket.js`: a session whose `isOpen` flag is
    written only by the transport's open and close callbacks, and whose
    `subscribe`, `unsubscribe` and `auth` send one `{op, args}` frame when
    the session is open and nothing otherwise. The socket itself is a log of
    the commands handed to it; the callbacks it fires are methods the
    transport calls. */
module Realtime {
  import opened Wrappers
  import opened Json
  import Decimal
  import Signing

  const ProductionUri: string := "wss://ws.bitmex.com/realtime"
  const TestnetUri: string := "wss://ws.testnet.bitmex.com/realtime"
  const AuthVerb: string := "GET"
  const AuthPath: string := "/realtime"

  /** The endpoint `init` connects to. */
  function ConnectionUri(testnet: bool): (uri: string)
    ensures uri == TestnetUri <==> testnet
    ensures uri in {TestnetUri, ProductionUri}
  {
    if testnet then TestnetUri else ProductionUri
  }

  /** The control frames the session sends. */
  datatype Frame =
    | Subscribe(topics: seq<string>)
    | Unsubscribe(topics: seq<string>)
    | AuthKeyExpires(apiKey: string, expires: nat, signature: string)

  function OpName(f: Frame): string {
    match f
    case Subscribe(_) => "subscribe"
    case Unsubscribe(_) => "unsubscribe"
    case AuthKeyExpires(_, _, _) => "authKeyExpires"
  }

  function StringsJson(ss: seq<string>): (r: seq<Json>)
    ensures |r| == |ss| && forall i :: 0 <= i < |ss| ==> r[i] == JStr(ss[i])
  {
    seq(|ss|, i requires 0 <= i < |ss| => JStr(ss[i]))
  }

  function Args(f: Frame): seq<Json> {
    match f
    case Subscribe(topics) => StringsJson(topics)
    case Unsubscribe(topics) => StringsJson(topics)
    case AuthKeyExpires(key, expires, sig) => [JStr(key), JNum(expires), JStr(sig)]
  }

  /** The object passed to `JSON.stringify` before `send`: `{op, args}`. */
  function ToJson(f: Frame): (j: Json)
    ensures j.JObj? && j.fields.Keys == {"op", "args"}
    ensures j.fields["op"] == JStr(OpName(f)) && j.fields["args"] == JArr(Args(f))
  {
    JObj(map["op" := JStr(OpName(f)), "args" := JArr(Args(f))])
  }

  predicate AllStrings(items: seq<Json>) {
    forall i :: 0 <= i < |items| ==> items[i].JStr?
  }

  function Strings(items: seq<Json>): (r: seq<string>)
    requires AllStrings(items)
    ensures |r| == |items| && forall i :: 0 <= i < |items| ==> items[i] == JStr(r[i])
  {
    seq(|items|, i requires 0 <= i < |items| => items[i].s)
  }

  /** How the receiving end reads a control frame. */
  function FromJson(j: Json): Option<Frame> {
    if !j.JObj? || "op" !in j.fields || "args" !in j.fields || !j.fields["args"].JArr? then None
    else
      var op, args := j.fields["op"], j.fields["args"].items;
      if op == JStr("subscribe") && AllStrings(args) then Some(Subscribe(Strings(args)))
      else if op == JStr("unsubscribe") && AllStrings(args) then Some(Unsubscribe(Strings(args)))
      else if op == JStr("authKeyExpires") && |args| == 3 && args[0].JStr? && args[1].JNum? && args[1].n >= 0
              && args[2].JStr? then Some(AuthKeyExpires(args[0].s, args[1].n, args[2].s))
      else None
  }

  /** Every frame the session sends reads back as the frame it was built from. */
  lemma FrameRoundTrip(f: Frame)
    ensures FromJson(ToJson(f)) == Some(f)
  {
    match f
    case Subscribe(topics) =>
      assert Strings(StringsJson(topics)) == topics;
    case Unsubscribe(topics) =>
      assert Strings(StringsJson(topics)) == topics;
    case AuthKeyExpires(_, _, _) =>
  }

  /** A session callback: one of the source's logging defaults, or a
      handler the caller supplied (identified by `id`). */
  datatype Callback = LogConnected | LogDisconnected | LogError | Supplied(id: nat)

  datatype Handlers = Handlers(onMessage: Callback, onOpen: Callback, onClose: Callback, onError: Callback)

  /** The constructor's checks: the message handler is mandatory, each other
      missing handler falls back to its logging default. */
  function ConfigureHandlers(onMessage: Option<nat>, onOpen: Option<nat>, onClose: Option<nat>, onError: Option<nat>)
    : (r: Result<Handlers, string>)
    ensures r.Err? <==> onMessage.None?
    ensures r.Err? ==> r.error == "onMessage argument is required"
    ensures r.Ok? ==> r.value.onMessage == Supplied(onMessage.value)
    ensures r.Ok? ==> (onOpen.Some? ==> r.value.onOpen == Supplied(onOpen.value))
                      && (onOpen.None? ==> r.value.onOpen == LogConnected)
    ensures r.Ok? ==> (onClose.Some? ==> r.value.onClose == Supplied(onClose.value))
                      && (onClose.None? ==> r.value.onClose == LogDisconnected)
    ensures r.Ok? ==> (onError.Some? ==> r.value.onError == Supplied(onError.value))
                      && (onError.None? ==> r.value.onError == LogError)
  {
    if onMessage.None? then Err("onMessage argument is required")
    else Ok(Handlers(
      Supplied(onMessage.value),
      if onOpen.Some? then Supplied(onOpen.value) else LogConnected,
      if onClose.Some? then Supplied(onClose.value) else LogDisconnected,
      if onError.Some? then Supplied(onError.value) else LogError))
  }

  /** The authentication signature: HMAC of `"GET" + "/realtime" + expires`. */
  function AuthSignature(apiSecret: string, expires: nat, hmac: (string, string) -> string): string {
    hmac(apiSecret, AuthVerb + AuthPath + Decimal.FromNat(expires))
  }

  /** The `authKeyExpires` frame for a key, secret and clock reading. */
  function AuthFrame(apiKey: string, apiSecret: string, nowMs: nat, hmac: (string, string) -> string): (f: Frame)
    ensures f.AuthKeyExpires? && f.apiKey == apiKey && f.expires == Signing.Expires(nowMs)
    ensures f.signature == hmac(apiSecret, "GET/realtime" + Decimal.FromNat(f.expires))
  {
    var expires := Signing.Expires(nowMs);
    assert AuthVerb + AuthPath == "GET/realtime";
    AuthKeyExpires(apiKey, expires, AuthSignature(apiSecret, expires, hmac))
  }

  /** What `auth` does with its credential arguments before it looks at the
      session: the key is checked first, then the secret. */
  function CheckCredentials(apiKey: Option<string>, apiSecret: Option<string>): (r: Option<string>)
    ensures r.None? <==> Present(apiKey) && Present(apiSecret)
    ensures !Present(apiKey) ==> r == Some("apiKey argument is required")
    ensures Present(apiKey) && !Present(apiSecret) ==> r == Some("apiSecret argument is required")
  {
    if !Present(apiKey) then Some("apiKey argument is required")
    else if !Present(apiSecret) then Some("apiSecret argument is required")
    else None
  }

  /** A command handed to the underlying socket. */
  datatype Command = Connect(uri: string) | Send(frame: Frame) | Disconnect

  /** One call of a session callback with the event it received. */
  datatype Invocation = Invocation(handler: Callback, event: string)

  /** How `auth` ends: it throws, resolves to `false`, or sends and resolves
      to `undefined` (the source has no `return` after the send). */
  datatype AuthResult = AuthThrew(message: string) | AuthNotOpen | AuthSent

  class WebSocket {
    const handlers: Handlers
    /** `_connectionURI`, unset until `init`. */
    var connectionUri: Option<string>
    /** `_isOpen`: `undefined`, which is falsy, until the first open event. */
    var isOpen: bool
    /** Everything handed to the socket, in order. */
    var wire: seq<Command>
    /** Every callback invocation, in order. */
    var invoked: seq<Invocation>

    /** Before `init` nothing reaches a socket and the session is not open;
        after it, the log starts with the connection. */
    ghost predicate Valid()
      reads this
    {
      (connectionUri.None? ==> wire == [] && !isOpen)
      && (connectionUri.Some? ==> |wire| > 0 && wire[0].Connect?)
    }

    constructor (handlers: Handlers)
      ensures Valid()
      ensures this.handlers == handlers
      ensures connectionUri == None && !isOpen && wire == [] && invoked == []
    {
      this.handlers := handlers;
      connectionUri := None;
      isOpen := false;
      wire := [];
      invoked := [];
    }

    /** `new WebSocket(onMessage, onOpen, onClose, onError)`. */
    static method Create(onMessage: Option<nat>, onOpen: Option<nat>, onClose: Option<nat>, onError: Option<nat>)
      returns (r: Result<WebSocket, string>)
      ensures r.Err? <==> onMessage.None?
      ensures r.Err? ==> r.error == "onMessage argument is required"
      ensures r.Ok? ==> fresh(r.value) && r.value.Valid()
                        && r.value.handlers == ConfigureHandlers(onMessage, onOpen, onClose, onError).value
                        && r.value.connectionUri == None && !r.value.isOpen
                        && r.value.wire == [] && r.value.invoked == []
    {
      var h := ConfigureHandlers(onMessage, onOpen, onClose, onError);
      if h.Err? {
        return Err(h.error);
      }
      var ws := new WebSocket(h.value);
      return Ok(ws);
    }

    /** `init(testnet)`: picks the endpoint and opens a socket to it. The
        open state is left to the open callback. */
    method Init(testnet: bool)
      requires Valid()
      modifies this
      ensures Valid()
      ensures connectionUri == Some(ConnectionUri(testnet))
      ensures wire == old(wire) + [Connect(ConnectionUri(testnet))]
      ensures isOpen == old(isOpen) && invoked == old(invoked)
    {
      connectionUri := Some(ConnectionUri(testnet));
      wire := wire + [Connect(ConnectionUri(testnet))];
    }

    /** The socket's `onopen` callback. */
    method HandleOpen(event: string)
      requires Valid() && connectionUri.Some?
      modifies this
      ensures Valid()
      ensures isOpen
      ensures invoked == old(invoked) + [Invocation(handlers.onOpen, event)]
      ensures wire == old(wire) && connectionUri == old(connectionUri)
    {
      isOpen := true;
      invoked := invoked + [Invocation(handlers.onOpen, event)];
    }

    /** The socket's `onclose` callback. */
    method HandleClose(event: string)
      requires Valid() && connectionUri.Some?
      modifies this
      ensures Valid()
      ensures !isOpen
      ensures invoked == old(invoked) + [Invocation(handlers.onClose, event)]
      ensures wire == old(wire) && connectionUri == old(connectionUri)
    {
      isOpen := false;
      invoked := invoked + [Invocation(handlers.onClose, event)];
    }

    /** The socket's `onmessage` callback: the event goes to the caller's
        handler unchanged. */
    method HandleMessage(event: string)
      requires Valid() && connectionUri.Some?
      modifies this
      ensures Valid()
      ensures invoked == old(invoked) + [Invocation(handlers.onMessage, event)]
      ensures isOpen == old(isOpen) && wire == old(wire) && connectionUri == old(connectionUri)
    {
      invoked := invoked + [Invocation(handlers.onMessage, event)];
    }

    /** The socket's `onerror` callback. */
    method HandleError(event: string)
      requires Valid() && connectionUri.Some?
      modifies this
      ensures Valid()
      ensures invoked == old(invoked) + [Invocation(handlers.onError, event)]
      ensures isOpen == old(isOpen) && wire == old(wire) && connectionUri == old(connectionUri)
    {
      invoked := invoked + [Invocation(handlers.onError, event)];
    }

    /** `auth(apiKey, apiSecret)`. */
    method Auth(apiKey: Option<string>, apiSecret: Option<string>, nowMs: nat, hmac: (string, string) -> string)
      returns (r: AuthResult)
      requires Valid()
      modifies this
      ensures Valid()
      ensures CheckCredentials(apiKey, apiSecret).Some? ==> r == AuthThrew(CheckCredentials(apiKey, apiSecret).value)
      ensures CheckCredentials(apiKey, apiSecret).None? ==> r == (if old(isOpen) then AuthSent else AuthNotOpen)
      ensures wire == if r.AuthSent? then old(wire) + [Send(AuthFrame(apiKey.value, apiSecret.value, nowMs, hmac))]
                      else old(wire)
      ensures isOpen == old(isOpen) && connectionUri == old(connectionUri) && invoked == old(invoked)
    {
      var bad := CheckCredentials(apiKey, apiSecret);
      if bad.Some? {
        return AuthThrew(bad.value);
      }
      if !isOpen {
        return AuthNotOpen;
      }
      wire := wire + [Send(AuthFrame(apiKey.value, apiSecret.value, nowMs, hmac))];
      return AuthSent;
    }

    /** `subscribe(args)`. */
    method Subscribe(topics: seq<string>) returns (sent: bool)
      requires Valid()
      modifies this
      ensures Valid()
      ensures sent == old(isOpen)
      ensures wire == if sent then old(wire) + [Send(Frame.Subscribe(topics))] else old(wire)
      ensures isOpen == old(isOpen) && connectionUri == old(connectionUri) && invoked == old(invoked)
    {
      if !isOpen {
        return false;
      }
      wire := wire + [Send(Frame.Subscribe(topics))];
      return true;
    }

    /** `unsubscribe(args)`. */
    method Unsubscribe(topics: seq<string>) returns (sent: bool)
      requires Valid()
      modifies this
      ensures Valid()
      ensures sent == old(isOpen)
      ensures wire == if sent then old(wire) + [Send(Frame.Unsubscribe(topics))] else old(wire)
      ensures isOpen == old(isOpen) && connectionUri == old(connectionUri) && invoked == old(invoked)
    {
      if !isOpen {
        return false;
      }
      wire := wire + [Send(Frame.Unsubscribe(topics))];
      return true;
    }

    /** `close()`: asks the socket to close; the open state changes only when
        the close callback fires. Before `init` there is no socket and the
        call throws a TypeError, reported here as `false`. */
    method Close() returns (ok: bool)
      requires Valid()
      modifies this
      ensures Valid()
      ensures ok == old(connectionUri).Some?
      ensures wire == if ok then old(wire) + [Disconnect] else old(wire)
      ensures isOpen == old(isOpen) && connectionUri == old(connectionUri) && invoked == old(invoked)
    {
      if connectionUri.None? {
        return false;
      }
      wire := wire + [Disconnect];
      return true;
    }
  }

  /** A session as a caller drives it: subscribing before `init` or before
      the open event sends nothing, subscribing after it sends exactly one
      frame, `auth` without a secret throws, and after the close event
      nothing more is sent. */
  method SubscribeAroundOpen()
    returns (early: bool, beforeOpen: bool, afterOpen: bool, auth: AuthResult, afterClose: bool, wire: seq<Command>)
    ensures !early && !beforeOpen && afterOpen && !afterClose
    ensures auth == AuthThrew("apiSecret argument is required")
    ensures wire == [Connect(ProductionUri), Send(Frame.Subscribe(["trade:XBTUSD"]))]
  {
    var r := WebSocket.Create(Some(7), None, None, None);
    assert r.Ok?;
    var ws := r.value;
    assert ws.handlers.onOpen == LogConnected && ws.handlers.onMessage == Supplied(7);
    early := ws.Subscribe(["trade:XBTUSD"]);
    ws.Init(false);
    beforeOpen := ws.Subscribe(["trade:XBTUSD"]);
    ws.HandleOpen("open");
    afterOpen := ws.Subscribe(["trade:XBTUSD"]);
    auth := ws.Auth(Some("key"), None, 0, (s, m) => s + m);
    ws.HandleClose("close");
    afterClose := ws.Unsubscribe(["trade:XBTUSD"]);
    wire := ws.wire;
  }
}
