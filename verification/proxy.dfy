/**
 The worker's `fetch` handler (src/index.ts lines 8-72) as one decision: CORS
 headers, then the quota, then preflight, then upgrade passthrough, then the
 rewritten HTTP request. Network and store I/O are left to the caller: the
 stored counter comes in, the store write and the upstream target go out.
 */
module Proxy {
  import opened Wrappers
  import opened Http
  import Cors
  import RateLimit
  import Router

  const ContentType: string := "Content-Type"
  const JsonType: string := "application/json"
  const ProxyMarker: string := "X-Helius-Cloudflare-Proxy"
  const MarkerValue: string := "true"

  const TooManyRequests: nat := 429
  const DenyBody: string := "Rate limit exceeded"
  const Ok: nat := 200
  const Preflight: string := "OPTIONS"

  /** What the handler reads from the inbound request. */
  datatype Request = Request(
    httpMethod: string,
    pathname: string,          // `new URL(request.url).pathname`
    search: string,            // `new URL(request.url).search`: empty or starting with `?`
    origin: Option<string>,    // the `Origin` header
    clientIp: Option<string>,  // the `cf-connecting-ip` header
    upgrade: Option<string>,   // the `Upgrade` header
    payload: string            // `request.text()`
  )

  /** The worker's environment: the allow-list setting and the upstream API key. */
  datatype Config = Config(allowOrigin: Option<string>, apiKey: string)

  datatype Action =
      /** A response the worker makes itself. */
    | Reply(status: nat, body: Option<string>, headers: Headers)
      /** `fetch(url, request)`: the inbound request re-targeted, otherwise unchanged. */
    | UpgradePassthrough(url: string)
      /** `fetch(new Request(url, { method, body, headers }))`. */
    | Forward(url: string, httpMethod: string, headers: Headers, body: Option<string>)
      /** `new Request(...)` throws a `TypeError`: a `GET` or `HEAD` request may not carry a body. */
    | BodyRejected

  /** The response or upstream call, and the store write scheduled with `waitUntil`. */
  datatype Outcome = Outcome(action: Action, write: Option<RateLimit.Write>)

  /** The quota refuses this request. */
  predicate Denied(req: Request, stored: Option<nat>) {
    Truthy(req.clientIp) && stored.Some? && stored.value > RateLimit.Threshold
  }

  /** The headers of the rewritten request: the fixed pair, then the CORS map spread over them. */
  function ForwardHeaders(cors: Headers): (h: Headers)
    ensures h.Keys == {ContentType, ProxyMarker} + cors.Keys
    ensures forall k :: k in cors ==> h[k] == cors[k]
    ensures ContentType !in cors ==> h[ContentType] == JsonType
    ensures ProxyMarker !in cors ==> h[ProxyMarker] == MarkerValue
  {
    map[ContentType := JsonType, ProxyMarker := MarkerValue] + cors
  }

  /** Methods the Fetch `Request` constructor refuses to give a body. */
  predicate Bodiless(httpMethod: string) {
    httpMethod == "GET" || httpMethod == "HEAD"
  }

  /** `payload || null`: an empty payload is sent as no body at all. */
  function Body(payload: string): (b: Option<string>)
    ensures b.None? <==> payload == ""
    ensures b.Some? ==> b.value == payload
  {
    if payload == "" then None else Some(payload)
  }

  /** The handler's decision for `req` when the store returned `stored` for its client address. */
  function Dispatch(config: Config, req: Request, stored: Option<nat>): (o: Outcome)
    ensures Denied(req, stored) <==> o.action == Reply(TooManyRequests, Some(DenyBody), map[])
    ensures Denied(req, stored) ==> o.write.None?
    ensures !Denied(req, stored) ==> o.write == RateLimit.Decide(req.clientIp, stored).write
    ensures !Denied(req, stored) && req.httpMethod == Preflight ==>
      o.action == Reply(Ok, None, Cors.CorsHeaders(config.allowOrigin, req.origin))
    ensures !Denied(req, stored) && req.httpMethod != Preflight && req.upgrade.Some? && req.upgrade.value != "" ==>
      o.action == UpgradePassthrough(Router.WebSocketUrl(config.apiKey))
    ensures !Denied(req, stored) && req.httpMethod != Preflight && !(req.upgrade.Some? && req.upgrade.value != "") ==>
      (o.action == BodyRejected <==> Bodiless(req.httpMethod) && req.payload != "")
    ensures !Denied(req, stored) && req.httpMethod != Preflight && !(req.upgrade.Some? && req.upgrade.value != "")
            && !(Bodiless(req.httpMethod) && req.payload != "") ==>
      && o.action.Forward?
      && o.action.url == Router.UpstreamUrl(req.pathname, req.search, config.apiKey)
      && o.action.httpMethod == req.httpMethod
      && o.action.body == Body(req.payload)
      && o.action.headers == ForwardHeaders(Cors.CorsHeaders(config.allowOrigin, req.origin))
  {
    var cors := Cors.CorsHeaders(config.allowOrigin, req.origin);
    match RateLimit.Decide(req.clientIp, stored)
    case Deny => Outcome(Reply(TooManyRequests, Some(DenyBody), map[]), None)
    case Admit(write) =>
      var action :=
        if req.httpMethod == Preflight then Reply(Ok, None, cors)
        else if Router.IsUpgrade(req.upgrade) then UpgradePassthrough(Router.WebSocketUrl(config.apiKey))
        else if Bodiless(req.httpMethod) && Body(req.payload).Some? then BodyRejected
        else Forward(Router.UpstreamUrl(req.pathname, req.search, config.apiKey), req.httpMethod, ForwardHeaders(cors), Body(req.payload));
      Outcome(action, write)
  }

  /** The quota's own refusal, as opposed to any response the upstream sends. */
  predicate IsRefusal(a: Action) {
    a.Reply? && a.status == TooManyRequests
  }

  /**
   An over-quota client is refused before anything else is looked at: a
   preflight or upgrade request gets the same bare 429 as any other, with no
   CORS headers and no upstream call.
   */
  lemma RefusalComesFirst(config: Config, req: Request, stored: Option<nat>)
    requires Denied(req, stored)
    ensures IsRefusal(Dispatch(config, req, stored).action)
    ensures Dispatch(config, req, stored).action.body == Some(DenyBody)
    ensures Dispatch(config, req, stored).action.headers == map[]
    ensures Dispatch(config, req, stored).write.None?
  {
  }

  /** An admitted preflight gets 200, no body, and the CORS headers with both fixed entries. */
  lemma AdmittedPreflight(config: Config, req: Request, stored: Option<nat>)
    requires !Denied(req, stored) && req.httpMethod == Preflight
    ensures Dispatch(config, req, stored).action.Reply?
    ensures Dispatch(config, req, stored).action.status == Ok
    ensures Dispatch(config, req, stored).action.body.None?
    ensures Cors.AllowMethods in Dispatch(config, req, stored).action.headers
    ensures Cors.AllowHeaders in Dispatch(config, req, stored).action.headers
  {
  }

  /** Only the quota and preflight paths produce a response of the worker's own. */
  lemma OwnRepliesAreRefusalOrPreflight(config: Config, req: Request, stored: Option<nat>)
    ensures Dispatch(config, req, stored).action.Reply? ==>
      (IsRefusal(Dispatch(config, req, stored).action) <==> Denied(req, stored))
    ensures Dispatch(config, req, stored).action.Reply? ==>
      Denied(req, stored) || req.httpMethod == Preflight
  {
  }

  /** An upgrade request's target ignores the inbound path, query and body. */
  lemma UpgradeIgnoresPathQueryAndBody(config: Config, req: Request, stored: Option<nat>,
                                       pathname: string, search: string, payload: string)
    requires req.upgrade.Some? && req.upgrade.value != "" && req.httpMethod != Preflight
    ensures Dispatch(config, req, stored)
         == Dispatch(config, req.(pathname := pathname, search := search, payload := payload), stored)
  {
  }

  /** The forwarded request carries the fixed pair and the CORS map; the CORS names never collide with the pair. */
  lemma ForwardedHeaders(config: Config, req: Request, stored: Option<nat>)
    requires !Denied(req, stored) && req.httpMethod != Preflight
    requires req.upgrade.None? || req.upgrade.value == ""
    ensures Dispatch(config, req, stored).action.Forward? || Dispatch(config, req, stored).action == BodyRejected
    ensures Dispatch(config, req, stored).action.Forward? ==>
      && ContentType in Dispatch(config, req, stored).action.headers
      && Dispatch(config, req, stored).action.headers[ContentType] == JsonType
      && Dispatch(config, req, stored).action.headers[ProxyMarker] == MarkerValue
      && Dispatch(config, req, stored).action.headers[Cors.AllowMethods] == Cors.PermittedMethods
  {
    var cors := Cors.CorsHeaders(config.allowOrigin, req.origin);
    assert ContentType !in cors && ProxyMarker !in cors;
  }

  // ---------------------------------------------------------------------------
  // The handler against a sequential store.

  /** One request end to end: read the counter (only for a known client), decide, complete the write. */
  function Handle(config: Config, req: Request, store: RateLimit.Store): (res: (Outcome, RateLimit.Store))
    ensures Truthy(req.clientIp) ==> res.1 == RateLimit.Step(store, req.clientIp).1
    ensures Truthy(req.clientIp) ==>
      (IsRefusal(res.0.action) <==> RateLimit.Step(store, req.clientIp).0.Deny?)
    ensures !Truthy(req.clientIp) ==> res.1 == store && !IsRefusal(res.0.action)
  {
    var stored := if Truthy(req.clientIp) then RateLimit.Read(store, req.clientIp.value) else None;
    var o := Dispatch(config, req, stored);
    (o, RateLimit.Persist(store, o.write))
  }

  /** The actions for consecutive requests, each seeing the store the previous one left. */
  function Serve(config: Config, reqs: seq<Request>, store: RateLimit.Store): (actions: seq<Action>)
    ensures |actions| == |reqs|
    decreases |reqs|
  {
    if |reqs| == 0 then []
    else
      var (o, next) := Handle(config, reqs[0], store);
      [o.action] + Serve(config, reqs[1..], next)
  }

  /** One request from a known client: the worker and the quota replay take the same first step. */
  lemma ServeFirstStep(config: Config, reqs: seq<Request>, store: RateLimit.Store, ip: string)
    requires ip != "" && |reqs| > 0 && reqs[0].clientIp == Some(ip)
    ensures IsRefusal(Serve(config, reqs, store)[0]) <==> RateLimit.Replay(store, Some(ip), |reqs|)[0].Deny?
    ensures Serve(config, reqs, store)[1..] == Serve(config, reqs[1..], RateLimit.Step(store, Some(ip)).1)
    ensures RateLimit.Replay(store, Some(ip), |reqs|)[1..]
         == RateLimit.Replay(RateLimit.Step(store, Some(ip)).1, Some(ip), |reqs| - 1)
  {
  }

  /** Requests from one client are refused exactly where the quota's own replay refuses. */
  lemma {:induction false} ServeFollowsReplay(config: Config, reqs: seq<Request>, store: RateLimit.Store,
                                               ip: string, k: nat)
    requires ip != ""
    requires forall r :: r in reqs ==> r.clientIp == Some(ip)
    requires k < |reqs|
    ensures IsRefusal(Serve(config, reqs, store)[k]) <==> RateLimit.Replay(store, Some(ip), |reqs|)[k].Deny?
    decreases |reqs|
  {
    ServeFirstStep(config, reqs, store, ip);
    if k > 0 {
      var next := RateLimit.Step(store, Some(ip)).1;
      var rest := reqs[1..];
      assert Serve(config, reqs, store)[k] == Serve(config, rest, next)[k - 1];
      assert RateLimit.Replay(store, Some(ip), |reqs|)[k] == RateLimit.Replay(next, Some(ip), |reqs| - 1)[k - 1];
      ServeFollowsReplay(config, rest, next, ip, k - 1);
    }
  }

  /**
   A client with no counter gets 1001 requests through (the stored count is
   compared before it is incremented, with a strict `>`); request 1002 and
   every later one is refused with 429.
   */
  lemma ThousandAndOneAdmitted(config: Config, reqs: seq<Request>, store: RateLimit.Store, ip: string)
    requires ip != "" && ip !in store
    requires forall r :: r in reqs ==> r.clientIp == Some(ip)
    ensures forall k :: 0 <= k < |reqs| ==> (IsRefusal(Serve(config, reqs, store)[k]) <==> k > RateLimit.Threshold)
  {
    forall k | 0 <= k < |reqs|
      ensures IsRefusal(Serve(config, reqs, store)[k]) <==> k > RateLimit.Threshold
    {
      ServeFollowsReplay(config, reqs, store, ip, k);
      RateLimit.ReplayAdmitsWhileUnderThreshold(store, ip, |reqs|, k);
    }
  }
}
