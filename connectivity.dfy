/** The master device's LAN endpoint: a POST-only request handler guarded,
    in this order, by the CORS preflight answer, the method check, a
    fixed-window rate limit per client address, the event PIN and the event
    id, and then routing to /join, /sale and /sync; plus the singleton that
    starts and stops it. */
module Connectivity {
  import opened Text
  import opened JsValue

  // ---------------------------------------------------------------------
  // Requests and responses

  /** Reply bodies. Every JSON body carries ok: false for Failure and true
      for the rest; JSON.stringify itself is not modelled. */
  datatype Body =
    | Plain(text: string)
    | Failure(error: string)
    | Joined(snapshot: Value, ticketModel: Value, clientId: string, clientsConnected: nat)
    | SaleAck(applied: bool, totals: Value, serverSaleId: Value)
    | SyncAck(snapshotDelta: Value, ticketModel: Value)

  predicate BodyOk(b: Body) { !b.Failure? }

  datatype Response = Response(status: int, headers: seq<(string, string)>, body: Body)

  /** The built-ins the handler calls: JSON.parse (None when it throws) and
      the pathname of new URL(s) (None when it throws). */
  datatype Runtime = Runtime(parseJson: string -> Option<Value>, urlPathname: string -> Option<string>)

  const CORS_HEADERS: seq<(string, string)> := [
    ("Access-Control-Allow-Origin", "*"),
    ("Access-Control-Allow-Methods", "POST, OPTIONS"),
    ("Access-Control-Allow-Headers", "Content-Type")
  ]

  function JsonHeaders(cors: seq<(string, string)>): seq<(string, string)> {
    cors + [("Content-Type", "application/json")]
  }

  function ErrorBody(message: string): Body {
    Failure(message)
  }

  /** A path as the handler routes it: empty is "/", an absolute URL is
      reduced to its pathname ("/" when that is empty or the URL does not
      parse), anything else is kept. */
  function NormalizePath(path: string, rt: Runtime): (r: string)
    ensures path == "" ==> r == "/"
    ensures path != "" && !StartsWith(path, "http") ==> r == path
    ensures StartsWith(path, "http") ==> (rt.urlPathname(path).None? ==> r == "/")
    ensures StartsWith(path, "http") && rt.urlPathname(path).Some? ==>
              r == (if rt.urlPathname(path).value == "" then "/" else rt.urlPathname(path).value)
    ensures r != ""
  {
    if path == "" then "/"
    else if StartsWith(path, "http") then
      match rt.urlPathname(path)
      case None => "/"
      case Some(p) => if p == "" then "/" else p
    else path
  }

  /** The request payload: a falsy body is {}, a string body is its JSON
      parse ({} when that throws) and an object or array is itself; any
      other value is {}. */
  function ReadBodyPayload(body: Value, rt: Runtime): (r: Value)
    ensures !Truthy(body) ==> r == EmptyObj
    ensures body.Str? && body.s != "" ==> r == (match rt.parseJson(body.s) case None => EmptyObj case Some(v) => v)
    ensures (body.Obj? || body.Arr?) ==> r == body
    ensures body.Bool? || body.Num? ==> r == EmptyObj
  {
    if !Truthy(body) then EmptyObj
    else if body.Str? then
      match rt.parseJson(body.s)
      case None => EmptyObj
      case Some(v) => v
    else if body.Obj? || body.Arr? then body
    else EmptyObj
  }

  /** The client address: the first truthy of ip, remoteAddress, remoteAddr
      and clientIp, or "unknown". */
  function GetRequestIp(request: Value): (r: Value)
    ensures Truthy(r)
    ensures Truthy(Get(request, "ip")) ==> r == Get(request, "ip")
    ensures r == Str("unknown") || r in [Get(request, "ip"), Get(request, "remoteAddress"), Get(request, "remoteAddr"), Get(request, "clientIp")]
    ensures !Truthy(Get(request, "ip")) && Truthy(Get(request, "remoteAddress")) ==> r == Get(request, "remoteAddress")
    ensures !Truthy(Get(request, "ip")) && !Truthy(Get(request, "remoteAddress")) && Truthy(Get(request, "remoteAddr"))
            ==> r == Get(request, "remoteAddr")
    ensures !Truthy(Get(request, "ip")) && !Truthy(Get(request, "remoteAddress")) && !Truthy(Get(request, "remoteAddr"))
            ==> (Truthy(Get(request, "clientIp")) ==> r == Get(request, "clientIp"))
                && (!Truthy(Get(request, "clientIp")) ==> r == Str("unknown"))
  {
    Or(Get(request, "ip"), Or(Get(request, "remoteAddress"), Or(Get(request, "remoteAddr"),
       Or(Get(request, "clientIp"), Str("unknown")))))
  }

  /** String(request?.method || "POST").toUpperCase() */
  function RequestMethod(request: Value): string {
    ToUpper(ToStr(Or(Get(request, "method"), Str("POST"))))
  }

  /** A request without a method is a POST. */
  lemma MissingMethodIsPost(request: Value)
    requires !Truthy(Get(request, "method"))
    ensures RequestMethod(request) == "POST"
  {
  }

  function RequestPath(request: Value, rt: Runtime): string {
    NormalizePath(ToStr(Or(Get(request, "path"), Str("/"))), rt)
  }

  // ---------------------------------------------------------------------
  // Fixed-window rate limiter

  const DEFAULT_WINDOW_MS: int := 10000
  const DEFAULT_MAX: int := 30

  datatype Bucket = Bucket(count: nat, start: int)

  datatype Limit = Allowed | Limited(retryAfter: int)

  /** The bucket of key after one more call at time now: a missing bucket
      starts at now; a bucket older than the window (strictly) restarts at
      now; the count then goes up by one. */
  function NextBucket(hits: map<Value, Bucket>, key: Value, now: int, windowMs: int): (b: Bucket)
    ensures b.count >= 1
    ensures key !in hits ==> b == Bucket(1, now)
    ensures key in hits && now - hits[key].start > windowMs ==> b == Bucket(1, now)
    ensures key in hits && now - hits[key].start <= windowMs ==> b == Bucket(hits[key].count + 1, hits[key].start)
  {
    var entry := if key in hits then hits[key] else Bucket(0, now);
    var cur := if now - entry.start > windowMs then Bucket(0, now) else entry;
    Bucket(cur.count + 1, cur.start)
  }

  /** A call is refused exactly when its bucket has passed max, and then the
      client is told to retry after the window, in whole seconds. */
  function Verdict(count: nat, windowMs: int, max: int): (l: Limit)
    ensures l.Allowed? <==> count <= max
    ensures l.Limited? ==> l.retryAfter == Ceil(windowMs as real / 1000.0)
  {
    if count > max then Limited(Ceil(windowMs as real / 1000.0)) else Allowed
  }

  class RateLimiter {
    const windowMs: int
    const max: int
    var hits: map<Value, Bucket>

    constructor (windowMs: int, max: int)
      ensures this.windowMs == windowMs && this.max == max
      ensures hits == map[]
    {
      this.windowMs := windowMs;
      this.max := max;
      hits := map[];
    }

    /** One call for key at time now: the bucket is advanced (even when the
        call is refused) and the verdict read from its new count. */
    method RateLimit(key: Value, now: int) returns (l: Limit)
      modifies this
      ensures hits == old(hits)[key := NextBucket(old(hits), key, now, windowMs)]
      ensures l == Verdict(hits[key].count, windowMs, max)
    {
      var entry: Bucket;
      if key in hits {
        entry := hits[key];
      } else {
        entry := Bucket(0, now);
      }
      if now - entry.start > windowMs {
        entry := entry.(count := 0, start := now);
      }
      entry := entry.(count := entry.count + 1);
      hits := hits[key := entry];
      if entry.count > max {
        l := Limited(Ceil(windowMs as real / 1000.0));
      } else {
        l := Allowed;
      }
    }
  }

  /** The buckets after a run of calls for one key at the given times. */
  function Feed(hits: map<Value, Bucket>, key: Value, times: seq<int>, windowMs: int): map<Value, Bucket>
    decreases |times|
  {
    if times == [] then hits
    else Feed(hits[key := NextBucket(hits, key, times[0], windowMs)], key, times[1..], windowMs)
  }

  /** Calls for a key with no bucket, all within windowMs of the first one,
      leave a bucket that started with the first call and counts them all. */
  lemma {:induction false} FeedWithinWindow(hits: map<Value, Bucket>, key: Value, times: seq<int>, windowMs: int, k: nat)
    requires |times| >= 1 && k < |times|
    requires k == 0 ==> key !in hits
    requires k > 0 ==> key in hits && hits[key] == Bucket(k, times[0])
    requires forall i :: 0 <= i < |times| ==> times[0] <= times[i] <= times[0] + windowMs
    ensures key in Feed(hits, key, times[k..], windowMs)
    ensures Feed(hits, key, times[k..], windowMs)[key] == Bucket(|times|, times[0])
    decreases |times| - k
  {
    var h' := hits[key := NextBucket(hits, key, times[k], windowMs)];
    assert h'[key] == Bucket(k + 1, times[0]);
    assert times[k..][1..] == times[k + 1..];
    if k + 1 < |times| {
      FeedWithinWindow(h', key, times, windowMs, k + 1);
    } else {
      assert times[k + 1..] == [];
    }
  }

  /** With the default window and limit, a client's first 30 calls inside
      one window pass and the 31st and later ones are refused with a
      10-second retry. */
  lemma DefaultLimitWithinWindow(hits: map<Value, Bucket>, key: Value, times: seq<int>)
    requires |times| >= 1 && key !in hits
    requires forall i :: 0 <= i < |times| ==> times[0] <= times[i] <= times[0] + DEFAULT_WINDOW_MS
    ensures key in Feed(hits, key, times, DEFAULT_WINDOW_MS)
    ensures Verdict(Feed(hits, key, times, DEFAULT_WINDOW_MS)[key].count, DEFAULT_WINDOW_MS, DEFAULT_MAX)
            == if |times| <= 30 then Allowed else Limited(10)
  {
    FeedWithinWindow(hits, key, times, DEFAULT_WINDOW_MS, 0);
    assert times[0..] == times;
  }

  /** A bucket keeps its start until a call arrives strictly more than
      windowMs after it, and only then restarts. */
  lemma BucketResetsOnlyAfterWindow(hits: map<Value, Bucket>, key: Value, now: int, windowMs: int)
    requires key in hits && hits[key].count >= 1
    ensures NextBucket(hits, key, now, windowMs).start != hits[key].start || NextBucket(hits, key, now, windowMs).count == 1
            ==> now - hits[key].start > windowMs
  {
  }

  // ---------------------------------------------------------------------
  // The master handler

  /** What the master keeps about a joined client. */
  datatype ClientInfo = ClientInfo(deviceId: string, deviceName: string, ip: Value, lastSeen: string)

  /** The server's settings at start: the PIN, the event id and the three
      optional callbacks (a callback is given the argument object the
      handler builds and yields the value it resolves to). */
  datatype MasterConfig = MasterConfig(
    pin: Value,
    eventId: Value,
    onClientJoin: Option<Value -> Value>,
    onSale: Option<Value -> Value>,
    onSyncRequest: Option<Value -> Value>)

  /** The clock of one request: Date.now() and new Date().toISOString(). */
  datatype Clock = Clock(now: int, nowIso: string)

  function Call(cb: Option<Value -> Value>, args: Value): (r: Value)
    ensures cb.None? ==> r == Null
  {
    match cb case None => Null case Some(f) => f(args)
  }

  /** The PIN and event-id gate: 401 unless the payload's PIN is non-empty
      and equals the server's; then 403 when the server has an event id and
      the payload's differs. None lets the request through. */
  function Authorize(payload: Value, pin: Value, eventId: Value): (r: Option<Response>)
    ensures r.None? <==> (TextOr(Get(payload, "pin")) != "" && TextOr(Get(payload, "pin")) == TextOr(pin)
                         && (TextOr(eventId) == "" || TextOr(Get(payload, "eventId")) == TextOr(eventId)))
    ensures r.Some? && (TextOr(Get(payload, "pin")) == "" || TextOr(Get(payload, "pin")) != TextOr(pin)) ==> r.value.status == 401
    ensures r.Some? && r.value.status != 401 ==> r.value.status == 403
  {
    var reqPin := TextOr(Get(payload, "pin"));
    var reqEventId := TextOr(Get(payload, "eventId"));
    if reqPin == "" || reqPin != TextOr(pin) then
      Some(Response(401, JsonHeaders(CORS_HEADERS), ErrorBody("PIN inválido.")))
    else if TextOr(eventId) != "" && reqEventId != TextOr(eventId) then
      Some(Response(403, JsonHeaders(CORS_HEADERS), ErrorBody("Evento inválido.")))
    else None
  }

  /** The id a joining client is filed under. */
  function ClientId(payload: Value, now: int): (id: string)
    ensures TextOr(Get(payload, "deviceId")) != "" ==> id == TextOr(Get(payload, "deviceId"))
    ensures TextOr(Get(payload, "deviceId")) == "" ==> id == "client-" + IntToString(now)
  {
    var deviceId := TextOr(Get(payload, "deviceId"));
    if deviceId != "" then deviceId else "client-" + IntToString(now)
  }

  function JoinArgs(payload: Value, ip: Value, now: int): Value {
    Obj(map["deviceId" := Str(TextOr(Get(payload, "deviceId"))),
             "deviceName" := Str(ToStr(Or(Get(payload, "deviceName"), Str("Cliente")))),
             "clientId" := Str(ClientId(payload, now)),
             "ip" := ip],
        ["deviceId", "deviceName", "clientId", "ip"])
  }

  function JoinReply(result: Value, clientId: string, clientsConnected: nat): (body: Body)
    ensures body.Joined? && body.clientId == clientId && body.clientsConnected == clientsConnected
    ensures Truthy(Get(result, "snapshot")) ==> body.snapshot == Get(result, "snapshot")
    ensures !Truthy(result) ==> body.snapshot == Null && body.ticketModel == Null
  {
    Joined(Or(Get(result, "snapshot"), Or(result, Null)), Or(Get(result, "ticketModel"), Null),
           clientId, clientsConnected)
  }

  function SaleArgs(payload: Value, ip: Value): Value {
    Obj(map["sale" := Or(Get(payload, "sale"), Null),
             "summary" := Or(Get(payload, "saleSummary"), Or(Get(payload, "summary"), Null)),
             "deviceId" := Get(payload, "deviceId"),
             "deviceName" := Or(Get(payload, "deviceName"), Str("Cliente")),
             "type" := Get(payload, "type"),
             "ip" := ip],
        ["sale", "summary", "deviceId", "deviceName", "type", "ip"])
  }

  /** The /sale reply: applied is false only when the callback says
      applied === false; the server's sale id falls back to the sale's id. */
  function SaleReply(payload: Value, result: Value): (body: Body)
    ensures body.SaleAck?
    ensures body.applied <==> Get(result, "applied") != Bool(false)
    ensures Truthy(Get(result, "serverSaleId")) ==> body.serverSaleId == Get(result, "serverSaleId")
    ensures !Truthy(Get(result, "serverSaleId")) && Truthy(Get(payload, "sale")) && Truthy(Get(Get(payload, "sale"), "id"))
            ==> body.serverSaleId == Get(Get(payload, "sale"), "id")
  {
    var sale := Or(Get(payload, "sale"), Null);
    SaleAck(!StrictEq(Get(result, "applied"), Bool(false)), Or(Get(result, "totals"), Null),
            Or(Get(result, "serverSaleId"), Or(Get(sale, "id"), Null)))
  }

  function SyncArgs(payload: Value, ip: Value): Value {
    Obj(map["deviceId" := Get(payload, "deviceId"),
             "since" := Get(payload, "since"),
             "type" := Get(payload, "type"),
             "ip" := ip],
        ["deviceId", "since", "type", "ip"])
  }

  /** The delta /sync answers when the callback yields nothing. */
  function EmptyDelta(nowIso: string): Value {
    Obj(map["products" := Null, "updatedAt" := Str(nowIso)], ["products", "updatedAt"])
  }

  /** The /sync reply: the callback's delta, or its whole result, or an
      empty delta stamped now. */
  function SyncReply(result: Value, nowIso: string): (body: Body)
    ensures body.SyncAck?
    ensures !Truthy(result) ==> body.snapshotDelta == EmptyDelta(nowIso) && Get(body.snapshotDelta, "products") == Null
    ensures Truthy(Get(result, "snapshotDelta")) ==> body.snapshotDelta == Get(result, "snapshotDelta")
  {
    SyncAck(Or(Get(result, "snapshotDelta"), Or(result, EmptyDelta(nowIso))),
            Or(Get(result, "ticketModel"), Null))
  }

  /** The handler's reply and the new limiter buckets and client table. */
  datatype Outcome = Outcome(resp: Response, hits: map<Value, Bucket>, clients: map<string, ClientInfo>)

  /** The handler, as a function of the state before the request. */
  function Handle(cfg: MasterConfig, windowMs: int, max: int, hits: map<Value, Bucket>,
                  clients: map<string, ClientInfo>, request: Value, clock: Clock, rt: Runtime): Outcome
  {
    var verb := RequestMethod(request);
    var path := RequestPath(request, rt);
    if verb == "OPTIONS" then Outcome(Response(200, CORS_HEADERS, Plain("")), hits, clients)
    else if verb != "POST" then
      Outcome(Response(405, JsonHeaders(CORS_HEADERS), ErrorBody("Método não permitido.")), hits, clients)
    else
      var ip := GetRequestIp(request);
      var hits' := hits[ip := NextBucket(hits, ip, clock.now, windowMs)];
      var limit := Verdict(hits'[ip].count, windowMs, max);
      if limit.Limited? then
        var retry := if limit.retryAfter != 0 then limit.retryAfter else 10;
        Outcome(Response(429, JsonHeaders(CORS_HEADERS) + [("Retry-After", IntToString(retry))],
                         ErrorBody("Muitas requisições.")), hits', clients)
      else
        var payload := ReadBodyPayload(Get(request, "body"), rt);
        match Authorize(payload, cfg.pin, cfg.eventId)
        case Some(denied) => Outcome(denied, hits', clients)
        case None =>
          var routed := Route(cfg, clients, payload, ip, path, clock);
          Outcome(routed.0, hits', routed.1)
  }

  /** Routing of a request that passed every gate: the reply and the new
      client table. */
  function Route(cfg: MasterConfig, clients: map<string, ClientInfo>, payload: Value, ip: Value,
                 path: string, clock: Clock): (r: (Response, map<string, ClientInfo>))
    ensures r.0.status == if path == "/join" || path == "/sale" || path == "/sync" then 200 else 404
    ensures path != "/join" ==> r.1 == clients
    ensures path == "/join" ==> r.1.Keys == clients.Keys + {ClientId(payload, clock.now)}
    ensures path == "/join" ==> forall id :: id in clients && id != ClientId(payload, clock.now) ==> r.1[id] == clients[id]
    ensures path == "/join" ==> r.1[ClientId(payload, clock.now)].deviceId == TextOr(Get(payload, "deviceId"))
                                && r.1[ClientId(payload, clock.now)].ip == ip
  {
    if path == "/join" then
      var clientId := ClientId(payload, clock.now);
      var info := ClientInfo(TextOr(Get(payload, "deviceId")), ToStr(Or(Get(payload, "deviceName"), Str("Cliente"))), ip, clock.nowIso);
      var clients' := clients[clientId := info];
      var result := Call(cfg.onClientJoin, JoinArgs(payload, ip, clock.now));
      (Response(200, JsonHeaders(CORS_HEADERS), JoinReply(result, clientId, |clients'|)), clients')
    else if path == "/sale" then
      var result := Call(cfg.onSale, SaleArgs(payload, ip));
      (Response(200, JsonHeaders(CORS_HEADERS), SaleReply(payload, result)), clients)
    else if path == "/sync" then
      var result := Call(cfg.onSyncRequest, SyncArgs(payload, ip));
      (Response(200, JsonHeaders(CORS_HEADERS), SyncReply(result, clock.nowIso)), clients)
    else
      (Response(404, JsonHeaders(CORS_HEADERS), ErrorBody("Rota não encontrada.")), clients)
  }

  /** A running master: its settings, its rate limiter and the clients
      that joined. */
  class MasterServer {
    const cfg: MasterConfig
    const limiter: RateLimiter
    var clients: map<string, ClientInfo>

    constructor (cfg: MasterConfig)
      ensures this.cfg == cfg && fresh(limiter)
      ensures limiter.windowMs == DEFAULT_WINDOW_MS && limiter.max == DEFAULT_MAX && limiter.hits == map[]
      ensures clients == map[]
    {
      this.cfg := cfg;
      limiter := new RateLimiter(DEFAULT_WINDOW_MS, DEFAULT_MAX);
      clients := map[];
    }

    /** Serves one request, updating the limiter and the client table as
        the handler function describes. */
    method Serve(request: Value, clock: Clock, rt: Runtime) returns (resp: Response)
      modifies this, limiter
      ensures var o := Handle(cfg, limiter.windowMs, limiter.max, old(limiter.hits), old(clients), request, clock, rt);
              resp == o.resp && limiter.hits == o.hits && clients == o.clients
    {
      var verb := RequestMethod(request);
      var path := RequestPath(request, rt);
      if verb == "OPTIONS" {
        return Response(200, CORS_HEADERS, Plain(""));
      }
      if verb != "POST" {
        return Response(405, JsonHeaders(CORS_HEADERS), ErrorBody("Método não permitido."));
      }
      var ip := GetRequestIp(request);
      var limit := limiter.RateLimit(ip, clock.now);
      if limit.Limited? {
        var retry := if limit.retryAfter != 0 then limit.retryAfter else 10;
        return Response(429, JsonHeaders(CORS_HEADERS) + [("Retry-After", IntToString(retry))], ErrorBody("Muitas requisições."));
      }
      var payload := ReadBodyPayload(Get(request, "body"), rt);
      var denied := Authorize(payload, cfg.pin, cfg.eventId);
      if denied.Some? {
        return denied.value;
      }
      if path == "/join" {
        var clientId := ClientId(payload, clock.now);
        clients := clients[clientId := ClientInfo(TextOr(Get(payload, "deviceId")), ToStr(Or(Get(payload, "deviceName"), Str("Cliente"))), ip, clock.nowIso)];
        var result := Call(cfg.onClientJoin, JoinArgs(payload, ip, clock.now));
        resp := Response(200, JsonHeaders(CORS_HEADERS), (JoinReply(result, clientId, |clients|)));
      } else if path == "/sale" {
        var result := Call(cfg.onSale, SaleArgs(payload, ip));
        resp := Response(200, JsonHeaders(CORS_HEADERS), (SaleReply(payload, result)));
      } else if path == "/sync" {
        var result := Call(cfg.onSyncRequest, SyncArgs(payload, ip));
        resp := Response(200, JsonHeaders(CORS_HEADERS), (SyncReply(result, clock.nowIso)));
      } else {
        resp := Response(404, JsonHeaders(CORS_HEADERS), ErrorBody("Rota não encontrada."));
      }
    }
  }

  // ---------------------------------------------------------------------
  // Properties of the handler

  /** A preflight is answered 200 with the CORS headers and an empty body,
      before the limiter or any authentication sees it. */
  lemma OptionsAnsweredFirst(cfg: MasterConfig, windowMs: int, max: int, hits: map<Value, Bucket>,
                             clients: map<string, ClientInfo>, request: Value, clock: Clock, rt: Runtime)
    requires RequestMethod(request) == "OPTIONS"
    ensures Handle(cfg, windowMs, max, hits, clients, request, clock, rt)
            == Outcome(Response(200, CORS_HEADERS, Plain("")), hits, clients)
  {
  }

  /** Any method other than OPTIONS and POST gets 405 and touches nothing. */
  lemma OtherMethodsRefused(cfg: MasterConfig, windowMs: int, max: int, hits: map<Value, Bucket>,
                            clients: map<string, ClientInfo>, request: Value, clock: Clock, rt: Runtime)
    requires RequestMethod(request) != "OPTIONS" && RequestMethod(request) != "POST"
    ensures var o := Handle(cfg, windowMs, max, hits, clients, request, clock, rt);
            o.resp.status == 405 && o.hits == hits && o.clients == clients
  {
  }

  /** A POST whose call the limiter refuses gets 429 with a Retry-After
      header, and the client table is untouched: the PIN is never looked at. */
  lemma RateLimitedBeforePin(cfg: MasterConfig, windowMs: int, max: int, hits: map<Value, Bucket>,
                             clients: map<string, ClientInfo>, request: Value, clock: Clock, rt: Runtime)
    requires RequestMethod(request) == "POST"
    requires NextBucket(hits, GetRequestIp(request), clock.now, windowMs).count > max
    ensures var o := Handle(cfg, windowMs, max, hits, clients, request, clock, rt);
            o.resp.status == 429 && o.clients == clients
            && o.resp.headers[|o.resp.headers| - 1].0 == "Retry-After"
  {
  }

  /** The status of a POST the limiter lets through, when the PIN check fails. */
  predicate PassesLimiter(windowMs: int, max: int, hits: map<Value, Bucket>, request: Value, clock: Clock) {
    NextBucket(hits, GetRequestIp(request), clock.now, windowMs).count <= max
  }

  /** A body that is not valid JSON reads as {} and so is always refused
      with 401. */
  lemma MalformedBodyUnauthorized(cfg: MasterConfig, windowMs: int, max: int, hits: map<Value, Bucket>,
                                  clients: map<string, ClientInfo>, request: Value, clock: Clock, rt: Runtime)
    requires RequestMethod(request) == "POST" && PassesLimiter(windowMs, max, hits, request, clock)
    requires Get(request, "body").Str? && rt.parseJson(Get(request, "body").s).None?
    ensures Handle(cfg, windowMs, max, hits, clients, request, clock, rt).resp.status == 401
  {
  }

  /** A master with an empty PIN refuses every authenticated request. */
  lemma EmptyServerPinRefusesAll(cfg: MasterConfig, windowMs: int, max: int, hits: map<Value, Bucket>,
                                 clients: map<string, ClientInfo>, request: Value, clock: Clock, rt: Runtime)
    requires TextOr(cfg.pin) == ""
    requires RequestMethod(request) == "POST" && PassesLimiter(windowMs, max, hits, request, clock)
    ensures Handle(cfg, windowMs, max, hits, clients, request, clock, rt).resp.status == 401
  {
  }

  /** The status of a POST that passes the limiter, as decided by the PIN,
      the event id and the path. */
  lemma PostStatus(cfg: MasterConfig, windowMs: int, max: int, hits: map<Value, Bucket>,
                   clients: map<string, ClientInfo>, request: Value, clock: Clock, rt: Runtime)
    requires RequestMethod(request) == "POST" && PassesLimiter(windowMs, max, hits, request, clock)
    ensures var payload := ReadBodyPayload(Get(request, "body"), rt);
            var reqPin := TextOr(Get(payload, "pin"));
            var status := Handle(cfg, windowMs, max, hits, clients, request, clock, rt).resp.status;
            var path := RequestPath(request, rt);
            status == (if reqPin == "" || reqPin != TextOr(cfg.pin) then 401
                       else if TextOr(cfg.eventId) != "" && TextOr(Get(payload, "eventId")) != TextOr(cfg.eventId) then 403
                       else if path in {"/join", "/sale", "/sync"} then 200
                       else 404)
  {
  }

  /** An authenticated /join files the client under its device id (or a
      time-stamped id), reports the table size, and a repeated join with the
      same device id does not grow the table. */
  lemma JoinUpsertsClient(cfg: MasterConfig, windowMs: int, max: int, hits: map<Value, Bucket>,
                          clients: map<string, ClientInfo>, request: Value, clock: Clock, rt: Runtime)
    requires RequestMethod(request) == "POST" && PassesLimiter(windowMs, max, hits, request, clock)
    requires Authorize(ReadBodyPayload(Get(request, "body"), rt), cfg.pin, cfg.eventId).None?
    requires RequestPath(request, rt) == "/join"
    ensures var payload := ReadBodyPayload(Get(request, "body"), rt);
            var id := ClientId(payload, clock.now);
            var o := Handle(cfg, windowMs, max, hits, clients, request, clock, rt);
            o.clients.Keys == clients.Keys + {id}
            && o.resp.status == 200
            && o.resp.body.Joined? && o.resp.body.clientId == id
            && o.resp.body.clientsConnected == |o.clients|
            && (id in clients ==> |o.clients| == |clients|)
  {
  }

  /** An authenticated /sale is always answered 200 with ok:true; applied is
      false only when the callback explicitly says so. */
  lemma SaleAlwaysOk(cfg: MasterConfig, windowMs: int, max: int, hits: map<Value, Bucket>,
                     clients: map<string, ClientInfo>, request: Value, clock: Clock, rt: Runtime)
    requires RequestMethod(request) == "POST" && PassesLimiter(windowMs, max, hits, request, clock)
    requires Authorize(ReadBodyPayload(Get(request, "body"), rt), cfg.pin, cfg.eventId).None?
    requires RequestPath(request, rt) == "/sale"
    ensures var payload := ReadBodyPayload(Get(request, "body"), rt);
            var result := Call(cfg.onSale, SaleArgs(payload, GetRequestIp(request)));
            var o := Handle(cfg, windowMs, max, hits, clients, request, clock, rt);
            o.resp.status == 200 && o.resp.body.SaleAck? && BodyOk(o.resp.body)
            && (!o.resp.body.applied <==> Get(result, "applied") == Bool(false))
            && o.clients == clients
  {
  }

  /** Without a sync callback, /sync answers a delta with no products. */
  lemma SyncWithoutCallback(cfg: MasterConfig, windowMs: int, max: int, hits: map<Value, Bucket>,
                            clients: map<string, ClientInfo>, request: Value, clock: Clock, rt: Runtime)
    requires cfg.onSyncRequest.None?
    requires RequestMethod(request) == "POST" && PassesLimiter(windowMs, max, hits, request, clock)
    requires Authorize(ReadBodyPayload(Get(request, "body"), rt), cfg.pin, cfg.eventId).None?
    requires RequestPath(request, rt) == "/sync"
    ensures var o := Handle(cfg, windowMs, max, hits, clients, request, clock, rt);
            o.resp.status == 200 && o.resp.body.SyncAck?
            && Get(o.resp.body.snapshotDelta, "products") == Null
  {
  }

  // ---------------------------------------------------------------------
  // Start and stop

  /** What starting the master gives: the running server, a refusal with
      its message, or the rejection of the adapter's start. */
  datatype StartResult = Started(server: MasterServer) | Unavailable(message: string) | StartFailed

  /** The module-level handle of the running master, if any, and the
      servers whose adapter stop function has been called. */
  class MasterHost {
    var active: MasterServer?
    var stopped: seq<MasterServer>

    constructor ()
      ensures active == null && stopped == []
    {
      active := null;
      stopped := [];
    }

    /** Returns the running server when there is one; otherwise fails when
        no adapter is available or the platform is not native, fails with
        nothing recorded when the adapter's start rejects (adapterStarts is
        its outcome), and else starts a new server and records it. */
    method StartMasterServer(cfg: MasterConfig, adapterAvailable: bool, nativePlatform: bool, adapterStarts: bool)
      returns (r: StartResult)
      modifies this
      ensures old(active) != null ==> r == Started(old(active)) && active == old(active)
      ensures old(active) == null && !(adapterAvailable && nativePlatform) ==>
                r == Unavailable("Servidor LAN indisponível.") && active == null
      ensures old(active) == null && adapterAvailable && nativePlatform && !adapterStarts ==>
                r.StartFailed? && active == null
      ensures old(active) == null && adapterAvailable && nativePlatform && adapterStarts ==>
                r.Started? && fresh(r.server) && active == r.server && r.server.cfg == cfg && r.server.clients == map[]
      ensures stopped == old(stopped)
    {
      if active != null {
        return Started(active);
      }
      if !adapterAvailable || !nativePlatform {
        return Unavailable("Servidor LAN indisponível.");
      }
      if !adapterStarts {
        return StartFailed;
      }
      var server := new MasterServer(cfg);
      active := server;
      r := Started(server);
    }

    /** Does nothing when no server runs; otherwise clears the handle and
        then stops that server. */
    method StopMasterServer()
      modifies this
      ensures active == null
      ensures old(active) == null ==> stopped == old(stopped)
      ensures old(active) != null ==> stopped == old(stopped) + [old(active)]
    {
      if active == null {
        return;
      }
      var server := active;
      active := null;
      stopped := stopped + [server];
    }
  }
}
