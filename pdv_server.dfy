/** The read-only catalog server: a GET-only handler for /health,
    /handshake and the PIN-protected /snapshot, and the singleton that
    starts and stops it. */
module PdvServer {
  import opened Text
  import opened JsValue
  import Connectivity

  datatype Body =
    | Plain(text: string)
    | Failure(error: string)
    | Health
    | Handshake(app: string, version: string, deviceRole: string)
    | Snapshot(caixaId: Value, pinMasked: string, produtos: seq<Value>)

  datatype Response = Response(status: int, headers: seq<(string, string)>, body: Body)

  const CORS_HEADERS: seq<(string, string)> := [
    ("Access-Control-Allow-Origin", "*"),
    ("Access-Control-Allow-Methods", "GET, OPTIONS"),
    ("Access-Control-Allow-Headers", "Content-Type, x-pdv-pin")
  ]

  function JsonHeaders(): seq<(string, string)> {
    CORS_HEADERS + [("Content-Type", "application/json")]
  }

  /** The key and value of one element of an array of header pairs: the
      first and second element of a pair; an element that is not an array
      has neither. */
  function PairKey(p: Value): Value {
    if p.Arr? && |p.elems| >= 1 then p.elems[0] else Undefined
  }

  function PairValue(p: Value): Value {
    if p.Arr? && |p.elems| >= 2 then p.elems[1] else Undefined
  }

  /** The index of the first pair whose key, lower-cased, is target. */
  function FindPair(pairs: seq<Value>, target: string): (r: int)
    ensures -1 <= r < |pairs|
    ensures r >= 0 ==> ToLower(TextOr(PairKey(pairs[r]))) == target
    ensures forall i :: 0 <= i < |pairs| && (r == -1 || i < r) ==> ToLower(TextOr(PairKey(pairs[i]))) != target
  {
    if pairs == [] then -1
    else if ToLower(TextOr(PairKey(pairs[0]))) == target then 0
    else var t := FindPair(pairs[1..], target); if t == -1 then -1 else t + 1
  }

  /** The index of the first key that, lower-cased, is target. */
  function FindKey(keys: seq<string>, target: string): (r: int)
    ensures -1 <= r < |keys|
    ensures r >= 0 ==> ToLower(keys[r]) == target
    ensures forall i :: 0 <= i < |keys| && (r == -1 || i < r) ==> ToLower(keys[i]) != target
  {
    if keys == [] then -1
    else if ToLower(keys[0]) == target then 0
    else var t := FindKey(keys[1..], target); if t == -1 then -1 else t + 1
  }

  /** A request header, looked up without regard to case in an array of
      [name, value] pairs or in an object; "" when absent or when the
      headers have another shape. */
  function ReadHeader(headers: Value, key: string): (r: string)
    ensures !Truthy(headers) || !(headers.Arr? || headers.Obj?) ==> r == ""
  {
    var target := ToLower(key);
    if !Truthy(headers) then ""
    else if headers.Arr? then
      var i := FindPair(headers.elems, target);
      if i == -1 then "" else TextOr(PairValue(headers.elems[i]))
    else if headers.Obj? then
      var i := FindKey(headers.keys, target);
      if i == -1 then "" else TextOr(Get(headers, headers.keys[i]))
    else ""
  }

  /** The lookup ignores the case of the name asked for. */
  lemma ReadHeaderIgnoresKeyCase(headers: Value, key: string)
    ensures ReadHeader(headers, key) == ReadHeader(headers, ToLower(key))
  {
    ToLowerIdempotent(key);
  }

  /** An object header is found whatever the case of its name, and the
      first matching name in key order wins. */
  lemma ReadHeaderFindsObjectEntry(headers: Value, key: string, i: nat)
    requires headers.Obj? && i < |headers.keys| && ToLower(headers.keys[i]) == ToLower(key)
    requires forall j :: 0 <= j < i ==> ToLower(headers.keys[j]) != ToLower(key)
    ensures ReadHeader(headers, key) == TextOr(Get(headers, headers.keys[i]))
  {
    FindKeyIs(headers.keys, ToLower(key), i);
  }

  lemma FindKeyIs(keys: seq<string>, target: string, i: nat)
    requires i < |keys| && ToLower(keys[i]) == target
    requires forall j :: 0 <= j < i ==> ToLower(keys[j]) != target
    ensures FindKey(keys, target) == i
  {
  }

  /** A header that no name matches reads as "". */
  lemma ReadHeaderMissing(headers: Value, key: string)
    requires headers.Obj?
    requires forall j :: 0 <= j < |headers.keys| ==> ToLower(headers.keys[j]) != ToLower(key)
    ensures ReadHeader(headers, key) == ""
  {
  }

  /** In an array of pairs, the first pair whose name matches up to case
      gives the value. */
  lemma ReadHeaderFindsPair(pairs: seq<Value>, key: string, i: nat)
    requires i < |pairs| && ToLower(TextOr(PairKey(pairs[i]))) == ToLower(key)
    requires forall j :: 0 <= j < i ==> ToLower(TextOr(PairKey(pairs[j]))) != ToLower(key)
    ensures ReadHeader(Arr(pairs), key) == TextOr(PairValue(pairs[i]))
  {
    FindPairIs(pairs, ToLower(key), i);
  }

  lemma FindPairIs(pairs: seq<Value>, target: string, i: nat)
    requires i < |pairs| && ToLower(TextOr(PairKey(pairs[i]))) == target
    requires forall j :: 0 <= j < i ==> ToLower(TextOr(PairKey(pairs[j]))) != target
    ensures FindPair(pairs, target) == i
  {
  }

  /** String(method || "GET").toUpperCase() */
  function RequestMethod(request: Value): string {
    ToUpper(ToStr(Or(Get(request, "method"), Str("GET"))))
  }

  lemma MissingMethodIsGet(request: Value)
    requires !Truthy(Get(request, "method"))
    ensures RequestMethod(request) == "GET"
  {
  }

  /** Whether a snapshot request is authorised: the state has a truthy PIN
      and the x-pdv-pin header is exactly that string. */
  predicate SnapshotAuthorized(state: Value, headers: Value) {
    Truthy(Get(state, "pin")) && Str(ReadHeader(headers, "x-pdv-pin")) == Get(state, "pin")
  }

  /** The handler, for a request and the state that getState yields (Null
      when there is no getState function). */
  function Handle(request: Value, state: Value, rt: Connectivity.Runtime): (resp: Response)
    ensures RequestMethod(request) == "OPTIONS" ==> resp == Response(200, CORS_HEADERS, Plain(""))
    ensures RequestMethod(request) != "OPTIONS" && RequestMethod(request) != "GET" ==> resp.status == 405
  {
    var verb := RequestMethod(request);
    var path := Connectivity.NormalizePath(ToStr(Or(Get(request, "path"), Str("/"))), rt);
    if verb == "OPTIONS" then Response(200, CORS_HEADERS, Plain(""))
    else if verb != "GET" then Response(405, JsonHeaders(), Failure("Método não permitido."))
    else if path == "/health" then Response(200, JsonHeaders(), Health)
    else if path == "/handshake" then
      Response(200, JsonHeaders(), Handshake("PDV Comunidade", "0.1", "master"))
    else if path == "/snapshot" then
      if !SnapshotAuthorized(state, Get(request, "headers")) then
        Response(401, JsonHeaders(), Failure("PIN inválido."))
      else
        Response(200, JsonHeaders(), Snapshot(Get(state, "caixaId"), "***", ArrayOrEmpty(Get(state, "produtos"))))
    else Response(404, JsonHeaders(), Failure("Rota não encontrada."))
  }

  function HandlePath(request: Value, rt: Connectivity.Runtime): string {
    Connectivity.NormalizePath(ToStr(Or(Get(request, "path"), Str("/"))), rt)
  }

  /** GET on each route: /health and /handshake always answer; /snapshot
      answers 200 exactly when authorised, with the PIN masked and the
      products defaulting to []; other paths are 404. */
  lemma GetRoutes(request: Value, state: Value, rt: Connectivity.Runtime)
    requires RequestMethod(request) == "GET"
    ensures var resp := Handle(request, state, rt);
            var path := HandlePath(request, rt);
            (path == "/health" ==> resp == Response(200, JsonHeaders(), Health))
            && (path == "/handshake" ==> resp.status == 200 && resp.body.Handshake? && resp.body.deviceRole == "master")
            && (path == "/snapshot" ==> (resp.status == 200 <==> SnapshotAuthorized(state, Get(request, "headers"))))
            && (path == "/snapshot" && resp.status == 200 ==>
                  resp.body == Snapshot(Get(state, "caixaId"), "***", ArrayOrEmpty(Get(state, "produtos"))))
            && (path == "/snapshot" && resp.status != 200 ==> resp.status == 401)
            && (path !in {"/health", "/handshake", "/snapshot"} ==> resp.status == 404)
  {
  }

  /** A state without a PIN (or no state at all) never serves the snapshot. */
  lemma NoPinNoSnapshot(request: Value, state: Value, rt: Connectivity.Runtime)
    requires !Truthy(Get(state, "pin"))
    ensures Handle(request, state, rt).status != 200 || !Handle(request, state, rt).body.Snapshot?
  {
  }

  /** The running server's handle. */
  class PdvHandle {
    constructor () {}
  }

  datatype StartResult = Started(server: PdvHandle) | Unavailable(message: string) | StartFailed

  class PdvHost {
    var active: PdvHandle?
    var stopped: seq<PdvHandle>

    constructor ()
      ensures active == null && stopped == []
    {
      active := null;
      stopped := [];
    }

    /** Returns the running server when there is one, fails without an
        adapter, and otherwise starts one and records it. adapterStarts is
        whether the adapter's own start succeeds; when it throws, the error
        propagates and no server is recorded. */
    method StartPdvServer(adapterAvailable: bool, adapterStarts: bool) returns (r: StartResult)
      modifies this
      ensures old(active) != null ==> r == Started(old(active)) && active == old(active)
      ensures old(active) == null && !adapterAvailable ==> r.Unavailable? && active == null
      ensures old(active) == null && adapterAvailable && !adapterStarts ==> r.StartFailed? && active == null
      ensures old(active) == null && adapterAvailable && adapterStarts ==>
                r.Started? && fresh(r.server) && active == r.server
      ensures stopped == old(stopped)
    {
      if active != null {
        return Started(active);
      }
      if !adapterAvailable {
        return Unavailable("Servidor HTTP local indisponível. Registre window.PDV_HTTP_SERVER ou instale um plugin compatível.");
      }
      if !adapterStarts {
        return StartFailed;
      }
      var h := new PdvHandle();
      active := h;
      r := Started(h);
    }

    /** Clears the handle and then stops that server; a no-op when none runs,
        so a second stop changes nothing. */
    method StopPdvServer()
      modifies this
      ensures active == null
      ensures old(active) == null ==> stopped == old(stopped)
      ensures old(active) != null ==> stopped == old(stopped) + [old(active)]
    {
      if active == null {
        return;
      }
      var h := active;
      active := null;
      stopped := stopped + [h];
    }
  }
}
