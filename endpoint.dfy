/** internal/handler/middleware/endpoint.go: how a handler's answer becomes the
    HTTP response: the status, the JSON envelope, the version stamped on it, the
    path parameters handed to the handler, and the recovery from a panic.
    Request ids, logging, timing and reading the body only feed the log and are
    left out. */
module Endpoint {
  import opened Wrappers
  import opened WebError
  import opened WebRequest

  const APIVersionV1: int := 1

  /** The JSON values the envelopes are made of. */
  datatype Json = Null | Bool(b: bool) | Int(i: int) | Str(s: string) | Object(fields: map<string, Json>)

  /** `web.JSONResponse`, a JSON object. */
  type JSONResponse = map<string, Json>

  /** A `*web.JSONResponse` as a JSON value: `null` for a nil pointer. */
  function DataJson(data: Option<JSONResponse>): Json {
    if data.Some? then Object(data.value) else Null
  }

  function SuccessResponse(version: int, data: Option<JSONResponse>): JSONResponse {
    map["success" := Bool(true), "data" := DataJson(data), "api_version" := Int(version)]
  }

  function ErrorEnvelope(version: int, err: CustomError): JSONResponse {
    map["success" := Bool(false),
        "error" := Object(map["code" := Str(err.Code()), "message" := Str(err.Description())]),
        "api_version" := Int(version)]
  }

  /** `buildResponseBuilder(version)` applied to a handler's answer: "success"
      is true exactly when there is no error; the data travels only with
      success, the error's code and description only with failure. */
  function BuildResponse(version: int, data: Option<JSONResponse>, err: Option<CustomError>): (r: JSONResponse)
    ensures r.Keys == {"success", "api_version", if err.None? then "data" else "error"}
    ensures r["success"] == Bool(err.None?) && r["api_version"] == Int(version)
    ensures err.None? ==> r["data"] == DataJson(data)
    ensures err.Some? ==> r["error"] == Object(map["code" := Str(err.value.code), "message" := Str(err.value.description)])
  {
    if err.None? then SuccessResponse(version, data) else ErrorEnvelope(version, err.value)
  }

  /** `responseCode`: 200 without an error, the error's own status with one. */
  function ResponseCode(err: Option<CustomError>): (code: int)
    ensures err.None? ==> code == StatusOK
    ensures err.Some? ==> code == err.value.HTTPStatusCode()
  {
    if err.Some? then err.value.HTTPStatusCode() else StatusOK
  }

  datatype Url = Url(path: string)

  /** The parts of `*http.Request` `getURL` looks at; a nil URL is `None`. */
  datatype HttpRequest = HttpRequest(url: Option<Url>)

  /** `getURL`: the path, or "undefined" for a nil request, a nil URL or an
      empty path. */
  function GetURL(r: Option<HttpRequest>): (u: string)
    ensures u == "undefined" <==> r.None? || r.value.url.None? || r.value.url.value.path in {"", "undefined"}
    ensures u != "undefined" ==> u == r.value.url.value.path
  {
    if r.Some? && r.value.url.Some? && r.value.url.value.path != "" then r.value.url.value.path else "undefined"
  }

  /** What the handler did: returned a response and an error (either possibly
      nil), or panicked with a value, given here as its `%v` text. */
  datatype HandlerOutcome = Returned(data: Option<JSONResponse>, err: Option<CustomError>) | Panicked(value: string)

  datatype Response = Response(status: int, body: JSONResponse)

  /** `serve`: the handler's answer with its status, or, after a panic, an
      internal error whose description is the panic value. */
  function Serve(version: int, outcome: HandlerOutcome): (resp: Response)
    ensures "success" in resp.body && "api_version" in resp.body
    ensures resp.body["api_version"] == Int(version)
    ensures resp.body["success"] == Bool(outcome.Returned? && outcome.err.None?)
    ensures outcome.Returned? ==> resp.status == ResponseCode(outcome.err)
    ensures outcome.Panicked? ==>
              resp.status == 500 && "error" in resp.body
              && resp.body["error"] == Object(map["code" := Str(InternalServerError), "message" := Str(outcome.value)])
  {
    match outcome
    case Returned(data, err) =>
      Response(ResponseCode(err), BuildResponse(version, data, err))
    case Panicked(value) =>
      var err := ErrInternalServerError(value);
      Response(err.HTTPStatusCode(), BuildResponse(version, None, Some(err)))
  }

  /** `ServeV1Endpoint`: every envelope carries API version 1. */
  function ServeV1Endpoint(outcome: HandlerOutcome): (resp: Response)
    ensures "api_version" in resp.body && resp.body["api_version"] == Int(1)
    ensures "success" in resp.body && resp.body["success"] == Bool(outcome.Returned? && outcome.err.None?)
    ensures outcome.Panicked? ==> resp.status == StatusInternalServerError
  {
    Serve(APIVersionV1, outcome)
  }

  /** The router's parameters set one after another on a path-parameter map. */
  function ApplyParams(m: map<string, string>, ps: seq<(string, string)>): map<string, string> {
    if ps == [] then m else ApplyParams(m, ps[..|ps| - 1])[ps[|ps| - 1].0 := ps[|ps| - 1].1]
  }

  /** The value of the last parameter named `key`, if any. */
  function LastValue(ps: seq<(string, string)>, key: string): Option<string> {
    if ps == [] then None
    else if ps[|ps| - 1].0 == key then Some(ps[|ps| - 1].1)
    else LastValue(ps[..|ps| - 1], key)
  }

  /** A parameter named more than once keeps its last value; a key the router
      does not name keeps what it had. */
  lemma {:induction false} ApplyParamsLookup(m: map<string, string>, ps: seq<(string, string)>, key: string)
    ensures LastValue(ps, key).Some? ==> key in ApplyParams(m, ps) && ApplyParams(m, ps)[key] == LastValue(ps, key).value
    ensures LastValue(ps, key).None? ==> (key in ApplyParams(m, ps) <==> key in m)
    ensures LastValue(ps, key).None? && key in m ==> ApplyParams(m, ps)[key] == m[key]
  {
    if ps != [] {
      ApplyParamsLookup(m, ps[..|ps| - 1], key);
    }
  }

  /** The loop of `serve` that hands the router's parameters to the request. */
  method BindPathParams(req: Request, ps: seq<(string, string)>)
    modifies req
    ensures ps == [] ==> req.pathParams == old(req.pathParams)
    ensures ps != [] ==> req.pathParams == Some(ApplyParams(if old(req.pathParams).Some? then old(req.pathParams).value else map[], ps))
    ensures req.params == old(req.params)
  {
    var start := if req.pathParams.Some? then req.pathParams.value else map[];
    var i := 0;
    while i < |ps|
      invariant 0 <= i <= |ps|
      invariant i == 0 ==> req.pathParams == old(req.pathParams)
      invariant i > 0 ==> req.pathParams == Some(ApplyParams(start, ps[..i]))
      invariant req.params == old(req.params)
    {
      req.SetPathParam(ps[i].0, ps[i].1);
      assert ps[..i + 1][..i] == ps[..i];
      i := i + 1;
    }
    assert ps[..|ps|] == ps;
  }
}
