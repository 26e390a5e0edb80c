/**
 The full-duplex stream between Envoy and the endpoint picker, as a function of one event at a
 time.  Everything outside the stream (datastore, scheduler, front end, random choices, whether a
 send succeeds) is an `Env`, which may differ from event to event.
 */
module Streaming {
  import opened Wrappers
  import opened Json

  datatype Stage =
    | RequestReceived
    | HeaderRequestResponseComplete
    | BodyRequestResponsesComplete
    | ResponseReceived
    | HeaderResponseResponseComplete
    | BodyResponseResponsesComplete

  datatype Msg =
    | RequestHeader(endpoint: string, contentLength: Option<nat>, worker: string)
    | RequestBody(body: Bytes, eos: bool)
    | ResponseHeader
    | ResponseBody(body: Bytes, eos: bool)
    | Immediate(status: int)

  datatype Event =
    | RequestHeaders(eos: bool)
    | RequestChunk(chunk: Bytes, eos: bool)
    | RequestTrailers
    | ResponseHeaders(headers: seq<(string, string)>)
    | ResponseChunk(chunk: Bytes, eos: bool)
    | ResponseTrailers

  datatype ModelInfo = ModelInfo(hasTargets: bool, critical: bool)

  /** `draw`: the target chosen for a model that has targets; `worker`: the front end's answer to a
      body, None if the call failed; `schedule`: the address picked for model, target and
      criticality; `port`: the pool's port, None before the pool is set; `randomPod`: the address
      for requests without body, None if there are no pods; `sends`: whether the n-th send works. */
  datatype Env = Env(lookup: string -> Option<ModelInfo>, draw: string -> string, worker: Object -> Option<string>,
                     schedule: (string, string, bool) -> Option<string>, port: Option<string>,
                     randomPod: Option<string>, sends: nat -> bool)

  datatype Code = BadRequest | BadConfiguration | InternalError | ResourceExhausted | Unknown

  datatype Gauge = Inc(model: string) | Dec(model: string)

  /** Responses that are prepared but not sent. */
  datatype Pending = Pending(reqHeader: Option<Msg>, reqBody: Option<Msg>, reqTrailer: Option<Msg>,
                             respHeader: Option<Msg>, respBody: Option<Msg>, respTrailer: Option<Msg>)

  /** The buffer shared by both directions, the decoded bodies and the rest of the request context. */
  datatype Context = Context(body: Bytes, request: Option<Object>, response: Option<Object>,
                             model: string, target: string, worker: string,
                             streaming: bool, statusError: bool, running: bool)

  /** One stream: what it knows, what it is about to send, and what it has done to the outside. */
  datatype Session = Session(stage: Stage, pending: Pending, ctx: Context,
                             sent: seq<Msg>, gauge: seq<Gauge>, errors: nat, live: bool)

  const NEW := Session(RequestReceived, Pending(None, None, None, None, None, None),
                       Context([], None, None, "", "", "", false, false, false), [], [], 0, true)

  // ----- leaving the stream: the deferred metrics -----

  function Exit(s: Session, failed: bool): Session {
    s.(live := false,
       errors := s.errors + (if s.ctx.statusError || failed then 1 else 0),
       gauge := if s.ctx.running && s.ctx.model != "" then s.gauge + [Dec(s.ctx.model)] else s.gauge)
  }

  // ----- sending, in order header, body, trailer -----

  /** Sends one message; a failed send ends the stream. */
  function Send(env: Env, s: Session, m: Msg): Session {
    if env.sends(|s.sent|) then s.(sent := s.sent + [m]) else Exit(s, false)
  }

  function SendRequestHeader(env: Env, s: Session): Session {
    if s.live && s.stage.RequestReceived? && s.pending.reqHeader.Some? then
      var s' := Send(env, s, s.pending.reqHeader.value);
      if s'.live then s'.(stage := HeaderRequestResponseComplete) else s'
    else s
  }

  function SendRequestBody(env: Env, s: Session): Session {
    if s.live && s.stage.HeaderRequestResponseComplete? && s.pending.reqBody.Some? then
      var s' := Send(env, s, s.pending.reqBody.value);
      if s'.live then
        s'.(stage := BodyRequestResponsesComplete,
            ctx := s.ctx.(running := true),
            pending := s.pending.(reqBody := None),
            gauge := if s.ctx.model != "" then s.gauge + [Inc(s.ctx.model)] else s.gauge)
      else s'
    else s
  }

  function SendRequestTrailer(env: Env, s: Session): Session {
    if s.live && s.stage.BodyRequestResponsesComplete? && s.pending.reqTrailer.Some? && s.pending.reqHeader.Some?
    then Send(env, s, s.pending.reqHeader.value) else s
  }

  function SendResponseHeader(env: Env, s: Session): Session {
    if s.live && s.stage.ResponseReceived? && s.pending.respHeader.Some? then
      var s' := Send(env, s, s.pending.respHeader.value);
      if s'.live then s'.(stage := HeaderResponseResponseComplete) else s'
    else s
  }

  function SendResponseBody(env: Env, s: Session): Session {
    if s.live && s.stage.HeaderResponseResponseComplete? && s.pending.respBody.Some? then
      var m := s.pending.respBody.value;
      var s' := Send(env, s, m);
      if s'.live then
        s'.(stage := if m.ResponseBody? && m.eos then BodyResponseResponsesComplete else s.stage,
            pending := s.pending.(respBody := None))
      else s'
    else s
  }

  function SendResponseTrailer(env: Env, s: Session): Session {
    if s.live && s.stage.BodyResponseResponsesComplete? && s.pending.respTrailer.Some? && s.pending.reqHeader.Some?
    then Send(env, s, s.pending.reqHeader.value) else s
  }

  /** updateStateAndSendIfNeeded */
  function Update(env: Env, s: Session): Session {
    var s1 := SendRequestTrailer(env, SendRequestBody(env, SendRequestHeader(env, s)));
    SendResponseTrailer(env, SendResponseBody(env, SendResponseHeader(env, s1)))
  }

  // ----- handling one event -----

  datatype Handled = Good(s: Session) | Bad(s: Session, code: Code) | Panic(s: Session)

  function HandleRequestHeaders(env: Env, s: Session, eos: bool): Handled {
    if !eos then Good(s)
    else if env.randomPod.None? then Panic(s)
    else if env.port.None? then Bad(s, Unknown)
    else
      var m := RequestHeader(env.randomPod.value + ":" + env.port.value, None, s.ctx.worker);
      Good(s.(pending := s.pending.(reqHeader := Some(m))))
  }

  /** The target model a request for `model` is sent to. */
  function Resolve(env: Env, model: string): string {
    var info := env.lookup(model);
    if info.Some? && info.value.hasTargets then env.draw(model) else model
  }

  function Rewritten(env: Env, model: string, obj: Object): Object {
    if Resolve(env, model) != model then obj["model" := Str(Resolve(env, model))] else obj
  }

  /** The decision on a request body: the context's `request` map and worker id change either way. */
  datatype Plan =
    | Reject(code: Code, request: Option<Object>, worker: string)
    | Route(model: string, target: string, endpoint: string, bytes: Bytes, request: Option<Object>, worker: string)

  /** After encoding: ask the front end for a worker, the scheduler for a pod, the store for the port. */
  function PlanRoute(env: Env, model: string, critical: bool, obj: Object, bytes: Bytes, worker: string): Plan {
    var wid := env.worker(FrontEndBody(obj));
    var worker' := if wid.Some? && wid.value != "" then wid.value else worker;
    var request := Some(AfterFrontEnd(obj));
    var pod := env.schedule(model, Resolve(env, model), critical);
    if pod.None? then Reject(ResourceExhausted, request, worker')
    else if env.port.None? then Reject(Unknown, request, worker')
    else Route(model, Resolve(env, model), pod.value + ":" + env.port.value, bytes, request, worker')
  }

  function PlanRequest(codec: Codec, env: Env, request: Option<Object>, worker: string): Plan {
    var obj := if request.Some? then request.value else map[];
    if "model" !in obj || !obj["model"].Str? then Reject(BadRequest, request, worker)
    else
      var model := obj["model"].s;
      var info := env.lookup(model);
      if info.None? || (info.value.hasTargets && Resolve(env, model) == "") then Reject(BadConfiguration, request, worker)
      else
        var obj' := Rewritten(env, model, obj);
        var bytes := codec.encode(obj');
        if bytes.None? then Reject(InternalError, Some(obj'), worker)
        else PlanRoute(env, model, info.value.critical, obj', bytes.value, worker)
  }

  /** HandleRequestBody on the decoded body, which is the context's `request`. */
  function HandleRequestBody(codec: Codec, env: Env, s: Session): Handled {
    match PlanRequest(codec, env, s.ctx.request, s.ctx.worker)
    case Reject(code, request, worker) => Bad(s.(ctx := s.ctx.(request := request, worker := worker)), code)
    case Route(model, target, endpoint, bytes, request, worker) =>
      var header := RequestHeader(endpoint, if |bytes| > 0 then Some(|bytes|) else None, worker);
      Good(s.(ctx := s.ctx.(request := request, worker := worker, model := model, target := target),
              pending := s.pending.(reqHeader := Some(header), reqBody := Some(RequestBody(bytes, true)))))
  }

  function HandleRequestChunk(codec: Codec, env: Env, s: Session, chunk: Bytes, eos: bool): Handled {
    var body := s.ctx.body + chunk;
    if !eos then Good(s.(ctx := s.ctx.(body := body)))
    else HandleRequestBody(codec, env, s.(ctx := s.ctx.(request := Unmarshal(codec, s.ctx.request, body), body := [])))
  }

  predicate Contains(s: string, t: string) {
    |t| <= |s| && (s[..|t|] == t || (s != "" && Contains(s[1..], t)))
  }

  predicate ErrorStatus(h: (string, string)) { h.0 == "status" && h.1 != "200" }

  predicate EventStream(h: (string, string)) { !ErrorStatus(h) && h.0 == "content-type" && Contains(h.1, "text/event-stream") }

  predicate AnyErrorStatus(headers: seq<(string, string)>) {
    headers != [] && (AnyErrorStatus(headers[..|headers| - 1]) || ErrorStatus(headers[|headers| - 1]))
  }

  predicate AnyEventStream(headers: seq<(string, string)>) {
    headers != [] && (AnyEventStream(headers[..|headers| - 1]) || EventStream(headers[|headers| - 1]))
  }

  function HandleResponseHeaders(s: Session, headers: seq<(string, string)>): Session {
    s.(ctx := s.ctx.(statusError := s.ctx.statusError || AnyErrorStatus(headers),
                     streaming := s.ctx.streaming || AnyEventStream(headers)),
       pending := s.pending.(respHeader := Some(ResponseHeader)),
       stage := ResponseReceived)
  }

  /** The type assertions on the usage block hold. */
  predicate UsageReadable(response: Option<Object>) {
    (response.Some? && "usage" in response.value && !response.value["usage"].Null?) ==>
      var usage := response.value["usage"];
      usage.Obj? && forall k :: k in ["prompt_tokens", "completion_tokens", "total_tokens"] ==> k in usage.fields && usage.fields[k].Num?
  }

  function HandleResponseBody(codec: Codec, s: Session): Handled {
    var bytes := Marshal(codec, s.ctx.response);
    if bytes.None? then Good(s)
    else if !UsageReadable(s.ctx.response) then Panic(s)
    else Good(s.(pending := s.pending.(respBody := Some(ResponseBody(bytes.value, true)))))
  }

  function HandleResponseChunk(codec: Codec, s: Session, chunk: Bytes, eos: bool): Handled {
    if s.ctx.streaming then Good(s.(pending := s.pending.(respBody := Some(ResponseBody(chunk, eos)))))
    else
      var body := s.ctx.body + chunk;
      if !eos then Good(s.(ctx := s.ctx.(body := body)))
      else HandleResponseBody(codec, s.(ctx := s.ctx.(body := body, response := Unmarshal(codec, s.ctx.response, body))))
  }

  function Handle(codec: Codec, env: Env, s: Session, e: Event): Handled {
    match e
    case RequestHeaders(eos) => HandleRequestHeaders(env, s, eos)
    case RequestChunk(chunk, eos) => HandleRequestChunk(codec, env, s, chunk, eos)
    case RequestTrailers => Good(s)
    case ResponseHeaders(headers) => Good(HandleResponseHeaders(s, headers))
    case ResponseChunk(chunk, eos) => HandleResponseChunk(codec, s, chunk, eos)
    case ResponseTrailers => Good(s)
  }

  /** The HTTP status of an immediate response; None for errors that get no response. */
  function Status(code: Code): Option<int> {
    match code
    case ResourceExhausted => Some(429)
    case InternalError => Some(500)
    case BadRequest => Some(400)
    case BadConfiguration => Some(404)
    case Unknown => None
  }

  function Fail(env: Env, s: Session, code: Code): Session {
    if Status(code).Some? && env.sends(|s.sent|) then Exit(s.(sent := s.sent + [Immediate(Status(code).value)]), true)
    else Exit(s, true)
  }

  /** One pass of the event loop. */
  function Step(codec: Codec, env: Env, s: Session, e: Event): Session {
    if !s.live then s
    else
      match Handle(codec, env, s, e)
      case Good(s') => Update(env, s')
      case Bad(s', code) => Fail(env, s', code)
      case Panic(s') => Exit(s', false)
  }

  datatype Input = Input(env: Env, event: Event)

  function Run(codec: Codec, s: Session, inputs: seq<Input>): Session
    decreases |inputs|
  {
    if inputs == [] then s else Run(codec, Step(codec, inputs[0].env, s, inputs[0].event), inputs[1..])
  }

  /** Recv reports the end of the stream, cancellation, or an error; or the context is done. */
  function Close(s: Session): Session { if s.live then Exit(s, false) else s }
}
