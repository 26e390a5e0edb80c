/** Which request body a stream forwards, from its inputs. */
module StreamingForwards {
  import opened Wrappers
  import opened Json
  import opened Streaming
  import opened StreamingOrder
  import opened StreamingChunks

  predicate IsBody(e: Event) { e.RequestChunk? && e.eos }

  /** The request's answer is not out yet. */
  predicate Early(stage: Stage) { stage.RequestReceived? || stage.HeaderRequestResponseComplete? }

  /** The decision on the request that an event completes, if it does. */
  function Planned(codec: Codec, env: Env, s: Session, e: Event): Option<Plan> {
    if !s.live || !IsBody(e) then None
    else Some(PlanRequest(codec, env, Unmarshal(codec, s.ctx.request, s.ctx.body + e.chunk), s.ctx.worker))
  }

  function RoutedBytes(plan: Option<Plan>): Option<Bytes> {
    if plan.Some? && plan.value.Route? then Some(plan.value.bytes) else None
  }

  /** The sends that the answer needs work: header and body, or the body alone if a header is out. */
  predicate AnswerSends(env: Env, s: Session) {
    env.sends(|s.sent|) && (s.stage.RequestReceived? ==> env.sends(|s.sent| + 1))
  }

  /** The body of the first request that is routed while its answer can still be sent, and is. */
  function Forwards(codec: Codec, s: Session, inputs: seq<Input>): Option<Bytes>
    decreases |inputs|
  {
    if inputs == [] then None
    else
      var x := inputs[0];
      var bytes := RoutedBytes(Planned(codec, x.env, s, x.event));
      if Early(s.stage) && bytes.Some? && AnswerSends(x.env, s) then bytes
      else Forwards(codec, Step(codec, x.env, s, x.event), inputs[1..])
  }

  /** The request body among the messages sent. */
  function SentBody(log: seq<Msg>): Option<Bytes> {
    if log == [] then None
    else
      var m := log[|log| - 1];
      if m.RequestBody? then Some(m.body) else SentBody(log[..|log| - 1])
  }

  lemma SentBodyAppend(log: seq<Msg>, m: Msg)
    ensures SentBody(log + [m]) == if m.RequestBody? then Some(m.body) else SentBody(log)
  {
    assert (log + [m])[..|log|] == log;
  }

  /** Between events: before the answer is out, no body is prepared and none was sent. */
  predicate Unsent(s: Session) {
    s.live && Early(s.stage) ==> s.pending.reqBody.None? && SentBody(s.sent).None?
  }

  /** Between handling an event and sending. */
  predicate Loaded(s: Session, bytes: Option<Bytes>) {
    s.live && Early(s.stage) ==>
      && SentBody(s.sent).None?
      && (bytes.Some? ==> s.pending.reqHeader.Some? && s.pending.reqBody == Some(RequestBody(bytes.value, true)))
      && (bytes.None? ==> s.pending.reqBody.None?)
  }

  lemma RequestSends(env: Env, s: Session, bytes: Option<Bytes>)
    requires s.live && Loaded(s, bytes) && Typed(s)
    ensures var s' := SendRequestBody(env, SendRequestHeader(env, s));
            && Unsent(s')
            && SentBody(s'.sent) == if Early(s.stage) && bytes.Some? && AnswerSends(env, s) then bytes else SentBody(s.sent)
  {
    hide SentBody;
    if s.pending.reqHeader.Some? { SentBodyAppend(s.sent, s.pending.reqHeader.value); }
    var s1 := SendRequestHeader(env, s);
    if s1.pending.reqBody.Some? { SentBodyAppend(s1.sent, s1.pending.reqBody.value); }
  }

  lemma ResponseSends(env: Env, s: Session)
    requires Unsent(s) && Typed(s)
    ensures var s' := SendResponseBody(env, SendResponseHeader(env, s)); Unsent(s') && SentBody(s'.sent) == SentBody(s.sent)
  {
    hide SentBody;
    if s.pending.respHeader.Some? { SentBodyAppend(s.sent, s.pending.respHeader.value); }
    var s1 := SendResponseHeader(env, s);
    if s1.pending.respBody.Some? { SentBodyAppend(s1.sent, s1.pending.respBody.value); }
  }

  lemma UpdateSends(env: Env, s: Session, bytes: Option<Bytes>)
    requires s.live && Loaded(s, bytes) && Typed(s)
    ensures Unsent(Update(env, s))
    ensures SentBody(Update(env, s).sent) == if Early(s.stage) && bytes.Some? && AnswerSends(env, s) then bytes else SentBody(s.sent)
  {
    hide SendRequestHeader, SendRequestBody, SendRequestTrailer, SendResponseHeader, SendResponseBody, SendResponseTrailer,
      Loaded, Unsent, SentBody;
    RequestSends(env, s, bytes);
    RequestSide(env, s);
    var s2 := SendRequestBody(env, SendRequestHeader(env, s));
    ResponseSends(env, s2);
    ResponseSide(env, s2);
  }

  lemma RequestLoads(codec: Codec, env: Env, s: Session, e: Event)
    requires s.live && Unsent(s) && !e.ResponseHeaders? && !e.ResponseChunk?
    ensures var h, bytes := Handle(codec, env, s, e), RoutedBytes(Planned(codec, env, s, e));
            Loaded(h.s, bytes) && (!h.Good? ==> bytes.None?)
  {
    hide SentBody, PlanRequest, Unmarshal;
  }

  lemma HandleLoads(codec: Codec, env: Env, s: Session, e: Event)
    requires s.live && Unsent(s) && Typed(s)
    ensures var h, bytes := Handle(codec, env, s, e), RoutedBytes(Planned(codec, env, s, e));
            && Loaded(h.s, bytes) && Typed(h.s) && h.s.live && h.s.sent == s.sent
            && (!h.Good? ==> bytes.None?) && (bytes.Some? ==> h.s.stage == s.stage)
  {
    hide Handle, SentBody, PlanRequest, Unmarshal;
    HandleTyped(codec, env, s, e);
    if e.ResponseHeaders? || e.ResponseChunk? {
      ResponseFrame(codec, env, s, e);
    } else {
      RequestFrame(codec, env, s, e);
      RequestLoads(codec, env, s, e);
    }
  }

  lemma FailSends(env: Env, s: Session, code: Code)
    ensures SentBody(Fail(env, s, code).sent) == SentBody(s.sent) && SentBody(Exit(s, false).sent) == SentBody(s.sent)
    ensures Unsent(Fail(env, s, code)) && Unsent(Exit(s, false))
  {
    hide SentBody;
    if Status(code).Some? { SentBodyAppend(s.sent, Immediate(Status(code).value)); }
  }

  lemma StepForwards(codec: Codec, env: Env, s: Session, e: Event)
    requires Unsent(s) && Typed(s)
    ensures var s', bytes := Step(codec, env, s, e), RoutedBytes(Planned(codec, env, s, e));
            && Unsent(s') && Typed(s')
            && SentBody(s'.sent) == if Early(s.stage) && bytes.Some? && AnswerSends(env, s) then bytes else SentBody(s.sent)
  {
    hide Handle, Update, Fail, Exit, Unsent, Loaded, SentBody, Typed, Early;
    if s.live {
      HandleLoads(codec, env, s, e);
      hide Planned;
      match Handle(codec, env, s, e)
      case Good(s') =>
        UpdateSends(env, s', RoutedBytes(Planned(codec, env, s, e)));
        UpdateQuiets(env, s');
      case Bad(s', code) =>
        FailSends(env, s', code);
        ExitQuiet(env, s', code, true);
      case Panic(s') =>
        FailSends(env, s', Unknown);
        ExitQuiet(env, s', Unknown, false);
    }
  }

  lemma {:induction false} RunForwards(codec: Codec, s: Session, inputs: seq<Input>)
    requires Unsent(s) && Typed(s)
    ensures SentBody(Run(codec, s, inputs).sent)
            == if SentBody(s.sent).Some? then SentBody(s.sent) else Forwards(codec, s, inputs)
    decreases |inputs|
  {
    hide Step, Typed, SentBody, Planned;
    if inputs != [] {
      var x := inputs[0];
      StepForwards(codec, x.env, s, x.event);
      assert Planned(codec, x.env, s, x.event).Some? ==> s.live by { PlannedLive(codec, x.env, s, x.event); }
      RunForwards(codec, Step(codec, x.env, s, x.event), inputs[1..]);
    }
  }

  lemma PlannedLive(codec: Codec, env: Env, s: Session, e: Event)
    ensures Planned(codec, env, s, e).Some? ==> s.live
  {
  }

  /** For every stream, the request body that is sent is the one that the inputs say. */
  lemma {:induction false} ForwardsExact(codec: Codec, inputs: seq<Input>)
    ensures SentBody(Run(codec, NEW, inputs).sent) == Forwards(codec, NEW, inputs)
  {
    hide Run, Forwards;
    RunForwards(codec, NEW, inputs);
  }

  // ----- an outside that routes every request -----

  /** Decodes the body [1] to a request for the model x and every other body to one for y. */
  function TwoModels(): Codec {
    Codec(b => Document(map["model" := Str(if b == [1] then "x" else "y")]), _ => Some([0]), [])
  }

  function AnyRequest(env: Env): Env {
    env.(lookup := _ => Some(ModelInfo(false, true)), schedule := (_, _, _) => Some("pod"), port := Some("80"),
         randomPod := Some("pod"), sends := _ => true)
  }

  lemma SendsAll(env: Env, s: Session)
    ensures AnyRequest(env).sends(0) && AnyRequest(env).sends(1) && AnswerSends(AnyRequest(env), s)
  {
  }

  lemma AlwaysRouted(env: Env, request: Object, model: string, worker: string)
    requires "model" in request && request["model"] == Str(model)
    ensures var p := PlanRequest(TwoModels(), AnyRequest(env), Some(request), worker);
            p.Route? && p.model == model && p.bytes == [0]
  {
    hide FrontEndBody, AfterFrontEnd;
  }

  lemma AlwaysPlanned(env: Env, s: Session, b: Bytes)
    requires s.live && s.ctx.body == []
    ensures var p := Planned(TwoModels(), AnyRequest(env), s, RequestChunk(b, true));
            p.Some? && p.value.Route? && p.value.model == (if b == [1] then "x" else "y") && p.value.bytes == [0]
  {
    hide PlanRequest, AnyRequest;
    var model := if b == [1] then "x" else "y";
    assert s.ctx.body + b == b;
    var request := (if s.ctx.request.Some? then s.ctx.request.value else map[]) + map["model" := Str(model)];
    AlwaysRouted(env, request, model, s.ctx.worker);
  }
}
