/** The Content-Length announced to the model server and the request body that follows it. */
module StreamingLengths {
  import opened Wrappers
  import opened Json
  import opened Streaming
  import opened StreamingOrder
  import opened StreamingChunks
  import opened StreamingForwards

  function LengthHeader(body: Bytes): Option<nat> { if |body| > 0 then Some(|body|) else None }

  /** Every request body is sent right after a header that announces its length. */
  predicate Agreed(log: seq<Msg>) {
    forall i :: 0 <= i < |log| && log[i].RequestBody? ==>
      i > 0 && log[i - 1].RequestHeader? && log[i - 1].contentLength == LengthHeader(log[i].body)
  }

  /** The events after which the stage is no longer the initial one. */
  predicate Decisive(e: Event) { (e.RequestHeaders? && e.eos) || (e.RequestChunk? && e.eos) || e.ResponseHeaders? }

  /** The first of these events is the headers of a request without a body. */
  predicate OpensBare(inputs: seq<Input>) {
    inputs != [] && if Decisive(inputs[0].event) then inputs[0].event.RequestHeaders? else OpensBare(inputs[1..])
  }

  /** A request body is the second message, after a header that announces its length or, if `bare`, none. */
  predicate Announced(log: seq<Msg>, bare: bool) {
    forall i :: 0 <= i < |log| && log[i].RequestBody? ==>
      i == 1 && log[0].RequestHeader? && log[0].contentLength == if bare then None else LengthHeader(log[1].body)
  }

  /** The prepared header announces the prepared body. */
  predicate Paired(p: Pending) {
    && p.reqHeader.Some? && p.reqHeader.value.RequestHeader?
    && p.reqBody.Some? && p.reqBody.value.RequestBody?
    && p.reqHeader.value.contentLength == LengthHeader(p.reqBody.value.body)
  }

  predicate HeaderSent(log: seq<Msg>) { |log| == 1 && log[0].RequestHeader? && log[0].contentLength.None? }

  /** Between events. */
  predicate Settled(s: Session, bare: bool) {
    && Announced(s.sent, bare)
    && (s.live && s.stage.RequestReceived? ==> s.sent == [] && s.pending.reqHeader.None? && s.pending.reqBody.None?)
    && (s.live && s.stage.HeaderRequestResponseComplete? ==> bare && HeaderSent(s.sent))
  }

  /** Between handling an event and sending. */
  predicate Ready(s: Session, bare: bool) {
    && s.live && Announced(s.sent, bare)
    && (s.stage.RequestReceived? ==>
          && s.sent == []
          && (s.pending.reqBody.Some? ==> !bare && Paired(s.pending))
          && (s.pending.reqBody.None? && s.pending.reqHeader.Some? ==>
                bare && s.pending.reqHeader.value.RequestHeader? && s.pending.reqHeader.value.contentLength.None?))
    && (s.stage.HeaderRequestResponseComplete? ==> bare && HeaderSent(s.sent))
  }

  lemma AnnouncedAppend(log: seq<Msg>, m: Msg, bare: bool)
    requires Announced(log, bare) && !m.RequestBody?
    ensures Announced(log + [m], bare)
  {
    forall i | 0 <= i < |log + [m]| && (log + [m])[i].RequestBody?
      ensures i == 1 && log[0].RequestHeader? && log[0].contentLength == if bare then None else LengthHeader((log + [m])[1].body)
    {
      assert i < |log| && log[i].RequestBody?;
    }
  }

  /** What header and body sent together amount to. */
  lemma HeaderThenBody(h: Msg, m: Msg, bare: bool)
    requires h.RequestHeader?
    ensures Announced([h], bare) && [] + [h] == [h]
    ensures m.RequestBody? && h.contentLength == (if bare then None else LengthHeader(m.body)) ==> Announced([h] + [m], bare)
  {
  }

  lemma RequestSends(env: Env, s: Session, bare: bool)
    requires Ready(s, bare) && Typed(s)
    ensures Settled(SendRequestBody(env, SendRequestHeader(env, s)), bare)
  {
    hide Announced;
    if s.stage.RequestReceived? && s.pending.reqHeader.Some? {
      var h := s.pending.reqHeader.value;
      HeaderThenBody(h, if s.pending.reqBody.Some? then s.pending.reqBody.value else h, bare);
    }
    if s.stage.HeaderRequestResponseComplete? && s.pending.reqBody.Some? {
      HeaderThenBody(s.sent[0], s.pending.reqBody.value, bare);
      assert s.sent == [s.sent[0]];
    }
  }

  lemma ResponseSends(env: Env, s: Session, bare: bool)
    requires Settled(s, bare) && Typed(s)
    ensures Settled(SendResponseBody(env, SendResponseHeader(env, s)), bare)
  {
    hide Announced;
    var s1 := SendResponseHeader(env, s);
    if s.pending.respHeader.Some? { AnnouncedAppend(s.sent, s.pending.respHeader.value, bare); }
    if s1.pending.respBody.Some? { AnnouncedAppend(s1.sent, s1.pending.respBody.value, bare); }
  }

  lemma UpdateSettles(env: Env, s: Session, bare: bool)
    requires Ready(s, bare) && Typed(s)
    ensures Settled(Update(env, s), bare)
  {
    hide SendRequestHeader, SendRequestBody, SendRequestTrailer, SendResponseHeader, SendResponseBody, SendResponseTrailer,
      Ready, Settled;
    RequestSends(env, s, bare);
    RequestSide(env, s);
    var s2 := SendRequestBody(env, SendRequestHeader(env, s));
    ResponseSends(env, s2, bare);
    ResponseSide(env, s2);
  }

  /** What the initial stage demands of the flag: it is settled by the first decisive event. */
  predicate Fits(s: Session, e: Event, bare: bool) {
    s.live && s.stage.RequestReceived? && Decisive(e) && !e.ResponseHeaders? ==> bare == e.RequestHeaders?
  }

  lemma HandleReadies(codec: Codec, env: Env, s: Session, e: Event, bare: bool)
    requires s.live && Settled(s, bare) && Fits(s, e, bare)
    ensures Ready(Handle(codec, env, s, e).s, bare)
    ensures var h := Handle(codec, env, s, e);
            h.Good? && h.s.stage.RequestReceived? ==> s.stage.RequestReceived? && (Decisive(e) ==> h.s.pending.reqHeader.Some?)
  {
    hide Announced, PlanRequest, Marshal, Unmarshal, UsageReadable, AnyErrorStatus, AnyEventStream;
  }

  lemma StaysInitial(env: Env, s: Session)
    requires Typed(s)
    ensures var s' := Update(env, s);
            s'.live && s'.stage.RequestReceived? ==> s.live && s.stage.RequestReceived? && s.pending.reqHeader.None?
  {
    hide SendRequestTrailer, SendResponseHeader, SendResponseBody, SendResponseTrailer;
    RequestSide(env, s);
    ResponseSide(env, SendRequestBody(env, SendRequestHeader(env, s)));
  }

  lemma FailSettles(env: Env, s: Session, code: Code, bare: bool)
    requires Ready(s, bare)
    ensures Settled(Fail(env, s, code), bare) && Settled(Exit(s, false), bare)
    ensures !Fail(env, s, code).live && !Exit(s, false).live
  {
    hide Announced;
    if Status(code).Some? { AnnouncedAppend(s.sent, Immediate(Status(code).value), bare); }
  }

  lemma StepSettles(codec: Codec, env: Env, s: Session, e: Event, bare: bool)
    requires Settled(s, bare) && Typed(s) && Fits(s, e, bare)
    ensures var s' := Step(codec, env, s, e);
            && Settled(s', bare) && Typed(s')
            && (s'.live && s'.stage.RequestReceived? ==> s.live && s.stage.RequestReceived? && !Decisive(e))
  {
    hide Handle, Update, Fail, Exit, Settled, Ready, Typed, Decisive;
    if s.live {
      HandleReadies(codec, env, s, e, bare);
      HandleTyped(codec, env, s, e);
      match Handle(codec, env, s, e)
      case Good(s') =>
        UpdateSettles(env, s', bare);
        UpdateQuiets(env, s');
        StaysInitial(env, s');
      case Bad(s', code) =>
        FailSettles(env, s', code, bare);
        ExitQuiet(env, s', code, true);
      case Panic(s') =>
        FailSettles(env, s', Unknown, bare);
        ExitQuiet(env, s', Unknown, false);
    }
  }

  lemma {:induction false} RunSettles(codec: Codec, s: Session, inputs: seq<Input>, bare: bool)
    requires Settled(s, bare) && Typed(s) && (s.live && s.stage.RequestReceived? ==> bare == OpensBare(inputs))
    ensures Settled(Run(codec, s, inputs), bare)
    decreases |inputs|
  {
    hide Step, Settled, Typed;
    if inputs != [] {
      var x := inputs[0];
      var s' := Step(codec, x.env, s, x.event);
      StepSettles(codec, x.env, s, x.event, bare);
      RunSettles(codec, s', inputs[1..], bare);
    }
  }

  /** The messages after which no body can follow say which body there is. */
  lemma {:induction false} NoBodyAfter(log: seq<Msg>, k: nat)
    requires k <= |log| && forall i :: k <= i < |log| ==> !log[i].RequestBody?
    ensures SentBody(log) == SentBody(log[..k])
    decreases |log|
  {
    if k == |log| {
      assert log[..k] == log;
    } else {
      var init := log[..|log| - 1];
      NoBodyAfter(init, k);
      assert init[..k] == log[..k];
    }
  }

  lemma AnnouncedBody(log: seq<Msg>, bare: bool)
    requires Announced(log, bare)
    ensures SentBody(log) == if |log| > 1 && log[1].RequestBody? then Some(log[1].body) else None
  {
    if |log| > 1 && log[1].RequestBody? {
      NoBodyAfter(log, 2);
      assert log[..2] == [log[0]] + [log[1]];
      SentBodyAppend([log[0]], log[1]);
    } else {
      NoBodyAfter(log, 0);
    }
  }

  /** In every stream a request body is the second message, sent right after the request header.  The
      header announces its length, unless the stream opened with the headers of a request without a
      body: then the header was sent for those and announces nothing.  So the two agree exactly when
      it did not open so, or it forwards no body or an empty one. */
  lemma {:induction false} HeaderAnnouncesBody(codec: Codec, inputs: seq<Input>)
    ensures var log, body := Run(codec, NEW, inputs).sent, Forwards(codec, NEW, inputs);
            && SentBody(log) == body
            && Announced(log, OpensBare(inputs))
            && (Agreed(log) <==> !OpensBare(inputs) || body.None? || body.value == [])
  {
    hide Run, OpensBare, Forwards, SentBody;
    RunSettles(codec, NEW, inputs, OpensBare(inputs));
    ForwardsExact(codec, inputs);
    AnnouncedBody(Run(codec, NEW, inputs).sent, OpensBare(inputs));
  }

  lemma BareOpening(codec: Codec, env: Env)
    requires env.randomPod.Some? && env.port.Some? && env.sends(0)
    ensures var s := Step(codec, env, NEW, RequestHeaders(true));
            s.live && s.stage.HeaderRequestResponseComplete? && s.ctx.body == []
  {
    var s' := Handle(codec, env, NEW, RequestHeaders(true)).s;
    var s2 := SendRequestBody(env, SendRequestHeader(env, s'));
    assert SendRequestTrailer(env, s2) == s2 && SendResponseHeader(env, s2) == s2 && SendResponseBody(env, s2) == s2;
  }

  lemma OpensPorts(env: Env)
    ensures AnyRequest(env).randomPod.Some? && AnyRequest(env).port.Some?
  {
  }

  /** A stream that opens with headers without a body and then gets one: the header announces no
      length, and a body of one byte follows it. */
  lemma {:induction false} BareOpeningDisagrees(env: Env)
    ensures var inputs := [Input(AnyRequest(env), RequestHeaders(true)), Input(AnyRequest(env), RequestChunk([1], true))];
            var log := Run(TwoModels(), NEW, inputs).sent;
            && |log| > 1 && log[0].RequestHeader? && log[0].contentLength.None? && log[1].RequestBody? && log[1].body == [0]
            && !Agreed(log)
  {
    hide Run, Step, AnyRequest, TwoModels, Planned, AnswerSends, Agreed, SentBody;
    var codec, e := TwoModels(), AnyRequest(env);
    var inputs := [Input(e, RequestHeaders(true)), Input(e, RequestChunk([1], true))];
    var s1 := Step(codec, e, NEW, RequestHeaders(true));
    assert inputs[1..] == [Input(e, RequestChunk([1], true))];
    SendsAll(env, s1);
    OpensPorts(env);
    BareOpening(codec, e);
    AlwaysPlanned(env, s1, [1]);
    HeadersPlanNothing(codec, e, NEW, true);
    assert Forwards(codec, s1, inputs[1..]) == Some([0]);
    assert Forwards(codec, NEW, inputs) == Some([0]);
    HeaderAnnouncesBody(codec, inputs);
    AnnouncedBody(Run(codec, NEW, inputs).sent, true);
  }

  lemma HeadersPlanNothing(codec: Codec, env: Env, s: Session, eos: bool)
    ensures Planned(codec, env, s, RequestHeaders(eos)).None?
  {
  }
}
