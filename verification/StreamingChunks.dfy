/** How bodies are cut into chunks does not show, and event streams are passed on chunk by chunk. */
module StreamingChunks {
  import opened Wrappers
  import opened Json
  import opened Streaming
  import opened StreamingOrder

  function Flat(chunks: seq<Bytes>): Bytes {
    if chunks == [] then [] else chunks[0] + Flat(chunks[1..])
  }

  /** A body in chunks, the last one marked as the end of the stream. */
  function RequestChunks(chunks: seq<Bytes>): seq<Event> {
    if chunks == [] then [] else [RequestChunk(chunks[0], |chunks| == 1)] + RequestChunks(chunks[1..])
  }

  function ResponseChunks(chunks: seq<Bytes>): seq<Event> {
    if chunks == [] then [] else [ResponseChunk(chunks[0], |chunks| == 1)] + ResponseChunks(chunks[1..])
  }

  /** The events of the inputs; their environments are free. */
  ghost predicate Carries(inputs: seq<Input>, events: seq<Event>) {
    |inputs| == |events| && forall i :: 0 <= i < |inputs| ==> inputs[i].event == events[i]
  }

  lemma {:induction false} RunConcat(codec: Codec, s: Session, a: seq<Input>, b: seq<Input>)
    ensures Run(codec, s, a + b) == Run(codec, Run(codec, s, a), b)
    decreases |a|
  {
    hide Step;
    if a == [] {
      assert a + b == b;
    } else {
      assert (a + b)[1..] == a[1..] + b;
      RunConcat(codec, Step(codec, a[0].env, s, a[0].event), a[1..], b);
    }
  }

  lemma RunOne(codec: Codec, s: Session, x: Input)
    ensures Run(codec, s, [x]) == Step(codec, x.env, s, x.event)
  {
    hide Step;
    assert [x][1..] == [];
  }

  // ----- between events nothing is left to send -----

  predicate Quiet(s: Session) {
    && Typed(s)
    && (s.live ==> && !(s.stage.RequestReceived? && s.pending.reqHeader.Some?)
                   && !(s.stage.HeaderRequestResponseComplete? && s.pending.reqBody.Some?)
                   && !(s.stage.ResponseReceived? && s.pending.respHeader.Some?)
                   && !(s.stage.HeaderResponseResponseComplete? && s.pending.respBody.Some?))
  }

  lemma QuietUpdate(env: Env, s: Session)
    requires Quiet(s)
    ensures Update(env, s) == s
  {
  }

  /** The request side of an update leaves no request message that could be sent. */
  lemma RequestSide(env: Env, s: Session)
    requires Typed(s)
    ensures var s' := SendRequestBody(env, SendRequestHeader(env, s));
            && Typed(s') && SendRequestTrailer(env, s') == s'
            && (s'.live ==> && !(s'.stage.RequestReceived? && s'.pending.reqHeader.Some?)
                            && !(s'.stage.HeaderRequestResponseComplete? && s'.pending.reqBody.Some?))
            && (s'.ctx == s.ctx || s'.ctx == s.ctx.(running := true))
  {
  }

  lemma ResponseSide(env: Env, s: Session)
    requires Typed(s)
    ensures var s' := SendResponseBody(env, SendResponseHeader(env, s));
            && Typed(s') && SendResponseTrailer(env, s') == s'
            && (s'.live ==> && !(s'.stage.ResponseReceived? && s'.pending.respHeader.Some?)
                            && !(s'.stage.HeaderResponseResponseComplete? && s'.pending.respBody.Some?)
                            && (s'.stage == s.stage || s'.stage.HeaderResponseResponseComplete? || s'.stage.BodyResponseResponsesComplete?))
            && s'.ctx == s.ctx && s'.pending.reqHeader == s.pending.reqHeader && s'.pending.reqBody == s.pending.reqBody
            && (s'.live ==> s.live)
  {
    hide SendResponseHeader;
    ResponseHeaderStep(env, s);
  }

  lemma ResponseHeaderStep(env: Env, s: Session)
    requires Typed(s)
    ensures var s' := SendResponseHeader(env, s);
            && Typed(s') && s'.ctx == s.ctx && s'.pending == s.pending && (s'.live ==> s.live)
            && (s'.live ==> !(s'.stage.ResponseReceived? && s'.pending.respHeader.Some?)
                            && (s'.stage == s.stage || s'.stage.HeaderResponseResponseComplete?))
  {
  }

  lemma UpdateQuiets(env: Env, s: Session)
    requires Typed(s)
    ensures Quiet(Update(env, s))
    ensures Update(env, s).ctx == s.ctx || Update(env, s).ctx == s.ctx.(running := true)
  {
    hide SendRequestHeader, SendRequestBody, SendRequestTrailer, SendResponseHeader, SendResponseBody, SendResponseTrailer;
    RequestSide(env, s);
    ResponseSide(env, SendRequestBody(env, SendRequestHeader(env, s)));
  }

  lemma HandleTyped(codec: Codec, env: Env, s: Session, e: Event)
    requires Typed(s)
    ensures Typed(Handle(codec, env, s, e).s) && Handle(codec, env, s, e).s.live == s.live
  {
    hide Handle;
    if e.ResponseHeaders? || e.ResponseChunk? { ResponseFrame(codec, env, s, e); } else { RequestFrame(codec, env, s, e); }
  }

  lemma ExitQuiet(env: Env, s: Session, code: Code, failed: bool)
    requires Typed(s)
    ensures Quiet(Exit(s, failed)) && Exit(s, failed).ctx == s.ctx
    ensures Quiet(Fail(env, s, code)) && Fail(env, s, code).ctx == s.ctx
  {
  }

  /** Sending touches nothing of the context but the running mark. */
  predicate SameContext(c: Context, c': Context) { c' == c || c' == c.(running := true) }

  /** After any event the stream is quiet again. */
  lemma StepQuiets(codec: Codec, env: Env, s: Session, e: Event)
    requires Quiet(s)
    ensures Quiet(Step(codec, env, s, e))
    ensures s.live ==> SameContext(Handle(codec, env, s, e).s.ctx, Step(codec, env, s, e).ctx)
    ensures !s.live ==> Step(codec, env, s, e) == s
  {
    hide Handle, Update, Exit, Fail, Typed;
    if s.live {
      HandleTyped(codec, env, s, e);
      match Handle(codec, env, s, e)
      case Good(s') => UpdateQuiets(env, s');
      case Bad(s', code) => ExitQuiet(env, s', code, true);
      case Panic(s') => ExitQuiet(env, s', Unknown, false);
    }
  }

  // ----- request bodies -----

  lemma BufferedRequestChunk(codec: Codec, env: Env, s: Session, chunk: Bytes)
    requires Quiet(s) && s.live
    ensures var s' := s.(ctx := s.ctx.(body := s.ctx.body + chunk));
            Step(codec, env, s, RequestChunk(chunk, false)) == s' && Quiet(s')
  {
    hide Update;
    QuietUpdate(env, s.(ctx := s.ctx.(body := s.ctx.body + chunk)));
  }

  /** The handler of the last chunk sees only the whole body. */
  lemma LastRequestChunk(codec: Codec, env: Env, s: Session, a: Bytes, b: Bytes)
    ensures HandleRequestChunk(codec, env, s.(ctx := s.ctx.(body := s.ctx.body + a)), b, true)
            == HandleRequestChunk(codec, env, s, a + b, true)
  {
    hide HandleRequestBody;
    assert s.ctx.body + a + b == s.ctx.body + (a + b);
  }

  /** Wherever a stream stands, any split of a request body has the effect of a single chunk, and
      only the environment at the last chunk matters. */
  lemma {:induction false} RequestChunking(codec: Codec, s: Session, inputs: seq<Input>, chunks: seq<Bytes>)
    requires Quiet(s) && chunks != [] && Carries(inputs, RequestChunks(chunks))
    ensures inputs != []
    ensures Run(codec, s, inputs) == Step(codec, inputs[|inputs| - 1].env, s, RequestChunk(Flat(chunks), true))
    decreases |chunks|
  {
    hide HandleRequestChunk, Update, Fail, Exit;
    var events, rest := RequestChunks(chunks), Flat(chunks[1..]);
    assert events[1..] == RequestChunks(chunks[1..]);
    if |chunks| == 1 {
      assert Flat(chunks) == chunks[0] + [] == chunks[0];
      assert inputs == [inputs[0]];
      RunOne(codec, s, inputs[0]);
    } else {
      if s.live {
        BufferedRequestChunk(codec, inputs[0].env, s, chunks[0]);
        LastRequestChunk(codec, inputs[|inputs| - 1].env, s, chunks[0], rest);
      }
      RequestChunking(codec, Step(codec, inputs[0].env, s, events[0]), inputs[1..], chunks[1..]);
    }
  }

  // ----- response bodies -----

  lemma BufferedResponseChunk(codec: Codec, env: Env, s: Session, chunk: Bytes)
    requires Quiet(s) && s.live && !s.ctx.streaming
    ensures var s' := s.(ctx := s.ctx.(body := s.ctx.body + chunk));
            Step(codec, env, s, ResponseChunk(chunk, false)) == s' && Quiet(s')
  {
    hide Update;
    QuietUpdate(env, s.(ctx := s.ctx.(body := s.ctx.body + chunk)));
  }

  lemma LastResponseChunk(codec: Codec, s: Session, a: Bytes, b: Bytes)
    requires !s.ctx.streaming
    ensures HandleResponseChunk(codec, s.(ctx := s.ctx.(body := s.ctx.body + a)), b, true)
            == HandleResponseChunk(codec, s, a + b, true)
  {
    hide HandleResponseBody;
    assert s.ctx.body + a + b == s.ctx.body + (a + b);
  }

  /** The same for the body of a response that is not an event stream. */
  lemma {:induction false} ResponseChunking(codec: Codec, s: Session, inputs: seq<Input>, chunks: seq<Bytes>)
    requires Quiet(s) && !s.ctx.streaming && chunks != [] && Carries(inputs, ResponseChunks(chunks))
    ensures inputs != []
    ensures Run(codec, s, inputs) == Step(codec, inputs[|inputs| - 1].env, s, ResponseChunk(Flat(chunks), true))
    decreases |chunks|
  {
    hide HandleResponseChunk, Update, Fail, Exit;
    var events, rest := ResponseChunks(chunks), Flat(chunks[1..]);
    assert events[1..] == ResponseChunks(chunks[1..]);
    if |chunks| == 1 {
      assert Flat(chunks) == chunks[0] + [] == chunks[0];
      assert inputs == [inputs[0]];
      RunOne(codec, s, inputs[0]);
    } else {
      if s.live {
        BufferedResponseChunk(codec, inputs[0].env, s, chunks[0]);
        LastResponseChunk(codec, s, chunks[0], rest);
      }
      ResponseChunking(codec, Step(codec, inputs[0].env, s, events[0]), inputs[1..], chunks[1..]);
    }
  }

  // ----- event streams -----

  function Relayed(chunks: seq<Bytes>): seq<Msg> {
    if chunks == [] then [] else [ResponseBody(chunks[0], |chunks| == 1)] + Relayed(chunks[1..])
  }

  lemma RelayOne(codec: Codec, env: Env, s: Session, chunk: Bytes, eos: bool)
    requires Quiet(s) && s.live && s.ctx.streaming && s.stage.HeaderResponseResponseComplete? && env.sends(|s.sent|)
    ensures Step(codec, env, s, ResponseChunk(chunk, eos)) ==
            s.(sent := s.sent + [ResponseBody(chunk, eos)],
               stage := if eos then BodyResponseResponsesComplete else s.stage)
    ensures Quiet(Step(codec, env, s, ResponseChunk(chunk, eos)))
  {
    var m := ResponseBody(chunk, eos);
    var s' := s.(pending := s.pending.(respBody := Some(m)));
    assert SendRequestTrailer(env, SendRequestBody(env, SendRequestHeader(env, s'))) == s';
    assert SendResponseHeader(env, s') == s';
    assert s.pending == s'.pending.(respBody := None);
  }

  lemma RelayFails(codec: Codec, env: Env, s: Session, chunk: Bytes, eos: bool)
    requires Quiet(s) && s.live && s.ctx.streaming && s.stage.HeaderResponseResponseComplete? && !env.sends(|s.sent|)
    ensures var s' := Step(codec, env, s, ResponseChunk(chunk, eos)); !s'.live && s'.sent == s.sent
  {
    var s' := s.(pending := s.pending.(respBody := Some(ResponseBody(chunk, eos))));
    assert SendRequestTrailer(env, SendRequestBody(env, SendRequestHeader(env, s'))) == s';
    assert SendResponseHeader(env, s') == s';
  }

  lemma {:induction false} DeadRun(codec: Codec, s: Session, inputs: seq<Input>)
    requires !s.live
    ensures Run(codec, s, inputs) == s
    decreases |inputs|
  {
    if inputs != [] { DeadRun(codec, s, inputs[1..]); }
  }

  /** What gets out of a list of messages, the next of them being the n-th of the stream: each is
      sent in an environment of its own, and a send that fails is the last. */
  function Delivered(n: nat, envs: seq<Env>, log: seq<Msg>): seq<Msg>
    decreases |log|
  {
    if log == [] || envs == [] || !envs[0].sends(n) then [] else [log[0]] + Delivered(n + 1, envs[1..], log[1..])
  }

  function Envs(inputs: seq<Input>): seq<Env> {
    if inputs == [] then [] else [inputs[0].env] + Envs(inputs[1..])
  }

  lemma RelayStep(codec: Codec, s: Session, inputs: seq<Input>, chunks: seq<Bytes>)
    requires chunks != [] && Carries(inputs, ResponseChunks(chunks))
    ensures inputs != [] && inputs[0].event == ResponseChunk(chunks[0], |chunks| == 1)
    ensures Carries(inputs[1..], ResponseChunks(chunks[1..]))
    ensures Run(codec, s, inputs) == Run(codec, Step(codec, inputs[0].env, s, inputs[0].event), inputs[1..])
  {
    hide Step;
    assert ResponseChunks(chunks)[1..] == ResponseChunks(chunks[1..]);
  }

  lemma DeliverOne(n: nat, envs: seq<Env>, m: Msg, log: seq<Msg>)
    requires envs != []
    ensures Delivered(n, envs, [m] + log) == if envs[0].sends(n) then [m] + Delivered(n + 1, envs[1..], log) else []
  {
    assert ([m] + log)[1..] == log;
  }

  lemma RelayDelivers(n: nat, inputs: seq<Input>, chunks: seq<Bytes>)
    requires inputs != [] && chunks != []
    ensures Delivered(n, Envs(inputs), Relayed(chunks)) ==
            if inputs[0].env.sends(n)
            then [ResponseBody(chunks[0], |chunks| == 1)] + Delivered(n + 1, Envs(inputs[1..]), Relayed(chunks[1..]))
            else []
  {
    hide Delivered;
    assert Envs(inputs)[1..] == Envs(inputs[1..]);
    DeliverOne(n, Envs(inputs), ResponseBody(chunks[0], |chunks| == 1), Relayed(chunks[1..]));
  }

  /** Chunks of an event stream are passed on one for one, in order, with their end marks, up to the
      first send that fails. */
  lemma {:induction false} EventStreamRelay(codec: Codec, s: Session, inputs: seq<Input>, chunks: seq<Bytes>)
    requires Quiet(s) && s.live && s.ctx.streaming && s.stage.HeaderResponseResponseComplete?
    requires Carries(inputs, ResponseChunks(chunks))
    ensures Run(codec, s, inputs).sent == s.sent + Delivered(|s.sent|, Envs(inputs), Relayed(chunks))
    decreases |chunks|
  {
    hide Step, Quiet, Delivered, Carries, ResponseChunks, Relayed, Envs, Run;
    if chunks == [] {
      NothingRelayed(codec, s, inputs);
    } else {
      RelayStep(codec, s, inputs, chunks);
      RelayDelivers(|s.sent|, inputs, chunks);
      var x, m := inputs[0], ResponseBody(chunks[0], |chunks| == 1);
      var s1 := Step(codec, x.env, s, x.event);
      if !x.env.sends(|s.sent|) {
        RelayFails(codec, x.env, s, chunks[0], |chunks| == 1);
        DeadRun(codec, s1, inputs[1..]);
      } else {
        RelayOne(codec, x.env, s, chunks[0], |chunks| == 1);
        var out := Delivered(|s1.sent|, Envs(inputs[1..]), Relayed(chunks[1..]));
        if |chunks| == 1 {
          NothingRelayed(codec, s1, inputs[1..]);
        } else {
          EventStreamRelay(codec, s1, inputs[1..], chunks[1..]);
        }
        assert (s.sent + [m]) + out == s.sent + ([m] + out);
      }
    }
  }

  lemma NothingRelayed(codec: Codec, s: Session, inputs: seq<Input>)
    requires Carries(inputs, ResponseChunks([]))
    ensures Run(codec, s, inputs) == s && Delivered(|s.sent|, Envs(inputs), Relayed([])) == []
    ensures s.sent + [] == s.sent
  {
  }

  // ----- whole exchanges -----

  predicate Plain(headers: seq<(string, string)>) { !AnyEventStream(headers) }

  /** A request with a body and the response to it, both in chunks. */
  function Exchange(request: seq<Bytes>, headers: seq<(string, string)>, response: seq<Bytes>): seq<Event> {
    [RequestHeaders(false)] + RequestChunks(request) + [ResponseHeaders(headers)] + ResponseChunks(response)
  }

  lemma HandleStreaming(codec: Codec, env: Env, s: Session, e: Event)
    requires e.ResponseHeaders? ==> Plain(e.headers)
    ensures Handle(codec, env, s, e).s.ctx.streaming == s.ctx.streaming
  {
    hide PlanRequest, Marshal, Unmarshal, UsageReadable, AnyEventStream, AnyErrorStatus;
  }

  lemma StepStreaming(codec: Codec, env: Env, s: Session, e: Event)
    requires Quiet(s) && (e.ResponseHeaders? ==> Plain(e.headers))
    ensures Step(codec, env, s, e).ctx.streaming == s.ctx.streaming
  {
    hide Step, Handle, Plain;
    HandleStreaming(codec, env, s, e);
    StepQuiets(codec, env, s, e);
  }

  /** The first part of an exchange, with the request in one chunk. */
  function Asked(codec: Codec, asking: Env, request: Bytes, telling: Env, headers: seq<(string, string)>): Session {
    Step(codec, telling, Step(codec, asking, NEW, RequestChunk(request, true)), ResponseHeaders(headers))
  }

  lemma RequestPart(codec: Codec, inputs: seq<Input>, request: seq<Bytes>)
    requires request != [] && Carries(inputs, [RequestHeaders(false)] + RequestChunks(request))
    ensures |inputs| == |request| + 1
    ensures Run(codec, NEW, inputs) == Step(codec, inputs[|request|].env, NEW, RequestChunk(Flat(request), true))
    ensures Quiet(Run(codec, NEW, inputs))
  {
    hide Step, Quiet, Run, Flat, Carries, RequestChunks;
    RequestSplit(inputs, request);
    var x, chunks := inputs[0], inputs[1..];
    HeadersOnly(codec, x.env);
    RunConcat(codec, NEW, [x], chunks);
    RunOne(codec, NEW, x);
    RequestChunking(codec, NEW, chunks, request);
    StepQuiets(codec, inputs[|request|].env, NEW, RequestChunk(Flat(request), true));
  }

  lemma RequestSplit(inputs: seq<Input>, request: seq<Bytes>)
    requires Carries(inputs, [RequestHeaders(false)] + RequestChunks(request))
    ensures |inputs| == |request| + 1 && inputs == [inputs[0]] + inputs[1..] && inputs[0].event == RequestHeaders(false)
    ensures Carries(inputs[1..], RequestChunks(request))
  {
    hide RequestChunks;
    ChunkEvents(request, 0);
    var events := [RequestHeaders(false)] + RequestChunks(request);
    assert events[1..] == RequestChunks(request);
  }

  /** An exchange up to the response body. */
  lemma ExchangeParts(codec: Codec, inputs: seq<Input>, request: seq<Bytes>, headers: seq<(string, string)>, response: seq<Bytes>)
    requires request != [] && Carries(inputs, Exchange(request, headers, response))
    ensures |inputs| == |request| + 2 + |response|
    ensures Carries(inputs[|request| + 2..], ResponseChunks(response))
    ensures var s := Asked(codec, inputs[|request|].env, Flat(request), inputs[|request| + 1].env, headers);
            Quiet(s) && (Plain(headers) ==> !s.ctx.streaming) && Run(codec, NEW, inputs) == Run(codec, s, inputs[|request| + 2..])
  {
    hide Step, Plain, Quiet, Run, Flat, Carries, RequestChunks, ResponseChunks, Exchange;
    var r := |request|;
    ExchangeSplit(inputs, request, headers, response);
    var first, x, last := inputs[..r + 1], inputs[r + 1], inputs[r + 2..];
    RequestPart(codec, first, request);
    var s2 := Run(codec, NEW, first);
    RunConcat(codec, NEW, first, [x]);
    RunOne(codec, s2, x);
    RunConcat(codec, NEW, first + [x], last);
    StepQuiets(codec, x.env, s2, x.event);
    if Plain(headers) {
      HeadersOnly(codec, x.env);
      StepStreaming(codec, inputs[r].env, NEW, RequestChunk(Flat(request), true));
      StepStreaming(codec, x.env, s2, x.event);
    }
  }

  lemma ExchangeSplit(inputs: seq<Input>, request: seq<Bytes>, headers: seq<(string, string)>, response: seq<Bytes>)
    requires Carries(inputs, Exchange(request, headers, response))
    ensures |inputs| == |request| + 2 + |response|
    ensures inputs == inputs[..|request| + 1] + [inputs[|request| + 1]] + inputs[|request| + 2..]
    ensures Carries(inputs[..|request| + 1], [RequestHeaders(false)] + RequestChunks(request))
    ensures inputs[|request| + 1].event == ResponseHeaders(headers)
    ensures Carries(inputs[|request| + 2..], ResponseChunks(response))
  {
    hide RequestChunks, ResponseChunks, Carries;
    ChunkEvents(request, 0);
    ChunkEvents(response, 0);
    ThreeParts(inputs, [RequestHeaders(false)] + RequestChunks(request), ResponseHeaders(headers), ResponseChunks(response));
  }

  lemma ThreeParts(inputs: seq<Input>, a: seq<Event>, e: Event, b: seq<Event>)
    requires Carries(inputs, a + [e] + b)
    ensures |inputs| == |a| + 1 + |b| && inputs[|a|].event == e
    ensures inputs == inputs[..|a|] + [inputs[|a|]] + inputs[|a| + 1..]
    ensures Carries(inputs[..|a|], a) && Carries(inputs[|a| + 1..], b)
  {
    var events := a + [e] + b;
    assert events[|a|] == e;
    assert forall i :: 0 <= i < |a| ==> events[i] == a[i];
    assert forall i :: 0 <= i < |b| ==> events[|a| + 1 + i] == b[i];
  }

  /** A whole exchange ends in the same state, with the same messages sent, however its bodies are
      cut: it depends only on the bodies, on the headers, and on the environments at the end of the
      request, at the response headers and at the end of the response. */
  lemma {:induction false} ExchangeChunking(codec: Codec, inputs: seq<Input>, request: seq<Bytes>, headers: seq<(string, string)>, response: seq<Bytes>)
    requires request != [] && response != [] && Plain(headers) && Carries(inputs, Exchange(request, headers, response))
    ensures |inputs| == |request| + 2 + |response|
    ensures Run(codec, NEW, inputs) ==
            Step(codec, inputs[|inputs| - 1].env,
                 Asked(codec, inputs[|request|].env, Flat(request), inputs[|request| + 1].env, headers),
                 ResponseChunk(Flat(response), true))
  {
    hide Step, Plain, Quiet, Asked;
    ExchangeParts(codec, inputs, request, headers, response);
    ResponseChunking(codec, Asked(codec, inputs[|request|].env, Flat(request), inputs[|request| + 1].env, headers),
                     inputs[|request| + 2..], response);
  }

  // ----- the shared buffer -----

  /** What an event leaves in the buffer. */
  function BufferAfter(c: Context, e: Event): Bytes {
    match e
    case RequestChunk(chunk, eos) => if eos then [] else c.body + chunk
    case ResponseChunk(chunk, _) => if c.streaming then c.body else c.body + chunk
    case _ => c.body
  }

  lemma StepBuffer(codec: Codec, env: Env, s: Session, e: Event)
    requires Quiet(s) && s.live
    ensures Step(codec, env, s, e).ctx.body == BufferAfter(s.ctx, e)
  {
    hide Step, PlanRequest, Marshal, Unmarshal, UsageReadable, AnyEventStream, AnyErrorStatus;
    StepQuiets(codec, env, s, e);
  }

  lemma {:induction false} ChunkEvents(chunks: seq<Bytes>, i: nat)
    ensures |RequestChunks(chunks)| == |ResponseChunks(chunks)| == |chunks|
    ensures i < |chunks| ==> && RequestChunks(chunks)[i] == RequestChunk(chunks[i], i == |chunks| - 1)
                             && ResponseChunks(chunks)[i] == ResponseChunk(chunks[i], i == |chunks| - 1)
  {
    if chunks != [] { ChunkEvents(chunks[1..], if i == 0 then 0 else i - 1); }
  }

  lemma {:induction false} FlatAppend(chunks: seq<Bytes>, k: nat)
    requires k < |chunks|
    ensures Flat(chunks[..k + 1]) == Flat(chunks[..k]) + chunks[k]
  {
    if k == 0 {
      assert chunks[..1][1..] == [] && chunks[..0] == [];
    } else {
      FlatAppend(chunks[1..], k - 1);
      assert chunks[..k + 1][1..] == chunks[1..][..k] && chunks[..k][1..] == chunks[1..][..k - 1];
    }
  }

  /** The buffer holds the first chunks of one body, not a mixture. */
  predicate Pure(body: Bytes, request: seq<Bytes>, response: seq<Bytes>) {
    || (exists k :: 0 <= k <= |request| && body == Flat(request[..k]))
    || (exists k :: 0 <= k <= |response| && body == Flat(response[..k]))
  }

  lemma BufferUntouched(codec: Codec, env: Env, s: Session, e: Event)
    requires Quiet(s) && !e.RequestChunk? && !e.ResponseChunk?
    ensures Step(codec, env, s, e).ctx.body == s.ctx.body
  {
    hide Step;
    StepQuiets(codec, env, s, e);
    if s.live { StepBuffer(codec, env, s, e); }
  }

  /** All but the last chunk of a request body are buffered. */
  lemma {:induction false} RequestBuffer(codec: Codec, s: Session, inputs: seq<Input>, chunks: seq<Bytes>, k: nat)
    requires Quiet(s) && s.live && s.ctx.body == [] && k < |chunks| == |RequestChunks(chunks)|
    requires Carries(inputs, RequestChunks(chunks)[..k])
    ensures var s' := Run(codec, s, inputs); Quiet(s') && s'.live && s'.ctx.body == Flat(chunks[..k])
  {
    hide Step;
    if k > 0 {
      var before, x := inputs[..k - 1], inputs[k - 1];
      assert inputs == before + [x] && Carries(before, RequestChunks(chunks)[..k - 1]);
      RequestBuffer(codec, s, before, chunks, k - 1);
      ChunkEvents(chunks, k - 1);
      RunConcat(codec, s, before, [x]);
      RunOne(codec, Run(codec, s, before), x);
      BufferedRequestChunk(codec, x.env, Run(codec, s, before), chunks[k - 1]);
      FlatAppend(chunks, k - 1);
    }
  }

  /** The chunks of a response body are buffered up to wherever the stream ends. */
  lemma {:induction false} ResponseBuffer(codec: Codec, s: Session, inputs: seq<Input>, chunks: seq<Bytes>, k: nat)
    requires Quiet(s) && s.ctx.body == [] && k <= |chunks| == |ResponseChunks(chunks)|
    requires Carries(inputs, ResponseChunks(chunks)[..k])
    ensures var s' := Run(codec, s, inputs);
            && Quiet(s') && (exists j :: 0 <= j <= k && s'.ctx.body == Flat(chunks[..j]))
            && (s'.live && !s'.ctx.streaming ==> s'.ctx.body == Flat(chunks[..k]))
            && (s'.ctx.streaming ==> s'.ctx.body == [])
  {
    hide Step, Quiet;
    if k == 0 {
      assert s.ctx.body == Flat(chunks[..0]);
    } else {
      var before, x := inputs[..k - 1], inputs[k - 1];
      assert inputs == before + [x] && Carries(before, ResponseChunks(chunks)[..k - 1]);
      ResponseBuffer(codec, s, before, chunks, k - 1);
      ChunkEvents(chunks, k - 1);
      var s1 := Run(codec, s, before);
      RunConcat(codec, s, before, [x]);
      RunOne(codec, s1, x);
      var j :| 0 <= j <= k - 1 && s1.ctx.body == Flat(chunks[..j]);
      StepQuiets(codec, x.env, s1, x.event);
      StepStreaming(codec, x.env, s1, x.event);
      if s1.live { StepBuffer(codec, x.env, s1, x.event); }
      FlatAppend(chunks, k - 1);
    }
  }

  /** After the request is complete, and after the response headers, the buffer is empty. */
  lemma BufferBetween(codec: Codec, inputs: seq<Input>, request: seq<Bytes>, headers: seq<(string, string)>)
    requires request != [] && Carries(inputs, Exchange(request, headers, []))
    ensures |inputs| == |request| + 2
    ensures Run(codec, NEW, inputs[..|request| + 1]).ctx.body == []
    ensures Quiet(Run(codec, NEW, inputs)) && Run(codec, NEW, inputs).ctx.body == []
  {
    hide Step, Quiet;
    var r := |request|;
    ExchangeParts(codec, inputs, request, headers, []);
    ChunkEvents(request, 0);
    var asked, whole := inputs[..r + 1], RequestChunk(Flat(request), true);
    assert Carries(asked, [RequestHeaders(false)] + RequestChunks(request));
    RequestPart(codec, asked, request);
    HeadersOnly(codec, inputs[r].env);
    StepQuiets(codec, inputs[r].env, NEW, whole);
    StepBuffer(codec, inputs[r].env, NEW, whole);
    var s2 := Step(codec, inputs[r].env, NEW, whole);
    BufferUntouched(codec, inputs[r + 1].env, s2, ResponseHeaders(headers));
    assert inputs[r + 2..] == [];
  }

  /** At every point of an exchange the buffer holds the first chunks of the request body or the
      first chunks of the response body. */
  lemma {:induction false} BufferNeverMixes(codec: Codec, inputs: seq<Input>, request: seq<Bytes>, headers: seq<(string, string)>, response: seq<Bytes>)
    requires request != [] && |inputs| <= |Exchange(request, headers, response)|
    requires Carries(inputs, Exchange(request, headers, response)[..|inputs|])
    ensures Pure(Run(codec, NEW, inputs).ctx.body, request, response)
  {
    hide Step, Quiet;
    var r, n := |request|, |inputs|;
    ChunkEvents(request, 0);
    ChunkEvents(response, 0);
    assert Flat(request[..0]) == [];
    if n == 0 {
    } else if n <= r {
      EarlyBuffer(codec, inputs, request, headers, response);
    } else if n == r + 1 {
      assert Carries(inputs, [RequestHeaders(false)] + RequestChunks(request));
      RequestPart(codec, inputs, request);
      HeadersOnly(codec, inputs[r].env);
      StepBuffer(codec, inputs[r].env, NEW, RequestChunk(Flat(request), true));
    } else {
      LateSplit(inputs, request, headers, response);
      var told, last := inputs[..r + 2], inputs[r + 2..];
      BufferBetween(codec, told, request, headers);
      RunConcat(codec, NEW, told, last);
      ResponseBuffer(codec, Run(codec, NEW, told), last, response, n - r - 2);
    }
  }

  lemma LateSplit(inputs: seq<Input>, request: seq<Bytes>, headers: seq<(string, string)>, response: seq<Bytes>)
    requires |request| + 2 <= |inputs| <= |Exchange(request, headers, response)|
    requires Carries(inputs, Exchange(request, headers, response)[..|inputs|])
    ensures |ResponseChunks(response)| == |response| && |inputs| <= |request| + 2 + |response|
    ensures var r := |request|;
            && inputs == inputs[..r + 2] + inputs[r + 2..] && Carries(inputs[..r + 2], Exchange(request, headers, []))
            && Carries(inputs[r + 2..], ResponseChunks(response)[..|inputs| - r - 2])
  {
    hide RequestChunks, ResponseChunks, Flat, Carries;
    ChunkEvents(request, 0);
    ChunkEvents(response, 0);
    ChunkEvents([], 0);
    var told := [RequestHeaders(false)] + RequestChunks(request) + [ResponseHeaders(headers)];
    assert Exchange(request, headers, []) == told;
    TwoParts(inputs, told, ResponseChunks(response));
  }

  lemma TwoParts(inputs: seq<Input>, a: seq<Event>, b: seq<Event>)
    requires |a| <= |inputs| <= |a| + |b| && Carries(inputs, (a + b)[..|inputs|])
    ensures inputs == inputs[..|a|] + inputs[|a|..]
    ensures Carries(inputs[..|a|], a) && Carries(inputs[|a|..], b[..|inputs| - |a|])
  {
    var events := (a + b)[..|inputs|];
    assert forall i :: 0 <= i < |a| ==> events[i] == a[i];
    assert forall i :: 0 <= i < |inputs| - |a| ==> events[|a| + i] == b[i];
  }

  lemma EarlyBuffer(codec: Codec, inputs: seq<Input>, request: seq<Bytes>, headers: seq<(string, string)>, response: seq<Bytes>)
    requires 1 <= |inputs| <= |request| && |inputs| <= |Exchange(request, headers, response)|
    requires Carries(inputs, Exchange(request, headers, response)[..|inputs|])
    ensures Run(codec, NEW, inputs).ctx.body == Flat(request[..|inputs| - 1])
  {
    hide Step, Quiet, RequestChunks, ResponseChunks, Flat, Run;
    ChunkEvents(request, 0);
    var n, x, chunks := |inputs|, inputs[0], inputs[1..];
    var events := Exchange(request, headers, response)[..n];
    assert inputs == [x] + chunks && x.event == events[0] == RequestHeaders(false);
    assert events[1..] == RequestChunks(request)[..n - 1];
    assert forall i :: 0 <= i < |chunks| ==> chunks[i] == inputs[i + 1] && events[1..][i] == events[i + 1];
    assert Carries(chunks, RequestChunks(request)[..n - 1]);
    HeadersOnly(codec, x.env);
    RunConcat(codec, NEW, [x], chunks);
    RunOne(codec, NEW, x);
    NewIsLive();
    RequestBuffer(codec, NEW, chunks, request, n - 1);
  }

  lemma NewIsLive()
    ensures Quiet(NEW) && NEW.live && NEW.ctx.body == []
  {
  }

  lemma HeadersOnly(codec: Codec, env: Env)
    ensures var s := Step(codec, env, NEW, RequestHeaders(false)); s == NEW && Quiet(s)
  {
    QuietUpdate(env, NEW);
  }
}
