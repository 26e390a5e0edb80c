/** Every message that is sent for a request, for its response, and for a whole exchange. */
module StreamingBodies {
  import opened Wrappers
  import opened Json
  import opened Streaming
  import opened StreamingChunks
  import opened StreamingLengths

  // ----- the decision on a request -----

  /** The model a body asks for. */
  function AskedFor(d: Decoded): Option<string> {
    if d.Document? && "model" in d.fields && d.fields["model"].Str? then Some(d.fields["model"].s) else None
  }

  predicate Configured(env: Env, model: string) {
    env.lookup(model).Some? && (env.lookup(model).value.hasTargets ==> env.draw(model) != "")
  }

  /** The model a request is sent to: the drawn target if the model has targets, else the model itself. */
  function TargetOf(env: Env, model: string): string
    requires env.lookup(model).Some?
  {
    if env.lookup(model).value.hasTargets then env.draw(model) else model
  }

  /** The received document with only "model" replaced. */
  function Sent(env: Env, d: Decoded): Object
    requires AskedFor(d).Some? && env.lookup(AskedFor(d).value).Some?
  {
    d.fields["model" := Str(TargetOf(env, AskedFor(d).value))]
  }

  /** The body that is forwarded. */
  function Forwarded(codec: Codec, env: Env, d: Decoded): Option<Bytes>
    requires AskedFor(d).Some? && env.lookup(AskedFor(d).value).Some?
  {
    codec.encode(Sent(env, d))
  }

  function Picked(env: Env, model: string): Option<string>
    requires env.lookup(model).Some?
  {
    env.schedule(model, TargetOf(env, model), env.lookup(model).value.critical)
  }

  /** The worker the front end names for the forwarded document. */
  function Worker(env: Env, d: Decoded): string
    requires AskedFor(d).Some? && env.lookup(AskedFor(d).value).Some?
  {
    var answer := env.worker(FrontEndBody(Sent(env, d)));
    if answer.Some? then answer.value else ""
  }

  lemma RewriteIsUpdate(env: Env, obj: Object)
    requires "model" in obj && obj["model"].Str? && env.lookup(obj["model"].s).Some?
    ensures Rewritten(env, obj["model"].s, obj) == obj["model" := Str(TargetOf(env, obj["model"].s))]
  {
    assert obj["model" := Str(obj["model"].s)] == obj;
  }

  /** The plan for a decoded request, and the worker id that is kept if the front end names none. */
  lemma PlanTable(codec: Codec, env: Env, d: Decoded, worker: string)
    requires !d.Invalid?
    ensures var request := if d.Document? then Some(d.fields) else None;
            var p, asked := PlanRequest(codec, env, request, worker), AskedFor(d);
            if asked.None? then p.Reject? && p.code.BadRequest? && p.request == request && p.worker == worker
            else if !Configured(env, asked.value) then p.Reject? && p.code.BadConfiguration? && p.request == request && p.worker == worker
            else
              var encoded, pod, named := Forwarded(codec, env, d), Picked(env, asked.value), Worker(env, d);
              if encoded.None? then p.Reject? && p.code.InternalError? && p.request == Some(Sent(env, d)) && p.worker == worker
              else
                && p.request == Some(AfterFrontEnd(Sent(env, d))) && p.worker == (if named != "" then named else worker)
                && if pod.None? then p.Reject? && p.code.ResourceExhausted?
                   else if env.port.None? then p.Reject? && p.code.Unknown?
                   else
                     && p.Route? && p.model == asked.value && p.target == TargetOf(env, asked.value)
                     && p.endpoint == pod.value + ":" + env.port.value && encoded == Some(p.bytes)
  {
    hide FrontEndBody, AfterFrontEnd, Rewritten;
    if AskedFor(d).Some? && env.lookup(AskedFor(d).value).Some? { RewriteIsUpdate(env, d.fields); }
  }

  /** A body that is not JSON leaves what was decoded before, `null` forgets it, and a document replaces
      the entries it mentions and keeps the others. */
  lemma {:induction false} BodiesMerge(codec: Codec, prev: Option<Object>, body: Bytes, k: string)
    ensures var now, d := Unmarshal(codec, prev, body), codec.decode(body);
            && (d.Invalid? ==> now == prev) && (d.NullDocument? ==> now.None?)
            && (d.Document? ==>
                  && now.Some?
                  && (k in now.value <==> k in d.fields || (prev.Some? && k in prev.value))
                  && (k in now.value ==> now.value[k] == if k in d.fields then d.fields[k] else prev.value[k]))
  {
    var d := codec.decode(body);
    if d.Document? { assert map[] + d.fields == d.fields; }
  }

  /** The plan for a first body. */
  lemma FirstPlan(codec: Codec, env: Env, body: Bytes)
    ensures var p, d := PlanRequest(codec, env, Unmarshal(codec, None, body), ""), codec.decode(body);
            var asked := AskedFor(d);
            if asked.None? then p.Reject? && p.code.BadRequest?
            else if !Configured(env, asked.value) then p.Reject? && p.code.BadConfiguration?
            else
              var encoded, pod := Forwarded(codec, env, d), Picked(env, asked.value);
              if encoded.None? then p.Reject? && p.code.InternalError?
              else if pod.None? then p.Reject? && p.code.ResourceExhausted?
              else if env.port.None? then p.Reject? && p.code.Unknown?
              else
                && p.Route? && p.model == asked.value && p.endpoint == pod.value + ":" + env.port.value
                && encoded == Some(p.bytes) && p.worker == Worker(env, d)
  {
    hide PlanRequest, Forwarded, Picked, Worker, Sent, AfterFrontEnd;
    var d := codec.decode(body);
    if d.Document? { assert map[] + d.fields == d.fields; }
    PlanTable(codec, env, if d.Invalid? then NullDocument else d, "");
  }

  // ----- the answer to a request -----

  /** What a stream answers to a first request body. */
  function Answer(codec: Codec, env: Env, body: Bytes): seq<Msg> {
    match PlanRequest(codec, env, Unmarshal(codec, None, body), "")
    case Reject(code, _, _) => if Status(code).Some? then [Immediate(Status(code).value)] else []
    case Route(_, _, endpoint, bytes, _, worker) =>
      [RequestHeader(endpoint, LengthHeader(bytes), worker), RequestBody(bytes, true)]
  }

  /** The model under which the request is counted, if it is routed. */
  function Label(codec: Codec, env: Env, body: Bytes): string {
    match PlanRequest(codec, env, Unmarshal(codec, None, body), "")
    case Reject(_, _, _) => ""
    case Route(model, _, _, _, _, _) => model
  }

  lemma DeliveredUpToTwo(env: Env, h: Msg, b: Msg)
    ensures Delivered(0, [env, env], []) == []
    ensures Delivered(0, [env, env], [h]) == if env.sends(0) then [h] else []
    ensures Delivered(0, [env, env], [h, b]) == if !env.sends(0) then [] else if env.sends(1) then [h, b] else [h]
  {
    assert [h][1..] == [] && [h, b][1..] == [b] && [env, env][1..] == [env] && [b][1..] == [];
    assert Delivered(1, [env], [b]) == (if env.sends(1) then [b] + [] else []);
    assert [h] + [b] == [h, b] && [h] + [] == [h];
  }

  /** After its answer the stream goes on only if the request was routed and all of it was sent. */
  lemma AnswerStep(codec: Codec, env: Env, body: Bytes)
    ensures var s, answer := Step(codec, env, NEW, RequestChunk(body, true)), Answer(codec, env, body);
            && s.sent == Delivered(0, [env, env], answer)
            && (s.live <==> |answer| == 2 && |s.sent| == 2)
            && (s.gauge == if s.live && Label(codec, env, body) != "" then [Inc(Label(codec, env, body))] else [])
            && (s.live ==> && s.stage.BodyRequestResponsesComplete? && s.pending.respHeader.None? && s.pending.respBody.None?
                           && s.ctx.response.None? && s.ctx.body == [] && !s.ctx.streaming)
  {
    hide PlanRequest, Unmarshal, Delivered;
    assert NEW.ctx.body + body == body;
    var h := Handle(codec, env, NEW, RequestChunk(body, true));
    if h.Good? {
      var s1 := SendRequestHeader(env, h.s);
      var s2 := SendRequestBody(env, s1);
      DeliveredUpToTwo(env, h.s.pending.reqHeader.value, h.s.pending.reqBody.value);
      assert s2.sent == Delivered(0, [env, env], Answer(codec, env, body));
      assert SendRequestTrailer(env, s2) == s2 && SendResponseHeader(env, s2) == s2 && SendResponseBody(env, s2) == s2;
    } else {
      DeliveredUpToTwo(env, Immediate(if Status(h.code).Some? then Status(h.code).value else 0), ResponseHeader);
    }
  }

  /** A request in chunks, and the environment that decides on it. */
  ghost predicate IsRequest(inputs: seq<Input>, chunks: seq<Bytes>) {
    chunks != [] && Carries(inputs, [RequestHeaders(false)] + RequestChunks(chunks))
  }

  lemma {:induction false} RequestAnswered(codec: Codec, inputs: seq<Input>, chunks: seq<Bytes>)
    requires IsRequest(inputs, chunks)
    ensures |inputs| == |chunks| + 1
    ensures var env, answer := inputs[|chunks|].env, Answer(codec, inputs[|chunks|].env, Flat(chunks));
            && Run(codec, NEW, inputs).sent == Delivered(0, [env, env], answer)
            && Run(codec, NEW, inputs).gauge ==
               if |answer| == 2 && |Delivered(0, [env, env], answer)| == 2 && Label(codec, env, Flat(chunks)) != ""
               then [Inc(Label(codec, env, Flat(chunks)))] else []
  {
    hide Step, Delivered, Answer, Label;
    RequestPart(codec, inputs, chunks);
    AnswerStep(codec, inputs[|chunks|].env, Flat(chunks));
  }

  /** A request body is forwarded after a header with its length, the picked pod and the front end's
      worker; it is the encoding of the received document with only "model" replaced by the drawn
      target, if there are targets; and it is counted under the model that was asked for. */
  lemma {:induction false} ForwardedBody(codec: Codec, inputs: seq<Input>, chunks: seq<Bytes>, i: nat)
    requires IsRequest(inputs, chunks) && i < |Run(codec, NEW, inputs).sent| && Run(codec, NEW, inputs).sent[i].RequestBody?
    ensures |inputs| == |chunks| + 1
    ensures var s, env, d := Run(codec, NEW, inputs), inputs[|chunks|].env, codec.decode(Flat(chunks));
            var log, asked := s.sent, AskedFor(d);
            && i == 1 && |log| == 2 && asked.Some? && env.lookup(asked.value).Some?
            && log[1].eos && Some(log[1].body) ==
               codec.encode(d.fields["model" := Str(if env.lookup(asked.value).value.hasTargets then env.draw(asked.value) else asked.value)])
            && log[0].RequestHeader? && log[0].contentLength == LengthHeader(log[1].body) && log[0].worker == Worker(env, d)
            && Picked(env, asked.value).Some? && env.port.Some?
            && log[0].endpoint == Picked(env, asked.value).value + ":" + env.port.value
            && s.gauge == if asked.value == "" then [] else [Inc(asked.value)]
  {
    hide Run, Flat, Carries, PlanRequest, Picked, Worker, Delivered, AskedFor;
    RequestAnswered(codec, inputs, chunks);
    var env := inputs[|chunks|].env;
    FirstPlan(codec, env, Flat(chunks));
    var answer := Answer(codec, env, Flat(chunks));
    DeliveredUpToTwo(env, if |answer| > 0 then answer[0] else ResponseHeader, if |answer| > 1 then answer[1] else ResponseHeader);
  }

  /** Which answer a request gets, from its body and the environment at its end: 400 without a model
      name, 404 for one that is not configured, 500 if it cannot be encoded, 429 without a pod,
      and else the request header; nothing at all only if a send fails or the pool has no port. */
  lemma {:induction false} AnswerTable(codec: Codec, inputs: seq<Input>, chunks: seq<Bytes>)
    requires IsRequest(inputs, chunks)
    ensures |inputs| == |chunks| + 1
    ensures var log, env, d := Run(codec, NEW, inputs).sent, inputs[|chunks|].env, codec.decode(Flat(chunks));
            var asked := AskedFor(d);
            var known := asked.Some? && Configured(env, asked.value);
            && (log == [Immediate(400)] <==> env.sends(0) && asked.None?)
            && (log == [Immediate(404)] <==> env.sends(0) && asked.Some? && !known)
            && (log == [Immediate(500)] <==> env.sends(0) && known && Forwarded(codec, env, d).None?)
            && (log == [Immediate(429)] <==> env.sends(0) && known && Forwarded(codec, env, d).Some? && Picked(env, asked.value).None?)
            && (log != [] && log[0].RequestHeader? <==>
                env.sends(0) && known && Forwarded(codec, env, d).Some? && Picked(env, asked.value).Some? && env.port.Some?)
            && (log == [] <==> !env.sends(0) || (known && Forwarded(codec, env, d).Some? && Picked(env, asked.value).Some? && env.port.None?))
            && (|log| == 2 <==> log != [] && log[0].RequestHeader? && env.sends(1))
  {
    hide Run, Flat, Carries, PlanRequest, Forwarded, Picked, Worker, Delivered, AskedFor, Configured;
    RequestAnswered(codec, inputs, chunks);
    var env := inputs[|chunks|].env;
    FirstPlan(codec, env, Flat(chunks));
    var answer := Answer(codec, env, Flat(chunks));
    DeliveredUpToTwo(env, if |answer| > 0 then answer[0] else ResponseHeader, if |answer| > 1 then answer[1] else ResponseHeader);
  }

  // ----- a request without a body -----

  /** Headers without a body are answered with a random pod at the pool's port, and nothing else. */
  lemma {:induction false} BodilessAnswered(codec: Codec, env: Env)
    ensures Run(codec, NEW, [Input(env, RequestHeaders(true))]).sent ==
            if env.randomPod.Some? && env.port.Some? && env.sends(0)
            then [RequestHeader(env.randomPod.value + ":" + env.port.value, None, "")] else []
  {
    RunOne(codec, NEW, Input(env, RequestHeaders(true)));
    var h := Handle(codec, env, NEW, RequestHeaders(true));
    if h.Good? {
      var s2 := SendRequestBody(env, SendRequestHeader(env, h.s));
      assert SendRequestTrailer(env, s2) == s2 && SendResponseHeader(env, s2) == s2 && SendResponseBody(env, s2) == s2;
    }
  }

  // ----- the response that is passed back -----

  /** The first complete response body: not passed through, but decoded and encoded again; if it
      is not a JSON object, the encoding of a nil map takes its place. */
  function Echo(codec: Codec, body: Bytes): Option<Bytes> {
    match codec.decode(body)
    case Invalid => Some(codec.nil)
    case NullDocument => Some(codec.nil)
    case Document(fields) => codec.encode(fields)
  }

  /** A usage block that is present and not null is an object with the three token counts as numbers. */
  predicate UsageFits(codec: Codec, body: Bytes) {
    var d := codec.decode(body);
    d.Document? && "usage" in d.fields && !d.fields["usage"].Null? ==>
      && d.fields["usage"].Obj?
      && var usage := d.fields["usage"].fields;
         && "prompt_tokens" in usage && usage["prompt_tokens"].Num?
         && "completion_tokens" in usage && usage["completion_tokens"].Num?
         && "total_tokens" in usage && usage["total_tokens"].Num?
  }

  /** Nothing is sent for a body that cannot be encoded, or whose usage block cannot be read. */
  function Echoed(codec: Codec, body: Bytes): seq<Msg> {
    if Echo(codec, body).Some? && UsageFits(codec, body) then [ResponseBody(Echo(codec, body).value, true)] else []
  }

  /** The stream waits for a first response body that is not an event stream. */
  predicate Awaiting(s: Session) {
    && Quiet(s) && s.live && s.stage.HeaderResponseResponseComplete?
    && !s.ctx.streaming && s.ctx.body == [] && s.ctx.response.None?
  }

  lemma EchoIsMarshal(codec: Codec, body: Bytes)
    ensures Marshal(codec, Unmarshal(codec, None, body)) == Echo(codec, body)
    ensures UsageReadable(Unmarshal(codec, None, body)) <==> UsageFits(codec, body)
  {
    var d := codec.decode(body);
    if d.Document? { assert map[] + d.fields == d.fields; }
  }

  lemma DeliveredOne(n: nat, env: Env, m: Msg)
    ensures Delivered(n, [env], [m]) == (if env.sends(n) then [m] else []) && Delivered(n, [env], []) == []
  {
    assert [m][1..] == [];
  }

  lemma EchoStep(codec: Codec, env: Env, s: Session, body: Bytes)
    requires Awaiting(s)
    ensures Step(codec, env, s, ResponseChunk(body, true)).sent == s.sent + Delivered(|s.sent|, [env], Echoed(codec, body))
  {
    hide UsageReadable, UsageFits, Marshal, Unmarshal, Delivered;
    assert s.ctx.body + body == body;
    EchoIsMarshal(codec, body);
    DeliveredOne(|s.sent|, env, ResponseBody(if Echo(codec, body).Some? then Echo(codec, body).value else [], true));
    var s' := Handle(codec, env, s, ResponseChunk(body, true)).s;
    assert SendRequestTrailer(env, SendRequestBody(env, SendRequestHeader(env, s'))) == s';
    assert SendResponseHeader(env, s') == s';
    assert s.sent + [] == s.sent;
  }

  lemma {:induction false} ResponseEchoed(codec: Codec, s: Session, inputs: seq<Input>, chunks: seq<Bytes>)
    requires Awaiting(s) && chunks != [] && Carries(inputs, ResponseChunks(chunks))
    ensures inputs != []
    ensures Run(codec, s, inputs).sent
            == s.sent + Delivered(|s.sent|, [inputs[|inputs| - 1].env], Echoed(codec, Flat(chunks)))
  {
    hide Step, Delivered, Echoed;
    ResponseChunking(codec, s, inputs, chunks);
    EchoStep(codec, inputs[|inputs| - 1].env, s, Flat(chunks));
  }

  /** A response body that is not an event stream reaches the client unchanged exactly when it is its
      own re-encoding, its usage block can be read and the send works; a body that is not a JSON
      object is replaced unless it reads `null`. */
  lemma {:induction false} PassedThroughIff(codec: Codec, s: Session, inputs: seq<Input>, chunks: seq<Bytes>)
    requires Awaiting(s) && chunks != [] && Carries(inputs, ResponseChunks(chunks))
    ensures inputs != []
    ensures var body := Flat(chunks);
            Run(codec, s, inputs).sent == s.sent + [ResponseBody(body, true)]
            <==> && inputs[|inputs| - 1].env.sends(|s.sent|) && UsageFits(codec, body)
                 && match codec.decode(body)
                    case Document(fields) => codec.encode(fields) == Some(body)
                    case _ => body == codec.nil
  {
    hide Run, Awaiting, UsageFits, Carries, Delivered;
    ResponseEchoed(codec, s, inputs, chunks);
    var body, env := Flat(chunks), inputs[|inputs| - 1].env;
    var m := ResponseBody(if Echo(codec, body).Some? then Echo(codec, body).value else [], true);
    DeliveredOne(|s.sent|, env, m);
    assert (s.sent + [m])[|s.sent|] == m && (s.sent + [ResponseBody(body, true)])[|s.sent|] == ResponseBody(body, true);
    assert |s.sent + []| != |s.sent + [ResponseBody(body, true)]|;
  }

  // ----- whole exchanges -----

  /** The response side of an exchange: an event stream chunk by chunk, any other body re-encoded. */
  function Reply(codec: Codec, headers: seq<(string, string)>, response: seq<Bytes>): seq<Msg> {
    if response == [] then []
    else if Plain(headers) then Echoed(codec, Flat(response)) else Relayed(response)
  }

  /** The environments in which it is sent. */
  function Repliers(headers: seq<(string, string)>, inputs: seq<Input>): seq<Env> {
    if inputs != [] && Plain(headers) then [inputs[|inputs| - 1].env] else Envs(inputs)
  }

  lemma HeadersStep(codec: Codec, env: Env, s: Session, headers: seq<(string, string)>)
    requires Quiet(s) && s.live && s.stage.BodyRequestResponsesComplete? && s.pending.respBody.None?
    ensures var s' := Step(codec, env, s, ResponseHeaders(headers));
            if env.sends(|s.sent|) then
              && s'.live && s'.sent == s.sent + [ResponseHeader] && s'.stage.HeaderResponseResponseComplete?
              && s'.ctx.streaming == (s.ctx.streaming || !Plain(headers))
              && s'.ctx.body == s.ctx.body && s'.ctx.response == s.ctx.response
            else !s'.live && s'.sent == s.sent
  {
    hide AnyErrorStatus, AnyEventStream;
    var s' := HandleResponseHeaders(s, headers);
    assert SendRequestTrailer(env, SendRequestBody(env, SendRequestHeader(env, s'))) == s';
    var s2 := SendResponseHeader(env, s');
    assert SendResponseBody(env, s2) == s2;
  }

  lemma {:induction false} DeliveredConcat(n: nat, envs: seq<Env>, a: seq<Msg>, envs': seq<Env>, b: seq<Msg>)
    requires |envs| == |a|
    ensures Delivered(n, envs + envs', a + b)
            == if |Delivered(n, envs, a)| == |a| then a + Delivered(n + |a|, envs', b) else Delivered(n, envs, a)
    decreases |a|
  {
    if a == [] {
      assert envs + envs' == envs' && a + b == b;
    } else {
      assert (envs + envs')[1..] == envs[1..] + envs' && (a + b)[1..] == a[1..] + b;
      DeliveredConcat(n + 1, envs[1..], a[1..], envs', b);
    }
  }

  lemma {:induction false} DeliveredPrefix(n: nat, envs: seq<Env>, log: seq<Msg>)
    ensures Delivered(n, envs, log) <= log
    decreases |log|
  {
    if log != [] && envs != [] { DeliveredPrefix(n + 1, envs[1..], log[1..]); }
  }

  lemma ReplySent(codec: Codec, s: Session, inputs: seq<Input>, headers: seq<(string, string)>, response: seq<Bytes>)
    requires Quiet(s) && s.live && s.stage.HeaderResponseResponseComplete? && s.ctx.body == [] && s.ctx.response.None?
    requires s.ctx.streaming == !Plain(headers) && Carries(inputs, ResponseChunks(response))
    ensures Run(codec, s, inputs).sent == s.sent + Delivered(|s.sent|, Repliers(headers, inputs), Reply(codec, headers, response))
  {
    hide Run, Quiet, Delivered, Echoed;
    if response == [] {
      NothingRelayed(codec, s, inputs);
    } else if Plain(headers) {
      ResponseEchoed(codec, s, inputs, response);
    } else {
      EventStreamRelay(codec, s, inputs, response);
    }
  }

  /** The stream after the response headers. */
  lemma AskedSent(codec: Codec, asking: Env, body: Bytes, telling: Env, headers: seq<(string, string)>)
    ensures var s, answer := Asked(codec, asking, body, telling, headers), Answer(codec, asking, body);
            && Quiet(s) && |answer| <= 2
            && s.sent == (if |answer| < 2 then Delivered(0, [asking, asking], answer)
                          else Delivered(0, [asking, asking, telling], answer + [ResponseHeader]))
            && (s.live <==> |answer| == 2 && s.sent == answer + [ResponseHeader])
            && (s.live ==> && s.stage.HeaderResponseResponseComplete? && s.ctx.body == [] && s.ctx.response.None?
                           && s.ctx.streaming == !Plain(headers))
  {
    hide Step, Delivered, Answer, Plain, Quiet;
    var answer, s := Answer(codec, asking, body), Step(codec, asking, NEW, RequestChunk(body, true));
    AnswerStep(codec, asking, body);
    AnswerLength(codec, asking, body);
    DeliveredPrefix(0, [asking, asking], answer);
    HeadersOnly(codec, asking);
    StepQuiets(codec, asking, NEW, RequestChunk(body, true));
    StepQuiets(codec, telling, s, ResponseHeaders(headers));
    if |answer| == 2 { ThirdDelivered(asking, telling, answer); }
    if s.live { HeadersStep(codec, telling, s, headers); }
  }

  lemma ThirdDelivered(asking: Env, telling: Env, answer: seq<Msg>)
    requires |answer| == 2
    ensures Delivered(0, [asking, asking, telling], answer + [ResponseHeader])
            == if |Delivered(0, [asking, asking], answer)| < 2 then Delivered(0, [asking, asking], answer)
               else if telling.sends(2) then answer + [ResponseHeader] else answer
  {
    hide Delivered;
    DeliveredPrefix(0, [asking, asking], answer);
    DeliveredConcat(0, [asking, asking], answer, [telling], [ResponseHeader]);
    assert [asking, asking] + [telling] == [asking, asking, telling];
    DeliveredOne(2, telling, ResponseHeader);
    assert answer + [] == answer;
  }

  /** Every message of a whole exchange, in order.  A request that is not routed gets its status and
      nothing else.  Else the stream sends the request header, the forwarded body, the response
      header and the reply, up to the first send that fails. */
  lemma {:induction false} ExchangeSent(codec: Codec, inputs: seq<Input>, request: seq<Bytes>, headers: seq<(string, string)>, response: seq<Bytes>)
    requires request != [] && Carries(inputs, Exchange(request, headers, response))
    ensures |inputs| == |request| + 2 + |response|
    ensures var asking, telling, rest := inputs[|request|].env, inputs[|request| + 1].env, inputs[|request| + 2..];
            var answer := Answer(codec, asking, Flat(request));
            Run(codec, NEW, inputs).sent ==
            if |answer| < 2 then Delivered(0, [asking, asking], answer)
            else Delivered(0, [asking, asking, telling] + Repliers(headers, rest),
                           answer + [ResponseHeader] + Reply(codec, headers, response))
  {
    hide Asked, Delivered, Answer, Quiet, Run, Reply, Repliers, Plain, Carries, Flat, Exchange;
    ExchangeParts(codec, inputs, request, headers, response);
    var asking, telling, rest := inputs[|request|].env, inputs[|request| + 1].env, inputs[|request| + 2..];
    var answer := Answer(codec, asking, Flat(request));
    var s := Asked(codec, asking, Flat(request), telling, headers);
    AskedSent(codec, asking, Flat(request), telling, headers);
    if |answer| == 2 {
      DeliveredPrefix(0, [asking, asking, telling], answer + [ResponseHeader]);
      DeliveredConcat(0, [asking, asking, telling], answer + [ResponseHeader], Repliers(headers, rest), Reply(codec, headers, response));
    }
    if s.live { ReplySent(codec, s, rest, headers, response); } else { DeadRun(codec, s, rest); }
  }

  lemma AnswerLength(codec: Codec, env: Env, body: Bytes)
    ensures |Answer(codec, env, body)| <= 2
  {
    hide PlanRequest;
  }
}
