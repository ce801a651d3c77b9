/**
 * `OpenAIChatDecoder`: the checks and routing of `codegen`, the parameters
 * `_codegen_api_batch` assembles for one batched request, and the fan-out of
 * single-sample requests for models that cannot sample a batch.
 *
 * Every call the decoder makes to `make_auto_request` is given its own
 * finite run of transport answers: `traces[k]` for the k-th call, and no
 * answer at all when `traces` is shorter.
 */
module OpenAIProvider {
  import opened Values
  import opened Chat
  import opened OpenAIRequest

  /** The decoder's configuration, fixed at construction. `extraBody` and
      `extraHeaders` are the parsed JSON objects (empty when not given). */
  datatype Decoder = Decoder(
    name: string,
    batchSize: int,
    temperature: real,
    maxNewTokens: int,
    instructionPrefix: Option<string>,
    topP: Option<real>,
    topK: Option<int>,
    presencePenalty: Option<real>,
    repetitionPenalty: Option<real>,
    maxOutputTokens: Option<int>,
    extraBody: map<string, Value>,
    extraHeaders: map<string, Value>)

  /** The errors `codegen` lets escape: the failed temperature assertion, the
      concatenation with an unset instruction prefix, and taking the first
      output of an empty batch. */
  datatype Error = NonPositiveTemperature | MissingInstructionPrefix | EmptyBatch

  /** What `codegen` ends in: the outputs, an error, or a call still retrying
      when its answers run out. */
  datatype Generation = Done(texts: seq<Option<string>>) | Aborted(error: Error) | Retrying

  function Min(a: int, b: int): int
  {
    if b < a then b else a
  }

  /** Models served one sample per request. */
  predicate UsesFanOut(name: string)
  {
    StartsWith(name, "o1-") || name == "deepseek-chat"
  }

  /** The user message: the instruction prefix, then the stripped prompt in a
      Python code fence. */
  function WrapPrompt(prefix: string, prompt: string): string
  {
    prefix + "\n```python\n" + Strip(prompt) + "\n```"
  }

  /** The route `codegen` takes: `count` single-sample calls, or one call for
      `n` samples, both with the wrapped prompt. */
  datatype Plan = FanOut(prompt: string, count: int) | Batched(prompt: string, n: int)

  datatype PlanResult = Planned(plan: Plan) | Refused(error: Error)

  /** The checks and the routing of `codegen`, before any request is built. */
  function PlanOf(d: Decoder, prompt: string, doSample: bool, numSamples: int): (r: PlanResult)
    ensures doSample && d.temperature <= 0.0 ==> r == Refused(NonPositiveTemperature)
    ensures r.Planned? <==> (!doSample || d.temperature > 0.0) && d.instructionPrefix.Some?
    ensures r.Planned? ==> r.plan.prompt == WrapPrompt(d.instructionPrefix.value, prompt)
    ensures r.Planned? ==> (r.plan.FanOut? <==> UsesFanOut(d.name))
    ensures r.Planned? && r.plan.FanOut? ==> r.plan.count == numSamples
    ensures r.Planned? && r.plan.Batched? ==>
      && r.plan.n <= d.batchSize && r.plan.n <= numSamples
      && (r.plan.n == d.batchSize || r.plan.n == numSamples)
  {
    if doSample && d.temperature <= 0.0 then Refused(NonPositiveTemperature)
    else
      var batchSize := Min(d.batchSize, numSamples);
      if d.instructionPrefix.None? then Refused(MissingInstructionPrefix)
      else
        var wrapped := WrapPrompt(d.instructionPrefix.value, prompt);
        if UsesFanOut(d.name) then Planned(FanOut(wrapped, numSamples))
        else Planned(Batched(wrapped, batchSize))
  }

  /** The fenced block holds the prompt without its leading and trailing
      whitespace, and nothing but whitespace was dropped. */
  lemma PromptWrapsStrippedCode(prefix: string, prompt: string)
    ensures var w := WrapPrompt(prefix, prompt);
      var lead := LeadingSpaces(prompt);
      var body := Strip(prompt);
      && w == prefix + "\n```python\n" + prompt[lead..lead + |body|] + "\n```"
      && (forall j :: 0 <= j < lead ==> IsSpace(prompt[j]))
      && (forall j :: lead + |body| <= j < |prompt| ==> IsSpace(prompt[j]))
  {
  }

  // ---------------------------------------------------------------------
  // The parameters of one batched request

  /** The provider-specific body: the configured one, with `top_k` and
      `repetition_penalty` inserted when they are set. */
  function ExtraBody(d: Decoder): map<string, Value>
  {
    var body := d.extraBody;
    var body := if d.topK.Some? then body["top_k" := Int(d.topK.value)] else body;
    if d.repetitionPenalty.Some? then body["repetition_penalty" := Num(d.repetitionPenalty.value)] else body
  }

  /** The top-level knobs among the extra keyword arguments. */
  function Knobs(d: Decoder): map<string, Value>
  {
    var p: map<string, Value> := map[];
    var p := if d.topP.Some? then p["top_p" := Num(d.topP.value)] else p;
    var p := if d.presencePenalty.Some? then p["presence_penalty" := Num(d.presencePenalty.value)] else p;
    if d.maxOutputTokens.Some? then p["max_completion_tokens" := Int(d.maxOutputTokens.value)] else p
  }

  /** The extra keyword arguments for `make_auto_request`: the knobs, then
      the body and the headers when they are not empty. */
  function ExtraParams(d: Decoder): map<string, Value>
  {
    var p := Knobs(d);
    var p := if ExtraBody(d) != map[] then p["extra_body" := Obj(ExtraBody(d))] else p;
    if d.extraHeaders != map[] then p["extra_headers" := Obj(d.extraHeaders)] else p
  }

  /** The body carries `top_k` and `repetition_penalty` exactly when they are
      set or already in the configured body, a set knob wins over the
      configured value, and every other configured key is kept. */
  lemma ExtraBodyKeys(d: Decoder)
    ensures d.topK.Some? ==> "top_k" in ExtraBody(d) && ExtraBody(d)["top_k"] == Int(d.topK.value)
    ensures d.repetitionPenalty.Some? ==>
      "repetition_penalty" in ExtraBody(d) && ExtraBody(d)["repetition_penalty"] == Num(d.repetitionPenalty.value)
    ensures forall k :: k in ExtraBody(d) <==>
      (k in d.extraBody || (k == "top_k" && d.topK.Some?) || (k == "repetition_penalty" && d.repetitionPenalty.Some?))
    ensures forall k ::
      (k in d.extraBody && !(k == "top_k" && d.topK.Some?) && !(k == "repetition_penalty" && d.repetitionPenalty.Some?))
      ==> ExtraBody(d)[k] == d.extraBody[k]
  {
  }

  /** `top_p`, `presence_penalty` and `max_completion_tokens` are present
      exactly when configured, with the configured value; `extra_body` and
      `extra_headers` exactly when non-empty; there is no other key, so
      `top_k` and `repetition_penalty` never reach the top level. */
  lemma ExtraParamsKeys(d: Decoder)
    ensures ("top_p" in ExtraParams(d) <==> d.topP.Some?)
      && (d.topP.Some? ==> ExtraParams(d)["top_p"] == Num(d.topP.value))
    ensures ("presence_penalty" in ExtraParams(d) <==> d.presencePenalty.Some?)
      && (d.presencePenalty.Some? ==> ExtraParams(d)["presence_penalty"] == Num(d.presencePenalty.value))
    ensures ("max_completion_tokens" in ExtraParams(d) <==> d.maxOutputTokens.Some?)
      && (d.maxOutputTokens.Some? ==> ExtraParams(d)["max_completion_tokens"] == Int(d.maxOutputTokens.value))
    ensures ("extra_body" in ExtraParams(d) <==> ExtraBody(d) != map[])
      && (ExtraBody(d) != map[] ==> ExtraParams(d)["extra_body"] == Obj(ExtraBody(d)))
    ensures ("extra_headers" in ExtraParams(d) <==> d.extraHeaders != map[])
      && (d.extraHeaders != map[] ==> ExtraParams(d)["extra_headers"] == Obj(d.extraHeaders))
    ensures ExtraParams(d).Keys <= {"top_p", "presence_penalty", "max_completion_tokens", "extra_body", "extra_headers"}
  {
  }

  /** The request one batched call sends on each of its attempts. */
  function BatchRequest(d: Decoder, prompt: string, n: int): Request
  {
    Forwarded(prompt, d.name, d.maxNewTokens, d.temperature, n, false, ExtraParams(d))
  }

  /** Which parameters reach the transport: an "o1-" model gets neither
      `top_p` nor `max_completion_tokens` and temperature 1.0; any other model
      gets the configured temperature, the configured `top_p` or 0.95, and the
      output-token cap or else `max_new_tokens`; the presence penalty, body and
      headers arrive exactly when configured; nothing else is sent. */
  lemma ForwardedParams(d: Decoder, prompt: string, n: int)
    ensures var r := BatchRequest(d, prompt, n);
      && r.model == d.name && r.message == prompt && r.n == n && !r.stream
      && (IsReasoningModel(d.name) ==>
            && "top_p" !in r.params && "max_completion_tokens" !in r.params
            && r.temperature == 1.0)
      && (!IsReasoningModel(d.name) ==>
            && r.temperature == d.temperature
            && "top_p" in r.params && r.params["top_p"] == Num(OrElse(d.topP, DefaultTopP))
            && "max_completion_tokens" in r.params
            && r.params["max_completion_tokens"] == Int(OrElse(d.maxOutputTokens, d.maxNewTokens)))
      && ("presence_penalty" in r.params <==> d.presencePenalty.Some?)
      && ("extra_body" in r.params <==> ExtraBody(d) != map[])
      && ("extra_headers" in r.params <==> d.extraHeaders != map[])
      && r.params.Keys <= {"top_p", "presence_penalty", "max_completion_tokens", "extra_body", "extra_headers"}
  {
    ExtraParamsKeys(d);
  }

  /** The message contents of a completion's choices, in order. */
  function Texts(c: Completion): seq<Option<string>>
  {
    seq(|c.choices|, i requires 0 <= i < |c.choices| => c.choices[i].message.content)
  }

  /** What one batched call returns after its answers: the texts of the
      first completion, or nothing while it is still retrying. */
  function BatchOutputs(d: Decoder, n: int, trace: seq<Attempt>): Option<seq<Option<string>>>
  {
    var run := Retry(trace, d.name, n);
    if run.result.Some? then Some(Texts(run.result.value)) else None
  }

  /** The answers of the k-th call. */
  function TraceAt(traces: seq<seq<Attempt>>, k: int): seq<Attempt>
  {
    if 0 <= k < |traces| then traces[k] else []
  }

  /** No answer is a stream: the decoder never asks for one. */
  predicate AllBuffered(traces: seq<seq<Attempt>>)
  {
    forall k :: 0 <= k < |traces| ==> AnswersMatch(traces[k], false)
  }

  /** The extra keyword arguments of a batch request, built by inserting
      each configured knob in turn into the request body and the argument
      map. */
  method AssembleExtraParams(d: Decoder) returns (extraParams: map<string, Value>)
    ensures extraParams == ExtraParams(d)
  {
    var extraBody := d.extraBody;
    var extraHeaders := d.extraHeaders;
    extraParams := map[];
    if d.topP.Some? {
      extraParams := extraParams["top_p" := Num(d.topP.value)];
    }
    if d.topK.Some? {
      extraBody := extraBody["top_k" := Int(d.topK.value)];
    }
    if d.presencePenalty.Some? {
      extraParams := extraParams["presence_penalty" := Num(d.presencePenalty.value)];
    }
    if d.repetitionPenalty.Some? {
      extraBody := extraBody["repetition_penalty" := Num(d.repetitionPenalty.value)];
    }
    if d.maxOutputTokens.Some? {
      extraParams := extraParams["max_completion_tokens" := Int(d.maxOutputTokens.value)];
    }
    assert extraBody == ExtraBody(d);
    assert extraParams == Knobs(d);
    if extraBody != map[] {
      extraParams := extraParams["extra_body" := Obj(extraBody)];
    }
    if extraHeaders != map[] {
      extraParams := extraParams["extra_headers" := Obj(extraHeaders)];
    }
  }

  /** The outputs of a returned batch: the message content of every choice,
      in the choices' order. */
  method CollectTexts(c: Completion) returns (texts: seq<Option<string>>)
    ensures texts == Texts(c)
    ensures |texts| == |c.choices|
  {
    texts := [];
    for i := 0 to |c.choices|
      invariant |texts| == i
      invariant forall k :: 0 <= k < i ==> texts[k] == c.choices[k].message.content
    {
      texts := texts + [c.choices[i].message.content];
    }
  }

  /** `_codegen_api_batch`: makes one auto-retrying request for `n` samples
      with the assembled extra parameters, and returns the message contents
      of the returned choices in order. */
  method ApiBatch(d: Decoder, prompt: string, n: int, trace: seq<Attempt>)
    returns (sent: seq<Request>, outputs: Option<seq<Option<string>>>)
    requires AnswersMatch(trace, false)
    ensures |sent| == Retry(trace, d.name, n).tries
    ensures AllSend(sent, BatchRequest(d, prompt, n))
    ensures outputs == BatchOutputs(d, n, trace)
    ensures outputs.Some? ==> |outputs.value| == |Retry(trace, d.name, n).result.value.choices|
  {
    var extraParams := AssembleExtraParams(d);
    var ret, waits;
    sent, ret, waits := AutoRequest(prompt, d.name, d.maxNewTokens, d.temperature, n, false, extraParams, trace);
    if ret.None? {
      outputs := None;
    } else {
      var texts := CollectTexts(ret.value);
      outputs := Some(texts);
    }
  }

  /** The join of the fan-out: the first output of each call, in launch
      order. It waits for every call, and fails on a call that returned no
      output. */
  function JoinFirsts(batches: seq<Option<seq<Option<string>>>>): (g: Generation)
    ensures g.Done? ==>
      && |g.texts| == |batches|
      && forall k :: 0 <= k < |batches| ==>
           batches[k].Some? && batches[k].value != [] && g.texts[k] == batches[k].value[0]
    ensures g.Retrying? <==> exists k :: 0 <= k < |batches| && batches[k].None?
    ensures g == Aborted(EmptyBatch) <==>
      (forall k :: 0 <= k < |batches| ==> batches[k].Some?)
      && exists k :: 0 <= k < |batches| && batches[k].Some? && batches[k].value == []
  {
    if exists k :: 0 <= k < |batches| && batches[k].None? then Retrying
    else if exists k :: 0 <= k < |batches| && batches[k].value == [] then Aborted(EmptyBatch)
    else Done(seq(|batches|, k requires 0 <= k < |batches| => batches[k].value[0]))
  }

  /** The outputs of `count` single-sample calls, the k-th answered by
      `traces[k]`, in launch order. */
  function LaunchOutputs(d: Decoder, count: int, traces: seq<seq<Attempt>>): seq<Option<seq<Option<string>>>>
  {
    seq(Streaming.Width(count), k requires 0 <= k => BatchOutputs(d, 1, TraceAt(traces, k)))
  }

  /** `_codegen_batch_via_concurrency`: `count` calls of one sample each, the
      k-th answered by `traces[k]`, joined by their first outputs in launch
      order. */
  method FanOutCalls(d: Decoder, prompt: string, count: int, traces: seq<seq<Attempt>>)
    returns (result: Generation, calls: seq<seq<Request>>)
    requires AllBuffered(traces)
    ensures |calls| == Streaming.Width(count)
    ensures forall k :: 0 <= k < |calls| ==>
      |calls[k]| == Retry(TraceAt(traces, k), d.name, 1).tries && AllSend(calls[k], BatchRequest(d, prompt, 1))
    ensures result == JoinFirsts(LaunchOutputs(d, count, traces))
  {
    var batches: seq<Option<seq<Option<string>>>> := [];
    calls := [];
    for k := 0 to Streaming.Width(count)
      invariant |batches| == k && |calls| == k
      invariant batches == LaunchOutputs(d, count, traces)[..k]
      invariant forall j :: 0 <= j < k ==>
        |calls[j]| == Retry(TraceAt(traces, j), d.name, 1).tries && AllSend(calls[j], BatchRequest(d, prompt, 1))
    {
      var sent, outputs := ApiBatch(d, prompt, 1, TraceAt(traces, k));
      batches := batches + [outputs];
      calls := calls + [sent];
    }
    assert batches == LaunchOutputs(d, count, traces);
    result := JoinFirsts(batches);
  }

  /** `codegen`: refuses sampling at a non-positive temperature and an unset
      instruction prefix before any request; routes fan-out models to
      `numSamples` single-sample calls and every other model to one call for
      `min(batchSize, numSamples)` samples, whose outputs are the message
      contents of its choices in order. */
  method Codegen(d: Decoder, prompt: string, doSample: bool, numSamples: int, traces: seq<seq<Attempt>>)
    returns (result: Generation, calls: seq<seq<Request>>)
    requires AllBuffered(traces)
    ensures PlanOf(d, prompt, doSample, numSamples).Refused? ==>
      result == Aborted(PlanOf(d, prompt, doSample, numSamples).error) && calls == []
    ensures PlanOf(d, prompt, doSample, numSamples).Planned? ==>
      var plan := PlanOf(d, prompt, doSample, numSamples).plan;
      && (plan.FanOut? ==>
            && |calls| == Streaming.Width(numSamples)
            && (forall k :: 0 <= k < |calls| ==> AllSend(calls[k], BatchRequest(d, plan.prompt, 1)))
            && result == JoinFirsts(LaunchOutputs(d, numSamples, traces)))
      && (plan.Batched? ==>
            && |calls| == 1
            && AllSend(calls[0], BatchRequest(d, plan.prompt, plan.n))
            && result == (var out := BatchOutputs(d, plan.n, TraceAt(traces, 0));
                          if out.Some? then Done(out.value) else Retrying))
  {
    var planned := PlanOf(d, prompt, doSample, numSamples);
    match planned {
      case Refused(e) =>
        result, calls := Aborted(e), [];
      case Planned(FanOut(wrapped, count)) =>
        result, calls := FanOutCalls(d, wrapped, count, traces);
      case Planned(Batched(wrapped, n)) =>
        assert AnswersMatch(TraceAt(traces, 0), false);
        var sent, outputs := ApiBatch(d, wrapped, n, TraceAt(traces, 0));
        calls := [sent];
        result := if outputs.Some? then Done(outputs.value) else Retrying;
    }
  }
}
