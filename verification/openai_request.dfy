/**
 * `make_request` and `make_auto_request`: the parameters forwarded to the
 * chat-completion transport, the transport's answer (buffered, or a stream
 * reduced by the accumulator), and the retry loop that classifies each
 * failure and waits before trying again.
 *
 * The transport is not called: one call's answer is an `Attempt`, and a
 * retry loop is given the finite sequence of answers its attempts receive.
 */
module OpenAIRequest {
  import opened Values
  import opened Chat
  import Streaming

  const DefaultTopP: real := 0.95
  const ReasoningPrefix: string := "o1-"

  /** Models that reject sampling controls: names starting with "o1-". */
  predicate IsReasoningModel(model: string)
  {
    StartsWith(model, ReasoningPrefix)
  }

  /** What reaches `client.chat.completions.create`: the model, the single
      user message, the temperature, the sample count, whether to stream, and
      every other keyword argument. */
  datatype Request = Request(model: string, message: string, temperature: real, n: int,
                             stream: bool, params: map<string, Value>)

  datatype Adapted = Adapted(params: map<string, Value>, temperature: real)

  /** The keyword arguments and temperature `make_request` forwards.
      `top_p` and `max_completion_tokens` are filled in only when the caller
      did not pass them (a passed value, even `None`, is kept); for an "o1-"
      model both are removed and the temperature is forced to 1.0; every other
      keyword argument passes through unchanged. */
  function Adapt(kwargs: map<string, Value>, model: string, maxTokens: int, temperature: real): (r: Adapted)
    ensures IsReasoningModel(model) ==>
      && "top_p" !in r.params && "max_completion_tokens" !in r.params
      && r.temperature == 1.0
    ensures !IsReasoningModel(model) ==>
      && r.temperature == temperature
      && "top_p" in r.params && "max_completion_tokens" in r.params
      && r.params["top_p"] == (if "top_p" in kwargs then kwargs["top_p"] else Num(DefaultTopP))
      && r.params["max_completion_tokens"]
         == (if "max_completion_tokens" in kwargs then kwargs["max_completion_tokens"] else Int(maxTokens))
    ensures forall k :: k != "top_p" && k != "max_completion_tokens" ==>
      && (k in r.params <==> k in kwargs)
      && (k in kwargs ==> r.params[k] == kwargs[k])
  {
    var topP := if "top_p" in kwargs then kwargs["top_p"] else Num(DefaultTopP);
    var maxCompletion := if "max_completion_tokens" in kwargs then kwargs["max_completion_tokens"] else Int(maxTokens);
    var filled := kwargs["top_p" := topP]["max_completion_tokens" := maxCompletion];
    if IsReasoningModel(model) then Adapted(filled - {"top_p", "max_completion_tokens"}, 1.0)
    else Adapted(filled, temperature)
  }

  /** The request every attempt of one `make_request` call sends. */
  function Forwarded(message: string, model: string, maxTokens: int, temperature: real, n: int,
                     stream: bool, kwargs: map<string, Value>): Request
  {
    var a := Adapt(kwargs, model, maxTokens, temperature);
    Request(model, message, a.temperature, n, stream, a.params)
  }

  /** Every request of `sent` is `r`. */
  predicate AllSend(sent: seq<Request>, r: Request)
  {
    forall k :: 0 <= k < |sent| ==> sent[k] == r
  }

  // ---------------------------------------------------------------------
  // The transport's answers

  /** The exception classes a call can raise, as far as the except clauses of
      `make_auto_request` tell them apart: the SDK's `RateLimitError` and
      `APIConnectionError` (both kinds of `APIError`), any other `APIError`,
      and any other exception (an `IndexError` of the accumulator included). */
  datatype Failure = RateLimitError | APIConnectionError | APIError | OtherException

  /** A buffered completion, or a stream together with the two clock readings
      that stamp the synthesised completion (its id and its `created`). */
  datatype Reply = Buffered(completion: Completion)
                 | Streamed(chunks: seq<Chunk>, idTime: int, createdTime: int)

  /** What one call to the transport gives back. */
  datatype Attempt = Replied(reply: Reply) | Failed(failure: Failure)

  /** What one `make_request` call ends in. */
  datatype Outcome = Returned(completion: Completion) | Raised(failure: Failure)

  /** The transport answers a streamed request with a stream and a buffered
      one with a completion. */
  predicate AnswersMatch(attempts: seq<Attempt>, stream: bool)
  {
    forall k :: 0 <= k < |attempts| && attempts[k].Replied? ==> attempts[k].reply.Streamed? == stream
  }

  /** How a `make_request` call for `model` with `n` samples ends, given the
      transport's answer. A stream in which a fragment carrying a non-empty
      content, role or finish reason names a sample index outside [0, n)
      fails with an `IndexError`; a fragment that carries none of them is
      skipped whatever index it names. */
  function OutcomeOf(attempt: Attempt, model: string, n: int): Outcome
  {
    match attempt
    case Failed(f) => Raised(f)
    case Replied(Buffered(c)) => Returned(c)
    case Replied(Streamed(chunks, idTime, createdTime)) =>
      if Streaming.IndicesBelow(chunks, n) then
        Returned(Completion(StreamedAt(idTime), createdTime, model,
                            Streaming.Finalize(Streaming.Fragments(chunks), Streaming.Width(n))))
      else Raised(OtherException)
  }

  /** One `make_request` call: adapts the keyword arguments, sends the
      request, and returns the buffered completion or the accumulated stream. */
  method MakeRequest(message: string, model: string, maxTokens: int, temperature: real, n: int,
                     stream: bool, kwargs: map<string, Value>, attempt: Attempt)
    returns (sent: Request, outcome: Outcome)
    requires AnswersMatch([attempt], stream)
    ensures sent == Forwarded(message, model, maxTokens, temperature, n, stream, kwargs)
    ensures outcome == OutcomeOf(attempt, model, n)
    ensures outcome.Returned? && stream ==> |outcome.completion.choices| == Streaming.Width(n)
  {
    var params := kwargs;
    params := params["top_p" := if "top_p" in params then params["top_p"] else Num(DefaultTopP)];
    params := params["max_completion_tokens" :=
                     if "max_completion_tokens" in params then params["max_completion_tokens"] else Int(maxTokens)];
    var temp := temperature;
    if StartsWith(model, ReasoningPrefix) {
      params := params - {"top_p"};
      params := params - {"max_completion_tokens"};
      temp := 1.0;
    }
    sent := Request(model, message, temp, n, stream, params);

    assert attempt.Replied? ==> attempt.reply.Streamed? == stream by {
      assert [attempt][0] == attempt;
    }
    match attempt {
      case Failed(f) =>
        outcome := Raised(f);
      case Replied(Buffered(c)) =>
        outcome := Returned(c);
      case Replied(Streamed(chunks, idTime, createdTime)) =>
        if !Streaming.IndicesBelow(chunks, n) {
          outcome := Raised(OtherException);
        } else {
          var choices := Streaming.Accumulate(chunks, n);
          outcome := Returned(Completion(StreamedAt(idTime), createdTime, model, choices));
        }
    }
  }

  // ---------------------------------------------------------------------
  // The retry loop

  /** The except clauses of `make_auto_request`, in the order they are tried. */
  datatype Clause = OnRateLimit | OnConnectionError | OnAPIError | OnAnyException

  function Position(c: Clause): nat
  {
    match c
    case OnRateLimit => 0
    case OnConnectionError => 1
    case OnAPIError => 2
    case OnAnyException => 3
  }

  /** Whether a clause catches a failure, following the SDK's class hierarchy:
      rate-limit and connection errors are API errors, and every failure is an
      exception. */
  predicate Catches(c: Clause, f: Failure)
  {
    match c
    case OnRateLimit => f == RateLimitError
    case OnConnectionError => f == APIConnectionError
    case OnAPIError => f != OtherException
    case OnAnyException => true
  }

  /** The clause that handles a failure: the first one, in source order, that
      catches it. */
  function Handler(f: Failure): (c: Clause)
    ensures Catches(c, f)
    ensures forall d :: Position(d) < Position(c) ==> !Catches(d, f)
  {
    if Catches(OnRateLimit, f) then OnRateLimit
    else if Catches(OnConnectionError, f) then OnConnectionError
    else if Catches(OnAPIError, f) then OnAPIError
    else OnAnyException
  }

  /** The seconds a clause sleeps before the next attempt; the plain
      `APIError` clause retries at once. */
  function Wait(c: Clause): nat
  {
    match c
    case OnRateLimit => 5
    case OnConnectionError => 5
    case OnAPIError => 0
    case OnAnyException => 1
  }

  /** The wait that follows an outcome, if it is a failure. */
  function Delay(o: Outcome): nat
  {
    if o.Raised? then Wait(Handler(o.failure)) else 0
  }

  /** A retry loop over a finite run of answers: the completion it returns,
      if any answer succeeds, one wait per failed attempt, and the number of
      attempts it made. */
  datatype RetryRun = RetryRun(result: Option<Completion>, waits: seq<nat>, tries: nat)

  /** The retry loop as a state machine over the answers: a success ends it,
      a failure adds its wait and moves to the next answer. When the answers
      run out without a success, the loop would still be retrying. */
  function Retry(attempts: seq<Attempt>, model: string, n: int): (run: RetryRun)
    ensures run.tries <= |attempts|
    ensures run.result.None? ==> run.tries == |attempts| && |run.waits| == |attempts|
    ensures run.result.Some? ==> 1 <= run.tries && |run.waits| == run.tries - 1
  {
    if attempts == [] then RetryRun(None, [], 0)
    else
      match OutcomeOf(attempts[0], model, n)
      case Returned(c) => RetryRun(Some(c), [], 1)
      case Raised(f) =>
        var rest := Retry(attempts[1..], model, n);
        RetryRun(rest.result, [Wait(Handler(f))] + rest.waits, rest.tries + 1)
  }

  /** The loop stops at the first success and returns its completion
      unchanged; every attempt before it failed and added the wait of the
      clause that handled it; with no success at all, every attempt failed. */
  lemma {:induction false} RetryStopsAtFirstSuccess(attempts: seq<Attempt>, model: string, n: int)
    ensures var run := Retry(attempts, model, n);
      && (forall k :: 0 <= k < |run.waits| ==>
            && OutcomeOf(attempts[k], model, n).Raised?
            && run.waits[k] == Delay(OutcomeOf(attempts[k], model, n)))
      && (run.result.Some? ==> OutcomeOf(attempts[run.tries - 1], model, n) == Returned(run.result.value))
      && (run.result.None? ==> forall k :: 0 <= k < |attempts| ==> OutcomeOf(attempts[k], model, n).Raised?)
  {
    if attempts != [] && OutcomeOf(attempts[0], model, n).Raised? {
      var rest := attempts[1..];
      RetryStopsAtFirstSuccess(rest, model, n);
      assert forall k :: 0 <= k < |rest| ==> rest[k] == attempts[k + 1];
      var run := Retry(attempts, model, n);
      var restRun := Retry(rest, model, n);
      assert run.waits == [Delay(OutcomeOf(attempts[0], model, n))] + restRun.waits;
      forall k | 0 <= k < |run.waits|
        ensures OutcomeOf(attempts[k], model, n).Raised?
        ensures run.waits[k] == Delay(OutcomeOf(attempts[k], model, n))
      {
        if k > 0 {
          assert run.waits[k] == restRun.waits[k - 1];
        }
      }
      if run.result.None? {
        forall k | 0 <= k < |attempts|
          ensures OutcomeOf(attempts[k], model, n).Raised?
        {
          if k > 0 {
            assert attempts[k] == rest[k - 1];
          }
        }
      }
    }
  }

  /** The loop returns a completion exactly when some answer succeeds. */
  lemma {:induction false} RetrySucceedsIffSomeSuccess(attempts: seq<Attempt>, model: string, n: int)
    ensures Retry(attempts, model, n).result.Some?
        <==> exists k :: 0 <= k < |attempts| && OutcomeOf(attempts[k], model, n).Returned?
  {
    RetryStopsAtFirstSuccess(attempts, model, n);
    var run := Retry(attempts, model, n);
    if run.result.Some? {
      assert OutcomeOf(attempts[run.tries - 1], model, n).Returned?;
    }
  }

  /** Two rate-limit errors and then a completion: two waits of five seconds,
      and the completion is returned as the transport gave it. */
  lemma RateLimitedTwiceThenAnswered(c: Completion, model: string, n: int)
    ensures Retry([Failed(RateLimitError), Failed(RateLimitError), Replied(Buffered(c))], model, n)
         == RetryRun(Some(c), [5, 5], 3)
  {
    var attempts := [Failed(RateLimitError), Failed(RateLimitError), Replied(Buffered(c))];
    var tail := [Failed(RateLimitError), Replied(Buffered(c))];
    assert attempts[1..] == tail;
    assert tail[1..] == [Replied(Buffered(c))];
    assert Retry([Replied(Buffered(c))], model, n) == RetryRun(Some(c), [], 1);
    assert Retry(tail, model, n) == RetryRun(Some(c), [5], 2);
  }

  /** A stream whose only fragment names a missing slot but writes nothing is
      accepted at the first attempt: one choice with the defaults and empty
      text. */
  lemma SilentStrayFragmentIsAccepted(model: string)
    ensures Retry([Replied(Streamed([Chunk([Fragment(5, None, None)])], 0, 0))], model, 1)
         == RetryRun(Some(Completion(StreamedAt(0), 0, model,
                                     [Choice(0, "stop", Message("assistant", Some("")))])), [], 1)
  {
    var chunks := [Chunk([Fragment(5, None, None)])];
    assert Streaming.IndicesBelow(chunks, 1);
    var fs := Streaming.Fragments(chunks);
    assert fs == [Fragment(5, None, None)] by {
      assert chunks[..0] == [];
    }
    assert fs[..0] == [];
    assert Streaming.TextFor(fs, 0) == "";
    assert Streaming.LastFor(fs, 0, Streaming.Role).None?;
    assert Streaming.LastFor(fs, 0, Streaming.Reason).None?;
    assert Streaming.Finalize(fs, 1) == [Choice(0, "stop", Message("assistant", Some("")))];
    var attempts := [Replied(Streamed(chunks, 0, 0))];
    assert OutcomeOf(attempts[0], model, 1).Returned?;
  }

  /** The same stray fragment with a finish reason is an `IndexError`, which
      the catch-all clause answers with a one-second wait. */
  lemma WritingStrayFragmentIsRetried(model: string)
    ensures Retry([Replied(Streamed([Chunk([Fragment(5, None, Some("length"))])], 0, 0))], model, 1)
         == RetryRun(None, [1], 1)
  {
    var chunks := [Chunk([Fragment(5, None, Some("length"))])];
    assert Fragment(5, None, Some("length")) in chunks[0].choices;
    assert !Streaming.IndicesBelow(chunks, 1);
    var attempts := [Replied(Streamed(chunks, 0, 0))];
    assert attempts[1..] == [];
  }

  /** One step of the state machine: from the answer at position `i`, with
      the waits so far, to the run after it. */
  lemma RetryAdvance(attempts: seq<Attempt>, i: int, model: string, n: int, waits: seq<nat>)
    requires 0 <= i < |attempts|
    requires var rest := Retry(attempts[i..], model, n);
      Retry(attempts, model, n) == RetryRun(rest.result, waits + rest.waits, i + rest.tries)
    ensures var o := OutcomeOf(attempts[i], model, n);
      if o.Returned? then Retry(attempts, model, n) == RetryRun(Some(o.completion), waits, i + 1)
      else
        var rest := Retry(attempts[i + 1..], model, n);
        Retry(attempts, model, n) == RetryRun(rest.result, (waits + [Delay(o)]) + rest.waits, i + 1 + rest.tries)
  {
    assert attempts[i..][0] == attempts[i];
    assert attempts[i..][1..] == attempts[i + 1..];
    var o := OutcomeOf(attempts[i], model, n);
    if o.Raised? {
      var rest := Retry(attempts[i + 1..], model, n);
      assert Retry(attempts[i..], model, n).waits == [Delay(o)] + rest.waits;
      assert waits + ([Delay(o)] + rest.waits) == (waits + [Delay(o)]) + rest.waits;
    } else {
      assert waits + [] == waits;
    }
  }

  /** `make_auto_request`: calls `make_request` until one call returns,
      sleeping after each failure as the clause that handles it says. Every
      attempt sends the same request, because each call adapts a fresh copy
      of the keyword arguments. */
  method AutoRequest(message: string, model: string, maxTokens: int, temperature: real, n: int,
                     stream: bool, kwargs: map<string, Value>, attempts: seq<Attempt>)
    returns (sent: seq<Request>, ret: Option<Completion>, waits: seq<nat>)
    requires AnswersMatch(attempts, stream)
    ensures ret == Retry(attempts, model, n).result
    ensures waits == Retry(attempts, model, n).waits
    ensures |sent| == Retry(attempts, model, n).tries
    ensures AllSend(sent, Forwarded(message, model, maxTokens, temperature, n, stream, kwargs))
  {
    ret := None;
    waits := [];
    sent := [];
    ghost var forwarded := Forwarded(message, model, maxTokens, temperature, n, stream, kwargs);
    var i := 0;
    while ret.None? && i < |attempts|
      invariant 0 <= i <= |attempts| && |sent| == i
      invariant AllSend(sent, forwarded)
      invariant ret.None? ==>
        var rest := Retry(attempts[i..], model, n);
        Retry(attempts, model, n) == RetryRun(rest.result, waits + rest.waits, i + rest.tries)
      invariant ret.Some? ==> Retry(attempts, model, n) == RetryRun(ret, waits, i)
      decreases |attempts| - i
    {
      RetryAdvance(attempts, i, model, n, waits);
      assert AnswersMatch([attempts[i]], stream);
      var request, outcome := MakeRequest(message, model, maxTokens, temperature, n, stream, kwargs, attempts[i]);
      sent := sent + [request];
      match outcome {
        case Returned(c) =>
          ret := Some(c);
        case Raised(f) =>
          waits := waits + [Wait(Handler(f))];
      }
      i := i + 1;
    }
  }
}
