# evalplus OpenAI request layer, modelled in Dafny

This project models the part of evalplus that turns one "generate N code
completions" request into calls to an OpenAI-compatible chat-completion
endpoint:

- `make_request` (`evalplus/gen/util/openai_request.py`). It fills in and
  strips sampling parameters, then sends one request. On the streamed path it
  folds the chunk stream into `n` choices using three per-index lists.
- `make_auto_request`. It retries `make_request` until a call returns. Each
  failure is classified by the first except clause that catches it, and that
  clause decides the wait.
- `OpenAIChatDecoder` (`evalplus/provider/openai.py`). `codegen` checks the
  temperature, wraps the prompt and routes by model name. `_codegen_api_batch`
  assembles the optional parameters and extracts the message contents.
  `_codegen_batch_via_concurrency` takes the first output of each
  single-sample call.

The transport is never called. Each call's answers are given as a finite
sequence of `Attempt`s: a reply (a buffered completion, or a chunk stream with
its two clock readings) or a failure tagged by exception class. A retry loop
whose answers run out without a success is reported as still retrying.

Files, one module each:

- `values.dfy` (`Values`): keyword-argument values, Python truthiness,
  `startswith`, and `str.strip` with Python's whitespace set.
- `chat.dfy` (`Chat`): fragments, chunks, choices and completions.
- `streaming.dfy` (`Streaming`): the accumulator, as a class over three arrays
  with the spec functions `TextFor`, `LastFor` and `Finalize`.
- `openai_request.dfy` (`OpenAIRequest`): parameter adaptation, one request,
  and the retry loop.
- `openai_provider.dfy` (`OpenAIProvider`): the decoder.

Behaviour of the code worth noting:

- A later non-empty role for an index overwrites an earlier one (line 57),
  just as a later finish reason does.
- The lists are indexed only when a fragment carries a non-empty content,
  role or finish reason (lines 53-59). Such a fragment naming an index
  outside `[0, n)` raises `IndexError` inside `make_request`;
  `make_auto_request` catches it with `except Exception`, sleeps one second
  and retries, so it does not propagate to the caller. A fragment carrying
  none of them is skipped, whatever index it names.
- A `top_p` passed explicitly as `None` is kept as `None`. The default 0.95
  applies only when the key is absent.
- A buffered choice's `message.content` may be `None`, and the decoder
  returns it as it is. Outputs are therefore `seq<Option<string>>`.
- `codegen` with an unset `instruction_prefix` raises a `TypeError` at line
  26. This is modelled as the error `MissingInstructionPrefix`.

## Model

| member | source | states |
|---|---|---|
| `Values.Strip` | evalplus/provider/openai.py:26 | `prompt.strip()`: the result is the slice of the prompt right after its maximal whitespace prefix; everything after the slice is whitespace; the result neither starts nor ends with whitespace |
| `Streaming.LastFor` | evalplus/gen/util/openai_request.py:56-59 | a role or finish reason held by a slot is always a non-empty string, because only truthy values are stored |
| `Streaming.TextForSplit` | evalplus/gen/util/openai_request.py:48-55 | a slot's text over a stream split anywhere is the first part's text followed by the second part's: per-index, in-order concatenation |
| `Streaming.TextForIgnoresOthers` | evalplus/gen/util/openai_request.py:52-55 | a fragment for another index, interleaved anywhere, does not change slot `i`'s text |
| `Streaming.LastForSplit` | evalplus/gen/util/openai_request.py:56-59 | a role or reason over a split stream is the second part's last value, or the first part's when the second part never sets it |
| `Streaming.LastForUnset` | evalplus/gen/util/openai_request.py:63-64 | a slot's role or reason is unset (so it finalises to "assistant" or "stop") exactly when no fragment for that index carries a non-empty value |
| `Streaming.LastForWins` | evalplus/gen/util/openai_request.py:56-59 | a fragment that sets a role or reason decides it unless a later fragment for the same index sets it again (last non-empty wins) |
| `Streaming.FragmentsSplit` | evalplus/gen/util/openai_request.py:48-51 | the fragments of two concatenated streams are the fragments of each, in order; chunk boundaries do not matter |
| `Streaming.EmptyChunkChangesNothing` | evalplus/gen/util/openai_request.py:49-50 | a chunk with no choices, wherever it arrives, changes no slot |
| `Streaming.SlotAfter` | evalplus/gen/util/openai_request.py:52-59 | one more fragment extends its own slot's text by its non-empty content and overwrites that slot's role or reason when it carries a non-empty one; every other slot stays as it was |
| `Streaming.SilentFragmentChangesNothing` | evalplus/gen/util/openai_request.py:52-59 | a fragment with no non-empty content, role or finish reason, whatever index it names, changes none of the `n` finished choices |
| `Streaming.StreamAccumulator.constructor` | evalplus/gen/util/openai_request.py:44-46 | `n` slots with empty text, no role and no finish reason, which is the state after no fragments |
| `Streaming.StreamAccumulator.Add` | evalplus/gen/util/openai_request.py:52-59 | feeding a fragment (whose index is in `[0, n)` when it writes anything) keeps every slot equal to its spec over the fragments seen so far, plus this one |
| `Streaming.StreamAccumulator.Finish` | evalplus/gen/util/openai_request.py:61-74 | the choices are slot `i` as choice `i`, with "assistant" and "stop" for an unset role and reason |
| `Streaming.Accumulate` | evalplus/gen/util/openai_request.py:44-74 | for a stream whose writing fragments all name an index in `[0, n)`: exactly `n` choices; choice `i` has index `i`, the concatenated text of index `i`, and its last role and reason or the defaults |
| `OpenAIRequest.Adapt` | evalplus/gen/util/openai_request.py:18-24 | `top_p` (0.95) and `max_completion_tokens` (`max_tokens`) are filled in only when absent, and a given value, even `None`, is kept; an "o1-" model forwards neither key and temperature 1.0 whatever the inputs; every other key passes through unchanged |
| `OpenAIRequest.MakeRequest` | evalplus/gen/util/openai_request.py:8-82 | sends the adapted request; returns the buffered completion, or the accumulated stream with exactly `n` choices, or `IndexError` when a fragment with a non-empty content, role or finish reason names an index outside `[0, n)` |
| `OpenAIRequest.Handler` | evalplus/gen/util/openai_request.py:88-101 | a failure is handled by the first except clause, in source order, that catches it under the SDK's class hierarchy |
| `OpenAIRequest.Retry` | evalplus/gen/util/openai_request.py:85-102 | the retry loop stops after at most as many attempts as answers; without a success every answer was tried, with one wait each; with a success there is one wait per earlier attempt |
| `OpenAIRequest.RetryAdvance` | evalplus/gen/util/openai_request.py:87-101 | one loop iteration: a success ends the run with the waits so far; a failure appends its clause's wait and continues with the next answer |
| `OpenAIRequest.RetryStopsAtFirstSuccess` | evalplus/gen/util/openai_request.py:86-102 | the loop returns the first successful completion unchanged; each earlier attempt failed and added the wait of its clause (5 rate limit, 5 connection, 0 other API error, 1 anything else) |
| `OpenAIRequest.RetrySucceedsIffSomeSuccess` | evalplus/gen/util/openai_request.py:87-89 | the loop returns a completion if and only if some answer succeeds |
| `OpenAIRequest.RateLimitedTwiceThenAnswered` | evalplus/gen/util/openai_request.py:90-92 | two rate-limit errors and then a completion give two 5-second waits, three attempts, and that completion |
| `OpenAIRequest.SilentStrayFragmentIsAccepted` | evalplus/gen/util/openai_request.py:48-74 | a stream whose only fragment names index 5 of 1 but writes nothing is returned at the first attempt, as one default choice ("assistant", "stop", empty text) |
| `OpenAIRequest.WritingStrayFragmentIsRetried` | evalplus/gen/util/openai_request.py:98-101 | the same fragment with a finish reason raises `IndexError`, which the catch-all clause answers with a one-second wait and a retry |
| `OpenAIRequest.AutoRequest` | evalplus/gen/util/openai_request.py:85-102 | the loop's result, waits and attempt count are those of `Retry`, and every attempt sends the same adapted request |
| `OpenAIProvider.PlanOf` | evalplus/provider/openai.py:23-32 | sampling at a non-positive temperature is refused before any request; "o1-*" and "deepseek-chat" fan out to `num_samples` calls; other names make one call for `min(batch_size, num_samples)` samples; the prompt is the prefix plus the fenced, stripped prompt |
| `OpenAIProvider.PromptWrapsStrippedCode` | evalplus/provider/openai.py:26 | the fenced block holds the prompt minus its leading and trailing whitespace, and only whitespace was dropped |
| `OpenAIProvider.ExtraBodyKeys` | evalplus/provider/openai.py:53-58 | the body holds `top_k` and `repetition_penalty` exactly when they are configured or were already in the configured body; a configured knob overrides the body's value; every other configured body key is kept |
| `OpenAIProvider.ExtraParamsKeys` | evalplus/provider/openai.py:48-66 | `top_p`, `presence_penalty` and `max_completion_tokens` are present exactly when configured, with the configured value; `extra_body` and `extra_headers` are present exactly when non-empty; there is no other key, so `top_k` and `repetition_penalty` never reach the top level |
| `OpenAIProvider.AssembleExtraParams` | evalplus/provider/openai.py:43-66 | the conditional in-place insertions into the body and the parameter map build exactly the map that `ExtraParamsKeys` describes |
| `OpenAIProvider.ForwardedParams` | evalplus/provider/openai.py:51-76 | the forwarded request: for an "o1-" model, no `top_p`, no `max_completion_tokens`, temperature 1.0; otherwise the configured temperature, `top_p` or 0.95, and `max_output_tokens` or `max_new_tokens`; `n` is the batch size; nothing unconfigured is sent |
| `OpenAIProvider.CollectTexts` | evalplus/provider/openai.py:78-82 | the outputs are the choices' message contents, in the same order and with the same length |
| `OpenAIProvider.ApiBatch` | evalplus/provider/openai.py:34-82 | each attempt sends the batch request with `n` samples; the outputs are the contents of the first returned completion's choices, one per choice |
| `OpenAIProvider.JoinFirsts` | evalplus/provider/openai.py:88 | a completed join has one output per call, the first output of call `k` at position `k`; it waits while any call is retrying and fails when a call returned no output |
| `OpenAIProvider.FanOutCalls` | evalplus/provider/openai.py:84-88 | `num_samples` calls, each sending single-sample requests only, joined in launch order |
| `OpenAIProvider.Codegen` | evalplus/provider/openai.py:20-32 | a refusal sends nothing; the fan-out path makes `num_samples` single-sample calls; any other model makes exactly one call with `n = min(batch_size, num_samples)` and returns its outputs |

## Left out

- Client construction (`openai.OpenAI`, `httpx.Client`, `OPENAI_API_KEY`, `base_url`, certificate checks) is foreign SDK code and I/O. The transport is replaced by given answers.
- `json.loads` of `extra_body` and `extra_headers` is a library call. The decoder holds the parsed objects, and an unset or empty setting is the empty map. A JSON value that is not an object is not modelled.
- `concurrent_call` lives in `evalplus/provider/utility.py`, which is not part of this model. The fan-out is modelled as `num_samples` independent calls in launch order. Threads, completion order and pool sizing are not modelled.
- `time.sleep` and `print` are side effects. Waits are recorded as data, one per failed attempt; a 0 stands for the plain `APIError` clause, which does not sleep.
- `time.time()` is a clock read. The two readings for the synthesised id and `created` field come with the streamed reply.
- The loop's non-termination is not modelled. A retry loop runs over a finite sequence of answers and reports "still retrying" when they run out.
- The SDK's exception classes are reduced to the four kinds the except clauses tell apart: rate limit, connection, other `APIError`, other exception.
- Temperature and `top_p` are reals, not floating-point values. The code only passes them on, compares them with 0 or overwrites them.
- Python's negative list indices are not modelled. `Streaming.Accumulate` requires every writing fragment's index in `[0, n)`, and `MakeRequest` treats any other index of a writing fragment as an `IndexError`. In Python, an index in `[-n, 0)` would silently write to slot `n + idx`.
- A keyword argument that collides with a named parameter of `make_request` (`model`, `n`, `stream`, ...) makes Python raise a `TypeError`. This is not modelled.
- A chunk whose `choices` is `None` is represented as an empty sequence. Both are skipped at line 49.
- `is_direct_completion` returns a constant. `evalplus/provider/base.py` only stores fields. Its fields that this code does not read (`dtype`, `trust_remote_code`, `response_prefix`, `eos`, `skip_special_tokens`) are not part of the decoder record.
- `OpenAIProvider.Codegen`: the outputs of the batched path have one entry per returned choice. The length is `n` only when the server returns `n` choices, because the buffered path does not check the count.
