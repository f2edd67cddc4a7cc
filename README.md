# Multi-consult: a Dafny model

This project models the two pieces of logic in a medical question-answering app.

- **The `multi-consult` edge function** (`MultiConsult`, in `multi_consult.dfy`). It takes a question and sends it to three AI providers: GPT, Claude and Grok. It turns each reply into a `ModelAnswer { model, text, tokens, latency }`. A reply that cannot be read becomes a failure placeholder. The function collects the three answers in a fixed order and asks GPT for a summary of them. It then returns `{ summary, answers }`.
- **The chat input box** (`ChatComponents`, in `chat_input.dfy`). It holds a text buffer and follows the parent's `isLoading` flag. Its submit guard sends the trimmed text and clears the buffer.

The edge function becomes pure functions once its I/O is abstracted, so it is modelled as functions and lemmas:

- The network is a parameter `net: Request -> Reply`. A `Request` holds the JSON body that would be posted. A `Reply` is either `Rejected` (fetch rejected, or the body was not JSON) or `Received(body)`. The body records which of the property paths the code reads are present: `choices[0].message.content`, `content[0].text` and `usage.total_tokens`.
- `performance.now()` readings are integer microseconds. A `Span` holds the two readings one query function takes.
- `Math.round(n / d)` for `n >= 0` is `(2n + d) / (2d)` in integer arithmetic.
- `Serve` returns the HTTP response together with the provider requests it issued, in the order they were started. This is how "no provider is queried" can be stated.

The input box updates its state in place, so it is a class. Its fields are `input`, `isLoading` and `sent`. `sent` records every message passed to `onSendMessage`. The class invariant `Valid` says that every sent message is non-empty and already trimmed.

### Behaviour of the handler worth knowing

- The handler has no per-provider timeout. Every call in the model settles, because `net` is a total function.
- An answer has no success flag. A failure shows only as the provider's fixed error text with `tokens = 0`. For Claude and Grok this pair identifies a failure exactly (`ClaudePlaceholderIffFailure`, `GrokPlaceholderIffFailure`). For GPT it does not (`GptPlaceholderAmbiguous`).
- The handler does not trim the question, so a whitespace-only question is sent to every provider (`ServeAcceptsWhitespaceQuestion`). Only the input box trims.
- The summary is empty when the summary call returns empty content (`SummaryEmptyOnlyIfReplyEmpty`). When the call fails, the summary is the non-empty fallback.
- The only 500 response comes from a request body that cannot be read. Every provider failure and every summary failure is absorbed (`ServeInternalErrorOnlyForUnreadableBody`).

## Model

| member | source | states |
|---|---|---|
| MultiConsult.RoundDiv | supabase/functions/multi-consult/index.ts:109 | Math.round(n/d) for n >= 0: the result is the integer nearest n/d, with halves rounded up |
| MultiConsult.ElapsedMillis | supabase/functions/multi-consult/index.ts:34-36 | getElapsedTime: the latency is the elapsed time rounded to the nearest millisecond, so it is within half a millisecond of end - start and never negative |
| MultiConsult.EstimateTokens | supabase/functions/multi-consult/index.ts:109 | the estimate n satisfies 4n - 2 <= length < 4n + 2, so it is round(length / 4) |
| MultiConsult.QueryGpt | supabase/functions/multi-consult/index.ts:39-79 | the answer is always labelled "GPT-4 Turbo" and carries the measured latency; content and usage.total_tokens are taken when both paths are readable; otherwise text is the fixed GPT error text and tokens = 0, and nothing is thrown |
| MultiConsult.QueryClaude | supabase/functions/multi-consult/index.ts:82-126 | the answer is always labelled "Claude 3" and carries the latency; a readable content[0].text is returned with tokens = round(length/4); otherwise it is the Claude error text with tokens = 0 |
| MultiConsult.QueryGrok | supabase/functions/multi-consult/index.ts:129-172 | the answer is always labelled "Mixtral 8x7B" and carries the latency; tokens is usage.total_tokens when present and non-zero, otherwise round(length/4); an unreadable reply gives the Grok error text with tokens = 0 |
| MultiConsult.QueryAll | supabase/functions/multi-consult/index.ts:229-236 | Promise.all over the three calls gives exactly three answers, labelled GPT-4 Turbo, Claude 3 and Mixtral 8x7B in that order |
| MultiConsult.GenerateSummary | supabase/functions/multi-consult/index.ts:175-206 | the summary is the summary call's content when readable, and otherwise the fixed fallback text |
| MultiConsult.AcceptedQuestion | supabase/functions/multi-consult/index.ts:219-224 | `!question \|\| typeof question !== 'string'` lets through exactly the non-empty strings, unchanged |
| MultiConsult.Serve | supabase/functions/multi-consult/index.ts:208-266 | no provider is queried unless the response is a success; a success requires an accepted question and carries three answers in configuration order; the summary request is issued last and is built from those answers |
| MultiConsult.QuestionReachesEveryProvider | supabase/functions/multi-consult/index.ts:43-148 | the request bodies of GPT (lines 43-59), Claude (lines 93-102) and Grok (lines 139-148) each end with a user message whose text ends with the question itself |
| MultiConsult.ProviderNamesDistinct | supabase/functions/multi-consult/index.ts:65-158 | the three fixed model names, GPT's at line 65, Claude's at line 112 and Grok's at line 158, are pairwise distinct, so each answer identifies its provider |
| MultiConsult.ClaudePlaceholderIffFailure | supabase/functions/multi-consult/index.ts:109-124 | a Claude answer has the error text and 0 tokens if and only if its reply was unreadable |
| MultiConsult.GrokPlaceholderIffFailure | supabase/functions/multi-consult/index.ts:155-170 | a Grok answer has the error text and 0 tokens if and only if its reply was unreadable |
| MultiConsult.GptPlaceholderAmbiguous | supabase/functions/multi-consult/index.ts:64-77 | a GPT reply whose content is the error text and whose usage is 0 gives the same answer as a rejected call |
| MultiConsult.AnswersIndependentOfTiming | supabase/functions/multi-consult/index.ts:229-236 | the clock readings, and so the finishing order, change only latencies; model, text and tokens at each position stay the same |
| MultiConsult.JoinPartAt | supabase/functions/multi-consult/index.ts:177 | join("\n\n") keeps every rendered answer intact, at the offset given by the parts before it |
| MultiConsult.JoinSeparatorAfter | supabase/functions/multi-consult/index.ts:177 | in the joined text each rendered answer is followed directly by the blank-line separator and then by the next answer |
| MultiConsult.ContextShowsEveryAnswer | supabase/functions/multi-consult/index.ts:177-194 | the summary context starts with "Vraag: " + question and holds "model: text" for every answer, failure placeholders included |
| MultiConsult.ContextOfThreeAnswers | supabase/functions/multi-consult/index.ts:177-194 | for the three answers, the context is "Vraag: q", the heading, then the three renderings separated by blank lines |
| MultiConsult.SummaryEmptyOnlyIfReplyEmpty | supabase/functions/multi-consult/index.ts:200-205 | a failed summary call gives the non-empty fallback; an empty summary only comes from an empty content reply |
| MultiConsult.ServePreflight | supabase/functions/multi-consult/index.ts:210-212 | an OPTIONS request gets the preflight response and no provider is queried |
| MultiConsult.ServeRejectsInvalidQuestion | supabase/functions/multi-consult/index.ts:219-224 | a missing, empty or non-string question gets a 400 with the fixed message, before any provider is queried |
| MultiConsult.ServeAnswersValidQuestion | supabase/functions/multi-consult/index.ts:226-251 | a non-empty string question gets a 200 with the summary of the three answers in order; the calls are GPT, Claude, Grok, then the summary |
| MultiConsult.ServeAcceptsWhitespaceQuestion | supabase/functions/multi-consult/index.ts:219-236 | every non-empty whitespace-only question, which trim() would reduce to "", passes the check at line 219 and is sent unchanged to all three providers |
| MultiConsult.ServeInternalErrorOnlyForUnreadableBody | supabase/functions/multi-consult/index.ts:214-264 | a 500 response occurs exactly when the request body is not JSON or is JSON null |
| ChatComponents.SkipWhitespace | src/components/ChatInput.tsx:18 | the scan for trim's start stops at the first non-whitespace character; everything it passes over is whitespace |
| ChatComponents.BackOverWhitespace | src/components/ChatInput.tsx:18 | the backward scan for trim's end stops after the last non-whitespace character, never before the start; everything it passes over is whitespace |
| ChatComponents.Trim | src/components/ChatInput.tsx:18 | input.trim() is empty exactly when the input is all whitespace; otherwise it neither starts nor ends with whitespace |
| ChatComponents.TrimIsInfix | src/components/ChatInput.tsx:20 | the trimmed text is a contiguous piece of the input with only whitespace around it |
| ChatComponents.AppendTrimmed | src/components/ChatInput.tsx:18-20 | appending the trimmed text of a non-blank input keeps every sent message non-empty and trimmed |
| ChatComponents.TrimIdempotent | src/components/ChatInput.tsx:20 | trimming an already trimmed text changes nothing, so every sent message stays trimmed |
| ChatComponents.ChatInput.constructor | src/components/ChatInput.tsx:12-13 | the buffer starts empty, nothing has been sent, and the loading flag is the prop's value |
| ChatComponents.ChatInput.SendEnabled | src/components/ChatInput.tsx:46 | the send button is enabled exactly when some input character is not whitespace and no consult is loading |
| ChatComponents.ChatInput.SetLoading | src/components/ChatInput.tsx:7-12 | the parent's isLoading prop changes and nothing else does |
| ChatComponents.ChatInput.Edit | src/components/ChatInput.tsx:36-40 | onChange replaces the buffer, except while loading, when the disabled text area ignores edits |
| ChatComponents.ChatInput.Submit | src/components/ChatInput.tsx:15-22 | a submit sends the trimmed input and empties the buffer exactly when the send button is enabled; a blank input or a loading state sends nothing and keeps the buffer; sent messages stay non-empty and trimmed |
| ChatComponents.ChatInput.KeyDown | src/components/ChatInput.tsx:24-29 | Enter without Shift prevents the default and submits; Shift+Enter and other keys change nothing |
| ChatComponents.TypeAndSubmit | src/components/ChatInput.tsx:15-40 | typing a text and submitting sends Trim(text) exactly when not loading and the text is not all whitespace |

## Left out

- HTTP transport, CORS headers, `serve` and the API keys read from `Deno.env`: these are I/O. The network is the parameter `net`, and a request is only its JSON body.
- Concurrency of `Promise.all`: it becomes three independent outcomes in a fixed order. The clock readings of the three calls are arbitrary.
- Per-provider timeouts: the code has none.
- Calls that never settle: `net` is total, so every provider call and the summary call get a reply in the model. In the code such a call would hang `Promise.all` and the handler. ServeAnswersValidQuestion's 200 therefore holds only for calls that settle.
- `performance.now()` floats become integer microseconds. Rounding below one microsecond is not modelled.
- `console.log` and `console.error` output.
- The `details: error.message` field of the 500 response: only the fixed error text is modelled.
- A `usage.total_tokens` that is not a non-negative integer is treated as missing. This covers a `usage` object without the field, and a `null`, string, negative or fractional value. `queryGPT4o` passes such a value through as `tokens` (undefined when the field is absent), where the model gives the GPT failure placeholder. `queryGrok` passes it through when it is truthy, where the model gives the length estimate.
- A reply field that holds a non-string value is treated as missing, so it gives the failure placeholder or the summary fallback. The code behaves differently in three cases:
  - GPT and the summary pass a non-string `content` through as the answer text or the summary.
  - For Claude and Grok, only a `null` or `undefined` text throws at `.length`. A number, boolean, array or object text passes through as the answer text. Claude's `tokens` is then `Math.round(text.length / 4)`, which is NaN unless the value has a numeric `length` (an array, say). Grok's `tokens` is a truthy `usage.total_tokens`, or else that same estimate.
  - A GPT reply whose `message` exists but has no `content`, and whose `usage` can be read, gives an answer with an `undefined` text. `JSON.stringify` then drops the `text` key from that answer in the 200 body. If `usage` cannot be read, the code throws and returns the GPT placeholder, as the model does.
  - A summary reply whose `message` exists but has no `content` gives an `undefined` summary, independently of the provider replies. `JSON.stringify` then drops the `summary` key from the 200 body.
- EstimateTokens: counts Unicode scalar values. JavaScript's `length` counts UTF-16 code units, so the two differ for characters outside the Basic Multilingual Plane.
- JSON numbers in the request's `question` field are reals. Only whether a value is truthy and its `typeof` matter to the handler.
- ChatComponents.ChatInput.Edit: ignores edits while loading because browsers send no input events to a disabled text area. The component's own `onChange` has no such check.
- React's asynchronous state updates and re-rendering: each event handler runs to completion against the current state.
- Everything else in the app: pages, sidebar, message rendering, the mock `aiService` and `ChatContainer`.
