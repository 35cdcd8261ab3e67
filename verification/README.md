# yuanbao-chat2api in Dafny

A model of the completion pipeline of `yuanbao-chat2api`. This is a Rust
service that exposes an OpenAI-compatible `/v1/chat/completions` endpoint
backed by the Yuanbao web chat. The model covers the four pure parts of the
pipeline, and it uses immutable datatypes and pure functions throughout.

- **Prompt composition** (`Prompt`, with `Text` for `str::trim`).
  `impl Display for ChatMessages` folds the request's messages into a single
  upstream prompt.
  - An empty list is an error.
  - A lone message is sent verbatim.
  - Two or more messages become one trimmed `#[role]` block each.
- **Model catalogue** (`Catalog`). The two chat models, their public and
  upstream identifiers, and the parser for public identifiers.
- **Frame classification loop** (`Sse`). `process_sse` becomes a fold over
  a script of upstream items:
  - `Open`
  - a frame with its event name and parsed JSON fields, or `None` when the
    data is not JSON
  - a clean end of stream
  - another transport error
  - a cancellation
  - running out of items

  The fold threads the finish reason, which starts at `"stop"`. Its output
  is the sequence of attempted sends; every send is an append, because the
  source ignores send failures. A loop-shaped
  method (`ProcessSseLoop`) follows the source's `loop`/`match` and is
  proved equal to the fold.
- **Chunk mapping and setup** (`Service`, `Upstream`).
  - The `.map` closure turns each event into one `chat.completion.chunk`.
  - `models` is the static list.
  - `chat_completions` parses the model, builds the upstream chat request
    (body and URL) and streams the chunks.
  - The conversation-creation answer and the upstream item script are
    parameters.

Points where the model follows the code closely:
- **Cancellation.** The loop breaks on cancellation
  (`src/yuanbao.rs:186-189`) and then sends `Finish` unconditionally
  (`src/yuanbao.rs:253-255`). So in the model, `Cancel` ends the fold
  exactly like a clean end of stream (`Sse.StopActsAsEndOfScript`). The
  only canceller is `Drop for MyStream` (`src/service.rs:72-75`), which
  also drops the receiver, so that `Finish` is attempted on a closed
  channel.
- **Empty message list.** An empty message list panics in `to_string()`
  (`src/yuanbao.rs:147`), after the conversation has been created. The
  model reports this case as `SetupError.EmptyPrompt`, in the same order:
  a failed conversation is reported first.
- **Chunk model name.** `src/service.rs:172` calls `to_common_string`, but
  the method is `as_common_string` (`src/yuanbao.rs:97`). The model uses
  `Catalog.PublicId`, which is `as_common_string`.

Whitespace for `trim` is the Unicode `White_Space` class, which is the
class Rust's `str::trim` uses.

## Model

| member | source | states |
|---|---|---|
| Text.TrimStart | src/yuanbao.rs:64-65 | the result is a suffix of the input, every removed character is whitespace, and the result does not start with whitespace |
| Text.TrimEnd | src/yuanbao.rs:64-65 | the result is a prefix of the input, every removed character is whitespace, and the result does not end with whitespace |
| Text.Trim | src/yuanbao.rs:64-65 | the trimmed role or content has no whitespace at either end and is no longer than the input |
| Text.TrimRecoversCore | src/yuanbao.rs:64-65 | trimming removes exactly the whitespace padding: for any whitespace `a` and `b` and any trimmed `t`, `trim(a + t + b) == t` |
| Text.TrimIdempotent | src/yuanbao.rs:64-65 | trimming an already trimmed string changes nothing |
| Catalog.Parse | src/yuanbao.rs:79-87 | `from_str` succeeds on exactly `deepseek-r1` and `deepseek-v3`, fails with the invalid-model error otherwise, and the parsed model's public id is the input |
| Catalog.PublicId | src/yuanbao.rs:97-103 | `as_common_string` always yields one of the two accepted public identifiers |
| Catalog.UpstreamId | src/yuanbao.rs:90-96 | `as_yuanbao_string` never yields a public identifier, so upstream ids are rejected by `from_str` |
| Catalog.ParsePublicIdRoundTrip | src/yuanbao.rs:79-103 | parsing a model's public identifier gives back that model |
| Catalog.PublicIdParseRoundTrip | src/yuanbao.rs:79-103 | every accepted string is the public identifier of the model it parses to |
| Catalog.IdsInjective | src/yuanbao.rs:90-103 | distinct models have distinct public and distinct upstream identifiers (`deep_seek_v3` vs `deep_seek`) |
| Prompt.Compose | src/yuanbao.rs:50-69 | composing fails exactly on the empty list; one message gives its content verbatim, or `""` when it is absent; two or more give a prompt of at least six characters per message |
| Prompt.BlockAtPosition | src/yuanbao.rs:60-67 | a multi-message prompt has one `#[trim(role)]\n trim(content)\n\n` block per message, in input order: the blocks before message `i`, then its block, then the blocks after it |
| Prompt.BlocksSplit | src/yuanbao.rs:60-67 | the blocks of a concatenated message list are the concatenation of the two lists' blocks |
| Prompt.BlocksFrame | src/yuanbao.rs:60-67 | a multi-message prompt starts with `#[` and ends with a blank line |
| Prompt.ComposeIgnoresReasoning | src/yuanbao.rs:45-69 | two message lists that agree on every role and content compose alike, so `reasoning_content` never reaches the prompt |
| Prompt.PaddingKeptOnlyWhenAlone | src/yuanbao.rs:56-66 | a content padded with any whitespace on either side is sent with its padding when it is the only message, and trimmed when the same message appears in a two-message list |
| Sse.Describe | src/yuanbao.rs:244-247 | an error event's message is `Error on stream: ` followed by the transport error's text, which can be read back off the message |
| Sse.Classify | src/yuanbao.rs:197-234 | only parsed frames named `message` have an effect; frames forward only message events, never an error or a finish; a forwarded reasoning fragment is non-empty; a frame sets the finish reason exactly when it is a non-think, non-text status frame with a non-empty `stopReason`, and then sets it to that value |
| Sse.Run | src/yuanbao.rs:179-255 | from any point of the loop, the output is non-empty and its last event is a `Finish` |
| Sse.RunFinishesOnce | src/yuanbao.rs:179-255 | from any point of the loop, no `Finish` is forwarded before the last event |
| Sse.ProcessSse | src/yuanbao.rs:174-256 | for every item script, the forwarded events end with exactly one `Finish` and contain no earlier `Finish` |
| Sse.Consumed | src/yuanbao.rs:180-194 | the consumed items are the longest prefix without a clean end or cancellation, and a stopping item follows them unless the script ran out |
| Sse.RunShape | src/yuanbao.rs:180-255 | everything before the final `Finish` is the in-order events of the consumed items |
| Sse.EmittedAllSplit | src/yuanbao.rs:180-251 | the events of concatenated item sequences are the concatenation of their events (order is preserved) |
| Sse.RunSeesOnlyConsumed | src/yuanbao.rs:180-241 | the output depends only on the items before the first clean end or cancellation |
| Sse.StopActsAsEndOfScript | src/yuanbao.rs:180-255 | a clean end or a cancellation after some items ends the loop as if the script ended there: `Finish` is still sent, and later items are ignored |
| Sse.StopFinishesAtOnce | src/yuanbao.rs:186-241 | a clean end or a cancellation sends `Finish` with the current reason at once, with no `Error` |
| Sse.FinishKeepsReason | src/yuanbao.rs:179-255 | with no consumed status frame reporting a stop reason, the final `Finish` carries the starting reason (`"stop"` for `ProcessSse`) |
| Sse.FinishTakesLastReported | src/yuanbao.rs:228-255 | otherwise the final `Finish` carries the `stopReason` of the last consumed status frame that reports one |
| Sse.SilentItemIgnored | src/yuanbao.rs:196-233 | these forward nothing and leave the finish reason unchanged: `Open`, frames not named `message`, non-JSON frames, `think` frames with empty or missing content, and status frames without a stop reason |
| Sse.TextAlwaysForwarded | src/yuanbao.rs:219-227 | a `text` frame always forwards an answer fragment with its `msg`, or `""` when `msg` is missing, and the loop continues |
| Sse.ThinkForwarded | src/yuanbao.rs:207-218 | a `think` frame with content forwards a reasoning fragment with that content |
| Sse.StatusSetsReason | src/yuanbao.rs:228-233 | a status frame with a non-empty stop reason forwards nothing and replaces the finish reason |
| Sse.TransportErrorContinues | src/yuanbao.rs:242-249 | a transport error other than a clean end forwards one `Error` and the loop continues |
| Sse.ErrorsMatchTransportErrors | src/yuanbao.rs:237-250 | the `Error` events of the output are exactly the consumed transport errors, one each, in arrival order |
| Sse.ThinkFragmentsNonEmpty | src/yuanbao.rs:207-211 | no reasoning fragment in the output is empty |
| Sse.Consume | src/yuanbao.rs:195-251 | one loop iteration forwards at most one event, changes the reason only when it forwards nothing, and agrees with the fold's step |
| Sse.ProcessSseLoop | src/yuanbao.rs:179-255 | the source-shaped loop forwards exactly what the fold does, so `Finish` comes once and last |
| Sse.ScriptedUpstreamEvents | src/yuanbao.rs:174-256 | for any non-empty reasoning fragments and stop reason, an opening, two `think` frames, a `text` frame, a status frame and a clean end yield the two reasoning fragments, the answer and a `Finish` with the reported reason, in that order |
| Upstream.ChatUrl | src/yuanbao.rs:163 | substituting the conversation id into the chat URL template yields `https://yuanbao.tencent.com/api/chat/` followed by the id |
| Upstream.ReplaceAll | src/yuanbao.rs:163 | `str::replace` with a non-empty pattern; the body replaces non-overlapping occurrences left to right, and the contract states only that replacing the pattern by itself leaves any string unchanged |
| Upstream.FillTemplate | src/yuanbao.rs:163 | `str::replace` of `{}` in the chat URL template by the id yields the fixed prefix followed by the id |
| Upstream.ReplaceAllSkipsPrefix | src/yuanbao.rs:163 | `str::replace` copies a prefix unchanged when that prefix cannot start the pattern |
| Upstream.ChatUrlInjective | src/yuanbao.rs:163 | the conversation id can be read back off the chat URL, so distinct conversations post to distinct URLs |
| Upstream.Body | src/yuanbao.rs:148-162 | the composed prompt fills both `prompt` and `displayPrompt`, `agentId` comes from the configuration, and `chatModelId` is the model's upstream id (`as_yuanbao_string`), which is not a public model name |
| Upstream.CreateCompletion | src/yuanbao.rs:136-163 | a failed conversation stops setup first; then an empty message list stops it; setup succeeds exactly when the conversation was created and the list is non-empty, and then the request goes to the conversation's URL, its prompt is the composed prompt and its `chatModelId` is the model's upstream id |
| Service.Models | src/service.rs:83-98 | the model list has two distinct entries, each with object `model` and owner `deepseek`, and each id is accepted by `from_str` |
| Service.ModelsCoverCatalog | src/service.rs:83-98 | every catalogue model's public id is listed |
| Service.ToChunk | src/service.rs:132-176 | every chunk has the stream's id, creation time and public model name, object `chat.completion.chunk`, one choice with index 0 and an assistant delta that never carries both content and reasoning; `finish_reason` is present exactly for errors and the finish |
| Service.ChunkReadBack | src/service.rs:139-162 | a reasoning fragment, an answer fragment or a finish can be read back unchanged from its chunk; an error reads back as a finish whose reason is `Error on stream: ` plus the error text |
| Service.MapEvents | src/service.rs:127-177 | the chunk stream has one chunk per event, in order |
| Service.CompletionChunksEndWithFinish | src/service.rs:132-177 | the streamed chunks end with one finish chunk that has the loop's final reason and an empty delta; before it, only error chunks carry a `finish_reason` |
| Service.ChatCompletions | src/service.rs:100-178 | the call fails with an unknown-model error exactly when `from_str` rejects the model; with a valid model, a failed conversation is reported as a setup error, and with a created conversation the call succeeds exactly when the message list is non-empty (an empty one gives the empty-prompt setup error); on success the request is the setup's, and there is one chunk per forwarded event, each with the call's id, creation time and the model name the client sent; what each chunk carries is stated by `Service.CompletionStreamsEvents` |
| Service.CompletionStreamsEvents | src/service.rs:123-177 | a successful call streams the loop's events in order: chunk `i` reads back as event `i` (an error as a finish with its message), the last chunk is the empty-delta finish chunk with the loop's final reason, and before it only error chunks carry a `finish_reason` |
| Service.ScriptedCompletion | src/service.rs:100-178 | end to end, the run with conversation `abc123` posts the single message verbatim to `.../api/chat/abc123` with `chatModelId` `deep_seek`, then streams two reasoning chunks, one answer chunk and a `length` finish chunk |
| Service.ConversationFailureStreamsNothing | src/service.rs:110-123 | with a valid model, a failed conversation request ends the call with that error, and no chat request or chunk is produced |

## Left out

- HTTP and the network: `create_conversation` (`src/yuanbao.rs:120-135`),
  the reqwest client, the request headers (`make_headers`), and opening the
  event source. The answer to the conversation request is a parameter
  (`Success(id)` or `Failure(cause)`). The failure of `EventSource::new`
  ("failed to get next event") is not modelled.
- Sse.ProcessSse: is the sequence of attempted sends, not what a consumer
  receives. Only the clean-end path delivers `Finish` to a live consumer.
  After a cancellation the receiver is already gone. When the upstream runs
  dry without a clean end, `select!` keeps waiting on `cancelled()`, so the
  source sends `Finish` only after the consumer disconnects; the model ends
  the fold at the end of the script instead.
- Concurrency: `tokio::spawn`, the `select!` race, the unbounded channel,
  `CancellationToken`, and `MyStream`'s `poll_next` and `Drop`.
  - A cancellation is an item of the script.
  - A failed send is ignored in the source, so sends are appends.
- JSON parsing and serialisation.
  - A frame's data is `Option<Payload>`, whose fields are `None` when they
    are missing or not JSON strings.
  - The `multimedia: []` field of the chat body is left implicit.
  - Chunks are records, not serialised text.
- Error rendering: a transport error is reduced to the text it displays as.
  Its chunk reason is `"Error on stream: "` followed by that text, which is
  what `{:#}` prints for the single-message error the loop builds.
- Configuration loading, UUIDs and the clock. The configuration, the chunk
  id and the creation time are parameters. The `u64`-to-`i64` cast of the
  time is not modelled.
- The HTTP handler that turns a failed call into status 400, the
  `CLEAR_URL` constant (unused), logging, and `main.rs`.
- The panic on an empty message list is reported as the `EmptyPrompt` setup
  error.
