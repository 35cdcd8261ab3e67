/** The OpenAI-compatible face of the service: the static model list, and
    `chat_completions`, which parses the model, sets up the upstream
    completion and maps every forwarded event to one streamed chunk. */
module Service {
  import opened Wrappers
  import opened Catalog
  import opened Prompt
  import opened Sse
  import opened Upstream

  /** One entry of `GET /v1/models`. */
  datatype ModelEntry = ModelEntry(id: string, objectType: string, ownedBy: string)

  datatype ModelList = ModelList(objectType: string, data: seq<ModelEntry>)

  /** The decoded body of `POST /v1/chat/completions`. */
  datatype CompletionRequest = CompletionRequest(messages: seq<ChatMessage>, model: string, stream: bool)

  /** One choice of a chunk; the delta reuses the chat message shape. */
  datatype Choice = Choice(finishReason: Option<string>, index: nat, delta: ChatMessage)

  /** One streamed `chat.completion.chunk`. */
  datatype Chunk = Chunk(id: string, choices: seq<Choice>, created: int, model: string, objectType: string)

  /** What every chunk of one stream shares: a fresh id, the creation time
      in seconds and the requested model. */
  datatype StreamContext = StreamContext(id: string, created: int, model: ChatModel)

  datatype ServiceError = UnknownModel | CannotCreateCompletion(setup: SetupError)

  /** A successful call: the request posted upstream and the chunks streamed back. */
  datatype Completion = Completion(request: ChatRequest, chunks: seq<Chunk>)

  const ChunkObject: string := "chat.completion.chunk"
  const Assistant: string := "assistant"

  /** `models`: the catalogue as the OpenAI model list. */
  function Models(): (r: ModelList)
    ensures |r.data| == 2 && r.objectType == "list"
    ensures forall i :: 0 <= i < |r.data| ==> Parse(r.data[i].id).Success?
    ensures forall i :: 0 <= i < |r.data| ==> r.data[i].objectType == "model" && r.data[i].ownedBy == "deepseek"
    ensures r.data[0].id != r.data[1].id
  {
    ModelList("list", [
      ModelEntry("deepseek-v3", "model", "deepseek"),
      ModelEntry("deepseek-r1", "model", "deepseek")
    ])
  }

  /** Every model of the catalogue is listed. */
  lemma ModelsCoverCatalog(m: ChatModel)
    ensures exists i :: 0 <= i < |Models().data| && Models().data[i].id == PublicId(m)
  {
    var data := Models().data;
    if m == DeepSeekV3 { assert data[0].id == PublicId(m); } else { assert data[1].id == PublicId(m); }
  }

  /** An assistant delta with neither content nor reasoning. */
  const EmptyDelta: ChatMessage := ChatMessage(Assistant, None, None)

  /** The chunk one event becomes: a reasoning fragment fills
      `reasoning_content`, an answer fragment fills `content`, and an error
      or the finish becomes an empty delta whose `finish_reason` is the
      error's message or the finish reason. */
  function ToChunk(ctx: StreamContext, event: ChatCompletionEvent): (c: Chunk)
    ensures c.id == ctx.id && c.created == ctx.created && c.model == PublicId(ctx.model)
    ensures c.objectType == ChunkObject && |c.choices| == 1 && c.choices[0].index == 0
    ensures c.choices[0].delta.role == Assistant
    ensures c.choices[0].delta.content.None? || c.choices[0].delta.reasoningContent.None?
    ensures c.choices[0].finishReason.Some? <==> !event.Message?
  {
    var choice :=
      match event
      case Message(Think, text) => Choice(None, 0, ChatMessage(Assistant, None, Some(text)))
      case Message(Msg, text) => Choice(None, 0, ChatMessage(Assistant, Some(text), None))
      case Error(e) => Choice(Some(Describe(e)), 0, EmptyDelta)
      case Finish(reason) => Choice(Some(reason), 0, EmptyDelta);
    Chunk(ctx.id, [choice], ctx.created, PublicId(ctx.model), ChunkObject)
  }

  /** What a client reads off a chunk: a reasoning or answer fragment, or a
      finish with the given reason. */
  function ReadChunk(c: Chunk): Option<ChatCompletionEvent> {
    if |c.choices| != 1 then None
    else
      var choice := c.choices[0];
      match (choice.delta.reasoningContent, choice.delta.content, choice.finishReason)
      case (Some(t), None, None) => Some(Message(Think, t))
      case (None, Some(t), None) => Some(Message(Msg, t))
      case (None, None, Some(f)) => Some(Finish(f))
      case _ => None
  }

  /** Fragments and the finish survive the mapping unchanged; an error
      reaches the client as a finish whose reason is the error's message. */
  lemma ChunkReadBack(ctx: StreamContext, event: ChatCompletionEvent)
    ensures !event.Error? ==> ReadChunk(ToChunk(ctx, event)) == Some(event)
    ensures event.Error? ==> ReadChunk(ToChunk(ctx, event)) == Some(Finish(Describe(event.error)))
  {
  }

  /** The mapped stream: one chunk per event, in order. */
  function MapEvents(ctx: StreamContext, events: seq<ChatCompletionEvent>): (chunks: seq<Chunk>)
    ensures |chunks| == |events|
    ensures forall i :: 0 <= i < |events| ==> chunks[i] == ToChunk(ctx, events[i])
  {
    if events == [] then [] else [ToChunk(ctx, events[0])] + MapEvents(ctx, events[1..])
  }

  /** `chat_completions`: parse the model, set up the upstream completion
      (given the answer to the conversation request), then stream one chunk
      per event the consume loop forwards for the upstream `script`. */
  function ChatCompletions(config: Config, req: CompletionRequest, conversation: Result<string, string>,
                           id: string, created: int, script: seq<Item>): (r: Result<Completion, ServiceError>)
    ensures Parse(req.model).Failure? <==> r == Failure(UnknownModel)
    ensures Parse(req.model).Success? && conversation.Failure? ==>
              r == Failure(CannotCreateCompletion(CannotCreateConversation(conversation.error)))
    ensures Parse(req.model).Success? && conversation.Success? ==> (r.Success? <==> req.messages != [])
    ensures Parse(req.model).Success? && conversation.Success? && req.messages == [] ==>
              r == Failure(CannotCreateCompletion(EmptyPrompt))
    ensures r.Success? ==> CreateCompletion(config, req.messages, Parse(req.model).value, conversation) == Success(r.value.request)
    ensures r.Success? ==> |r.value.chunks| == |ProcessSse(script)|
    ensures r.Success? ==> forall i :: 0 <= i < |r.value.chunks| ==>
              r.value.chunks[i].id == id && r.value.chunks[i].created == created && r.value.chunks[i].model == req.model
  {
    match Parse(req.model)
    case Failure(_) => Failure(UnknownModel)
    case Success(model) =>
      match CreateCompletion(config, req.messages, model, conversation)
      case Failure(e) => Failure(CannotCreateCompletion(e))
      case Success(request) =>
        Success(Completion(request, MapEvents(StreamContext(id, created, model), ProcessSse(script))))
  }

  /** The streamed chunks of one completion end with a single finish chunk
      carrying the loop's final reason and an empty delta; a fragment chunk
      never carries a finish reason, and the only other chunks that do are
      the ones for transport errors. */
  lemma CompletionChunksEndWithFinish(ctx: StreamContext, script: seq<Item>)
    ensures var events := ProcessSse(script);
            var chunks := MapEvents(ctx, events);
            && |chunks| == |events| >= 1
            && chunks[|chunks| - 1].choices[0].finishReason == Some(events[|events| - 1].reason)
            && chunks[|chunks| - 1].choices[0].delta == EmptyDelta
            && forall i :: 0 <= i < |chunks| - 1 && chunks[i].choices[0].finishReason.Some? ==> events[i].Error?
  {
  }

  /** What the client reads off the chunk of an event: the event itself,
      except that an error arrives as a finish with the error's message. */
  function Delivered(event: ChatCompletionEvent): ChatCompletionEvent {
    if event.Error? then Finish(Describe(event.error)) else event
  }

  /** A successful call streams the consume loop's events in order: chunk
      `i` reads back as event `i`, the last chunk is the finish chunk with
      the loop's final reason, and before it only error chunks carry a
      `finish_reason`. */
  lemma CompletionStreamsEvents(config: Config, req: CompletionRequest, conversation: Result<string, string>,
                                id: string, created: int, script: seq<Item>)
    ensures var r := ChatCompletions(config, req, conversation, id, created, script);
            var events := ProcessSse(script);
            r.Success? ==>
              && |r.value.chunks| == |events| >= 1
              && (forall i :: 0 <= i < |r.value.chunks| ==> ReadChunk(r.value.chunks[i]) == Some(Delivered(events[i])))
              && r.value.chunks[|events| - 1].choices[0].finishReason == Some(events[|events| - 1].reason)
              && r.value.chunks[|events| - 1].choices[0].delta == EmptyDelta
              && forall i :: 0 <= i < |events| - 1 && r.value.chunks[i].choices[0].finishReason.Some? ==> events[i].Error?
  {
    var r := ChatCompletions(config, req, conversation, id, created, script);
    if r.Success? {
      var ctx := StreamContext(id, created, Parse(req.model).value);
      var events := ProcessSse(script);
      var chunks := MapEvents(ctx, events);
      assert r.value.chunks == chunks;
      CompletionChunksEndWithFinish(ctx, script);
      forall i | 0 <= i < |chunks|
        ensures ReadChunk(chunks[i]) == Some(Delivered(events[i]))
      {
        ChunkReadBack(ctx, events[i]);
      }
    }
  }

  /** A scripted run: the conversation `abc123` is created, the upstream
      sends two reasoning fragments, an answer and a `length` status, then
      ends. */
  lemma ScriptedCompletion(config: Config, id: string, created: int)
    ensures var req := CompletionRequest([ChatMessage("user", Some("question"), None)], "deepseek-r1", true);
            var r := ChatCompletions(config, req, Success("abc123"), id, created, ScriptedUpstream("Let", " me think", "42", "length"));
            && r.Success?
            && r.value.request.url == ChatUrlPrefix + "abc123"
            && r.value.request.body.prompt == "question"
            && r.value.request.body.chatModelId == "deep_seek"
            && |r.value.chunks| == 4
            && r.value.chunks[0].choices[0].delta.reasoningContent == Some("Let")
            && r.value.chunks[1].choices[0].delta.reasoningContent == Some(" me think")
            && r.value.chunks[2].choices[0].delta.content == Some("42")
            && r.value.chunks[3].choices[0].finishReason == Some("length")
  {
    ScriptedUpstreamEvents("Let", " me think", "42", "length");
  }

  /** A failed conversation request ends the call with an error; no chat
      request is built and nothing is streamed. */
  lemma ConversationFailureStreamsNothing(config: Config, req: CompletionRequest, cause: string,
                                          id: string, created: int, script: seq<Item>)
    requires Parse(req.model).Success?
    ensures ChatCompletions(config, req, Failure(cause), id, created, script)
         == Failure(CannotCreateCompletion(CannotCreateConversation(cause)))
  {
  }
}
