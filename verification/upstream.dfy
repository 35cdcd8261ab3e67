/** The setup half of `create_completion`: the upstream chat request built
    from a fresh conversation id, the composed prompt and the model. */
module Upstream {
  import opened Wrappers
  import opened Catalog
  import opened Prompt

  /** The credentials read from the configuration file. */
  datatype Config = Config(agentId: string, hyUser: string, hyToken: string)

  /** `options.imageIntention` of the chat body. */
  datatype ImageIntention = ImageIntention(needIntentionModel: bool, backendUpdateFlag: int, intentionStatus: bool)

  /** The JSON body posted to the chat endpoint (`multimedia` is always the
      empty array and is left implicit). */
  datatype ChatBody = ChatBody(
    model: string,
    prompt: string,
    plugin: string,
    displayPrompt: string,
    displayPromptType: int,
    imageIntention: ImageIntention,
    agentId: string,
    supportHint: int,
    version: string,
    chatModelId: string)

  datatype ChatRequest = ChatRequest(url: string, body: ChatBody)

  /** Why setup stops before any streaming: the conversation could not be
      created, or there was no message to compose (where the source
      panics). */
  datatype SetupError = CannotCreateConversation(cause: string) | EmptyPrompt

  const ChatUrlTemplate: string := "https://yuanbao.tencent.com/api/chat/{}"
  const ChatUrlPrefix: string := "https://yuanbao.tencent.com/api/chat/"
  const Placeholder: string := "{}"

  /** Rust's `str::replace` for a non-empty pattern: every non-overlapping
      occurrence, scanning left to right, is replaced, so replacing the
      pattern by itself changes nothing. */
  function ReplaceAll(s: string, pat: string, rep: string): (r: string)
    requires pat != []
    ensures rep == pat ==> r == s
    decreases |s|
  {
    if |s| < |pat| then s
    else if s[..|pat|] == pat then rep + ReplaceAll(s[|pat|..], pat, rep)
    else [s[0]] + ReplaceAll(s[1..], pat, rep)
  }

  /** A prefix that cannot start the pattern anywhere passes through
      unchanged. */
  lemma {:induction false} ReplaceAllSkipsPrefix(a: string, t: string, pat: string, rep: string)
    requires pat != []
    requires pat[0] !in a
    ensures ReplaceAll(a + t, pat, rep) == a + ReplaceAll(t, pat, rep)
    decreases |a|
  {
    if a != [] {
      var s := a + t;
      var rest := ReplaceAll(t, pat, rep);
      assert s[1..] == a[1..] + t;
      ReplaceAllSkipsPrefix(a[1..], t, pat, rep);
      if |s| >= |pat| {
        assert s[..|pat|][0] == a[0];
        assert s[..|pat|] != pat;
      }
      assert ReplaceAll(s, pat, rep) == [a[0]] + ReplaceAll(s[1..], pat, rep);
      assert [a[0]] + (a[1..] + rest) == a + rest;
    } else {
      assert a + t == t;
    }
  }

  /** The chat endpoint of a conversation: the template with its
      placeholder replaced by the id. */
  function ChatUrl(conversationId: string): (url: string)
    ensures url == ChatUrlPrefix + conversationId
  {
    FillTemplate(conversationId);
    ReplaceAll(ChatUrlTemplate, Placeholder, conversationId)
  }

  /** The template is the prefix followed by the placeholder, and the
      prefix holds no `{`. */
  lemma FillTemplate(conversationId: string)
    ensures ReplaceAll(ChatUrlTemplate, Placeholder, conversationId) == ChatUrlPrefix + conversationId
  {
    assert ChatUrlPrefix + Placeholder == ChatUrlTemplate;
    PrefixHasNoBrace();
    ReplaceAllSkipsPrefix(ChatUrlPrefix, Placeholder, Placeholder, conversationId);
    ReplacePlaceholder(conversationId);
  }

  lemma PrefixHasNoBrace()
    ensures '{' !in ChatUrlPrefix
  {
    assert ChatUrlPrefix == "https://yuanbao." + "tencent.com" + "/api/chat/";
    assert '{' !in "https://yuanbao.";
    assert '{' !in "tencent.com";
    assert '{' !in "/api/chat/";
  }

  lemma ReplacePlaceholder(conversationId: string)
    ensures ReplaceAll(Placeholder, Placeholder, conversationId) == conversationId
  {
    assert Placeholder[..|Placeholder|] == Placeholder;
    assert ReplaceAll(Placeholder, Placeholder, conversationId)
        == conversationId + ReplaceAll(Placeholder[2..], Placeholder, conversationId);
    assert Placeholder[2..] == [];
  }

  /** Distinct conversations are posted to distinct endpoints, and the
      conversation id can be read back off the URL. */
  lemma ChatUrlInjective(a: string, b: string)
    ensures ChatUrl(a)[|ChatUrlPrefix|..] == a
    ensures ChatUrl(a) == ChatUrl(b) ==> a == b
  {
    assert (ChatUrlPrefix + a)[|ChatUrlPrefix|..] == a;
    assert (ChatUrlPrefix + b)[|ChatUrlPrefix|..] == b;
  }

  /** The chat body for a prompt: the prompt fills both prompt fields, the
      model's upstream id fills `chatModelId`, the rest is fixed. */
  function Body(config: Config, prompt: string, model: ChatModel): (b: ChatBody)
    ensures b.prompt == b.displayPrompt == prompt
    ensures b.chatModelId == UpstreamId(model) && Parse(b.chatModelId).Failure?
    ensures b.agentId == config.agentId
  {
    ChatBody(
      model := "gpt_175B_0404",
      prompt := prompt,
      plugin := "Adaptive",
      displayPrompt := prompt,
      displayPromptType := 1,
      imageIntention := ImageIntention(true, 2, true),
      agentId := config.agentId,
      supportHint := 1,
      version := "v2",
      chatModelId := UpstreamId(model))
  }

  /** The setup of `create_completion` once the conversation request has
      been answered with `conversation`: a failed conversation stops setup
      first; otherwise the messages are composed and the chat request built. */
  function CreateCompletion(config: Config, messages: seq<ChatMessage>, model: ChatModel,
                            conversation: Result<string, string>): (r: Result<ChatRequest, SetupError>)
    ensures conversation.Failure? ==> r == Failure(CannotCreateConversation(conversation.error))
    ensures conversation.Success? && messages == [] ==> r == Failure(EmptyPrompt)
    ensures r.Success? <==> conversation.Success? && messages != []
    ensures r.Success? ==> r.value.url == ChatUrlPrefix + conversation.value
    ensures r.Success? ==> Compose(messages) == Success(r.value.body.prompt)
    ensures r.Success? ==> r.value.body.chatModelId == UpstreamId(model)
  {
    match conversation
    case Failure(cause) => Failure(CannotCreateConversation(cause))
    case Success(id) =>
      match Compose(messages)
      case Failure(_) => Failure(EmptyPrompt)
      case Success(prompt) => Success(ChatRequest(ChatUrl(id), Body(config, prompt, model)))
  }
}
