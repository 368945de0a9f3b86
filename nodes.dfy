/**
 * The node functions of the chatroom graph (chatroom/src/agent/nodes.py).
 * Each returns a partial update of the state; the hosted chat model is a
 * parameter, `ChatModel`, about whose output nothing is known.
 */
module Nodes {
  import opened Wrappers
  import opened State
  import opened Configuration

  /** A `KeyError` raised while reading the state or an inbound mapping. */
  datatype NodeError = MissingKey(key: string)

  datatype Role = System | User

  /** One `{"role": ..., "content": ...}` entry of a chat request. */
  datatype PromptMessage = PromptMessage(role: Role, content: string)

  /** The hosted chat model: model name, temperature and request in, reply text out. */
  type ChatModel = (string, Temperature, seq<PromptMessage>) -> string

  const UserSender := "user"
  const UserFramingPrefix := "The user says: "
  const UserFramingSuffix := ". Repond to the message"
  const PeerFramingInfix := " says: "
  const PeerFramingSuffix := ". Respond to the message, or say nothing if you don't have an answer."

  // ---------------------------------------------------------------------
  // user_input

  /**
   * Turns the inbound message into a `ChatMessage`.  A mapping's sender is its
   * "sender" entry when that is non-empty, else its "type" entry, else "user";
   * a mapping without "content" raises `KeyError`.
   */
  function Normalize(inbound: Inbound): (r: Result<ChatMessage, NodeError>)
    ensures inbound.Structured? ==> r == Ok(inbound.message)
    ensures inbound.Mapping? ==> (r.Ok? <==> "content" in inbound.entries)
    ensures inbound.Mapping? && r.Ok? ==> r.value.content == inbound.entries["content"]
    ensures inbound.Mapping? && r.Err? ==> r.error == MissingKey("content")
  {
    match inbound
    case Structured(m) => Ok(m)
    case Mapping(d) =>
      var sender :=
        if "sender" in d && d["sender"] != "" then d["sender"]
        else if "type" in d then d["type"]
        else UserSender;
      if "content" in d then Ok(ChatMessage(sender, d["content"]))
      else Err(MissingKey("content"))
  }

  /** The mapping a `ChatMessage` serializes to. */
  function AsMapping(m: ChatMessage): map<string, string>
  {
    map["sender" := m.sender, "content" := m.content]
  }

  /** A message serialized with a non-empty sender normalizes back to itself. */
  lemma NormalizeRoundTrip(m: ChatMessage)
    requires m.sender != ""
    ensures Normalize(Mapping(AsMapping(m))) == Ok(m)
  {
  }

  /** A "type"-keyed mapping normalizes to a message whose sender is the type. */
  lemma NormalizeTypeKeyed(t: string, c: string)
    ensures Normalize(Mapping(map["type" := t, "content" := c])) == Ok(ChatMessage(t, c))
  {
  }

  /** The sender falls back in order: non-empty "sender", then "type", then "user". */
  lemma NormalizeSenderFallback(d: map<string, string>)
    requires "content" in d
    ensures "sender" in d && d["sender"] != "" ==> Normalize(Mapping(d)).value.sender == d["sender"]
    ensures ("sender" !in d || d["sender"] == "") && "type" in d ==> Normalize(Mapping(d)).value.sender == d["type"]
    ensures ("sender" !in d || d["sender"] == "") && "type" !in d ==> Normalize(Mapping(d)).value.sender == UserSender
  {
  }

  /**
   * `user_input`: seeds both personas' queries with the same normalized user
   * message and writes nothing else.
   */
  function UserInput(s: ChatroomState): (r: Result<Update, NodeError>)
    ensures s.userMessage.None? ==> r == Err(MissingKey("user_message"))
    ensures s.userMessage.Some? ==> (r.Ok? <==> Normalize(s.userMessage.value).Ok?)
    ensures s.userMessage.Some? && r.Err? ==> r.error == Normalize(s.userMessage.value).error
    ensures r.Ok? ==> Keys(r.value) == {MessageField(ModelAQuery), MessageField(ModelBQuery)}
    ensures r.Ok? ==> r.value.fields[ModelAQuery] == Normalize(s.userMessage.value).value
    ensures r.Ok? ==> r.value.fields[ModelBQuery] == r.value.fields[ModelAQuery]
  {
    match s.userMessage
    case None => Err(MissingKey(KeyName(UserMessage)))
    case Some(inbound) =>
      match Normalize(inbound)
      case Err(e) => Err(e)
      case Ok(m) => Ok(Update(None, map[ModelAQuery := m, ModelBQuery := m], None))
  }

  // ---------------------------------------------------------------------
  // prepare_reactions and human_turn

  /**
   * `prepare_reactions`: each persona's next query is the other persona's
   * response.  `model_b_response` is read first, so it is the key reported
   * when both are missing.
   */
  function PrepareReactions(s: ChatroomState): (r: Result<Update, NodeError>)
    ensures r.Ok? <==> ModelAResponse in s.fields && ModelBResponse in s.fields
    ensures ModelBResponse !in s.fields ==> r == Err(MissingKey("model_b_response"))
    ensures ModelBResponse in s.fields && ModelAResponse !in s.fields ==> r == Err(MissingKey("model_a_response"))
    ensures r.Ok? ==> Keys(r.value) == {MessageField(ModelAQuery), MessageField(ModelBQuery)}
    ensures r.Ok? ==> r.value.fields[ModelAQuery] == s.fields[ModelBResponse]
    ensures r.Ok? ==> r.value.fields[ModelBQuery] == s.fields[ModelAResponse]
  {
    if ModelBResponse !in s.fields then Err(MissingKey(KeyName(MessageField(ModelBResponse))))
    else if ModelAResponse !in s.fields then Err(MissingKey(KeyName(MessageField(ModelAResponse))))
    else Ok(Update(None, map[ModelAQuery := s.fields[ModelBResponse], ModelBQuery := s.fields[ModelAResponse]], None))
  }

  /** `human_turn`: the placeholder node returns an empty update. */
  function HumanTurn(s: ChatroomState): (u: Update)
    ensures Keys(u) == {}
    ensures Apply(s, u) == s
  {
    ApplyNoUpdate(s);
    NoUpdate()
  }

  // ---------------------------------------------------------------------
  // respond

  predicate EndsWith(s: string, suffix: string)
  {
    |suffix| <= |s| && s[|s| - |suffix|..] == suffix
  }

  predicate StartsWith(s: string, prefix: string)
  {
    |prefix| <= |s| && s[..|prefix|] == prefix
  }

  /** The text a prompt quotes: its framing suffix removed. */
  function Utterance(prompt: string): string
  {
    if EndsWith(prompt, UserFramingSuffix) then prompt[..|prompt| - |UserFramingSuffix|]
    else if EndsWith(prompt, PeerFramingSuffix) then prompt[..|prompt| - |PeerFramingSuffix|]
    else prompt
  }

  /** Who a prompt says is speaking: "The user", or the sender's own name. */
  function Speaker(query: ChatMessage): string
  {
    if query.sender == UserSender then "The user" else query.sender
  }

  /**
   * The user-role text of the request.  A query from "user" is framed as a
   * message to answer (with the source's spelling "Repond"); any other sender
   * is framed as a remark the persona may leave unanswered.  The framing
   * tells the two apart, and what it quotes is "<speaker> says: <content>".
   */
  function QueryPrompt(query: ChatMessage): (prompt: string)
    ensures EndsWith(prompt, UserFramingSuffix) <==> query.sender == UserSender
    ensures EndsWith(prompt, PeerFramingSuffix) <==> query.sender != UserSender
    ensures Utterance(prompt) == Speaker(query) + PeerFramingInfix + query.content
  {
    if query.sender == UserSender then
      var p := UserFramingPrefix + query.content + UserFramingSuffix;
      assert p[|p| - 1] == 'e';
      p
    else
      var p := query.sender + PeerFramingInfix + query.content + PeerFramingSuffix;
      assert p[|p| - 1] == '.';
      p
  }

  /** Reads a user-framed prompt back into the query it was built from. */
  function ReadUserPrompt(prompt: string): Option<ChatMessage>
  {
    if |UserFramingPrefix| + |UserFramingSuffix| <= |prompt|
       && StartsWith(prompt, UserFramingPrefix) && EndsWith(prompt, UserFramingSuffix)
    then Some(ChatMessage(UserSender, prompt[|UserFramingPrefix|..|prompt| - |UserFramingSuffix|]))
    else None
  }

  /** A user query's prompt determines the query. */
  lemma UserPromptRoundTrip(query: ChatMessage)
    requires query.sender == UserSender
    ensures ReadUserPrompt(QueryPrompt(query)) == Some(query)
  {
    var p := QueryPrompt(query);
    assert p == UserFramingPrefix + query.content + UserFramingSuffix;
    assert p[|UserFramingPrefix|..|p| - |UserFramingSuffix|] == query.content;
  }

  /** The request sent to the model: the persona's system prompt, then the framed query. */
  function Request(config: ChatbotConfig, query: ChatMessage): (messages: seq<PromptMessage>)
    ensures |messages| == 2
    ensures messages[0].role == System && messages[0].content == config.systemPrompt
    ensures messages[1].role == User
    ensures EndsWith(messages[1].content, UserFramingSuffix) <==> query.sender == UserSender
    ensures Utterance(messages[1].content) == Speaker(query) + PeerFramingInfix + query.content
  {
    [PromptMessage(System, config.systemPrompt), PromptMessage(User, QueryPrompt(query))]
  }

  /** A query from anyone but the user is sent with the peer framing. */
  lemma PeerRequest(config: ChatbotConfig, query: ChatMessage)
    requires query.sender != UserSender
    ensures EndsWith(Request(config, query)[1].content, PeerFramingSuffix)
  {
    assert Request(config, query)[1].content == QueryPrompt(query);
  }

  /**
   * `respond` for one persona: the reply is stamped with the persona's name
   * and carries the model's answer to `Request(config, query)`; the history
   * passed alongside the query is not used.
   */
  function Respond(config: ChatbotConfig, state: ChatbotState, model: ChatModel): (r: ChatbotUpdate)
    ensures r.response.sender == config.assistantName
    ensures r.response.content == model(config.modelName, config.temperature, Request(config, state.query))
  {
    ChatbotUpdate(ChatMessage(config.assistantName,
      model(config.modelName, config.temperature, Request(config, state.query))))
  }

  /** The reply depends on the query only, not on the history handed to the persona. */
  lemma RespondIgnoresHistory(config: ChatbotConfig, q: ChatMessage, h1: ChatHistory, h2: ChatHistory, model: ChatModel)
    ensures Respond(config, ChatbotState(q, h1), model) == Respond(config, ChatbotState(q, h2), model)
  {
  }
}
