/**
 * Messages, the append-only conversation history and its merge reducer, and
 * the shapes of the chatroom and chatbot states (chatroom/src/agent/state.py).
 *
 * The chatroom state is a typed dictionary whose keys are channels: the five
 * message keys keep the last value written to them, and `conversation_history`
 * is combined with `MergeHistory` whenever a node writes it.  `Update` is the
 * partial dictionary a node returns and `Apply` is how the graph folds it into
 * the state.
 */
module State {
  import opened Wrappers

  /** One utterance; `sender` is "user" or a persona's display name. */
  datatype ChatMessage = ChatMessage(sender: string, content: string)

  /** An ordered log of messages, oldest first.  It is a value: nothing mutates it. */
  datatype ChatHistory = ChatHistory(messages: seq<ChatMessage>)
  {
    /** `add`: a new history that is this one with `message` appended. */
    function Add(message: ChatMessage): (r: ChatHistory)
      ensures |r.messages| == |messages| + 1
      ensures r.messages[..|messages|] == messages
      ensures r.messages[|messages|] == message
    {
      ChatHistory(messages + [message])
    }
  }

  /** `ChatHistory()`: the field's default is the empty list. */
  function EmptyHistory(): (r: ChatHistory)
    ensures |r.messages| == 0
  {
    ChatHistory([])
  }

  /** The reducer declared on `conversation_history`: `existing`'s messages, then `incoming`'s. */
  function MergeHistory(existing: ChatHistory, incoming: ChatHistory): (r: ChatHistory)
    ensures |r.messages| == |existing.messages| + |incoming.messages|
    ensures r.messages[..|existing.messages|] == existing.messages
    ensures r.messages[|existing.messages|..] == incoming.messages
  {
    ChatHistory(existing.messages + incoming.messages)
  }

  lemma MergeLeftIdentity(h: ChatHistory)
    ensures MergeHistory(EmptyHistory(), h) == h
  {
  }

  lemma MergeRightIdentity(h: ChatHistory)
    ensures MergeHistory(h, EmptyHistory()) == h
  {
  }

  lemma MergeAssociative(a: ChatHistory, b: ChatHistory, c: ChatHistory)
    ensures MergeHistory(MergeHistory(a, b), c) == MergeHistory(a, MergeHistory(b, c))
  {
  }

  /** Appending one message is merging a one-message history. */
  lemma AddIsMergeOfSingleton(h: ChatHistory, m: ChatMessage)
    ensures h.Add(m) == MergeHistory(h, ChatHistory([m]))
  {
  }

  /** The reducer is not commutative: which side is `existing` decides the order. */
  lemma MergeNotCommutative()
    ensures var a := ChatHistory([ChatMessage("Model A", "a")]);
            var b := ChatHistory([ChatMessage("Model B", "b")]);
            MergeHistory(a, b) != MergeHistory(b, a)
  {
    var a := ChatHistory([ChatMessage("Model A", "a")]);
    var b := ChatHistory([ChatMessage("Model B", "b")]);
    assert MergeHistory(a, b).messages[0].sender == "Model A";
    assert MergeHistory(b, a).messages[0].sender == "Model B";
  }

  /** The four message keys of the chatroom state that nodes write. */
  datatype MessageKey = ModelAQuery | ModelBQuery | ModelAResponse | ModelBResponse

  /** Every key of the chatroom state. */
  datatype Key = UserMessage | MessageField(field: MessageKey) | ConversationHistory

  /** The key's name in the state dictionary. */
  function KeyName(k: Key): string
  {
    match k
    case UserMessage => "user_message"
    case MessageField(ModelAQuery) => "model_a_query"
    case MessageField(ModelBQuery) => "model_b_query"
    case MessageField(ModelAResponse) => "model_a_response"
    case MessageField(ModelBResponse) => "model_b_response"
    case ConversationHistory => "conversation_history"
  }

  lemma KeyNamesDistinct(k1: Key, k2: Key)
    ensures KeyName(k1) == KeyName(k2) <==> k1 == k2
  {
  }

  /**
   * The user's message as it reaches the graph: a `ChatMessage`, or a plain
   * mapping from strings to strings (as sent by LangGraph Studio).
   */
  datatype Inbound = Structured(message: ChatMessage) | Mapping(entries: map<string, string>)

  /**
   * `ChatroomState`.  A key the graph has not yet written is absent: reading it
   * raises `KeyError`.  The history channel holds `ChatHistory()` until written.
   */
  datatype ChatroomState = ChatroomState(
    userMessage: Option<Inbound>,
    fields: map<MessageKey, ChatMessage>,
    conversationHistory: ChatHistory)

  /** A node's partial update: the keys it returns and their values. */
  datatype Update = Update(
    userMessage: Option<Inbound>,
    fields: map<MessageKey, ChatMessage>,
    conversationHistory: Option<ChatHistory>)

  /** The keys an update writes. */
  function Keys(u: Update): (ks: set<Key>)
    ensures UserMessage in ks <==> u.userMessage.Some?
    ensures ConversationHistory in ks <==> u.conversationHistory.Some?
    ensures forall k :: MessageField(k) in ks <==> k in u.fields
  {
    (set k | k in u.fields :: MessageField(k))
      + (if u.userMessage.Some? then {UserMessage} else {})
      + (if u.conversationHistory.Some? then {ConversationHistory} else {})
  }

  /** The empty update `{}`. */
  function NoUpdate(): (u: Update)
    ensures Keys(u) == {}
  {
    Update(None, map[], None)
  }

  /**
   * Folds an update into the state: a written message key takes the new
   * value, a written history is merged after the current one, and every key
   * the update does not write keeps its value.
   */
  function Apply(s: ChatroomState, u: Update): (r: ChatroomState)
    ensures UserMessage in Keys(u) ==> r.userMessage == u.userMessage
    ensures UserMessage !in Keys(u) ==> r.userMessage == s.userMessage
    ensures forall k :: k in u.fields ==> k in r.fields && r.fields[k] == u.fields[k]
    ensures forall k :: k !in u.fields ==> (k in r.fields <==> k in s.fields)
    ensures forall k :: k !in u.fields && k in s.fields ==> r.fields[k] == s.fields[k]
    ensures ConversationHistory !in Keys(u) ==> r.conversationHistory == s.conversationHistory
    ensures u.conversationHistory.Some? ==> r.conversationHistory == MergeHistory(s.conversationHistory, u.conversationHistory.value)
    ensures s.conversationHistory.messages <= r.conversationHistory.messages
  {
    ChatroomState(
      if u.userMessage.Some? then u.userMessage else s.userMessage,
      s.fields + u.fields,
      if u.conversationHistory.Some? then MergeHistory(s.conversationHistory, u.conversationHistory.value)
      else s.conversationHistory)
  }

  /** Applying the empty update changes nothing. */
  lemma ApplyNoUpdate(s: ChatroomState)
    ensures Apply(s, NoUpdate()) == s
  {
    assert s.fields + map[] == s.fields;
  }

  /** Two updates that write disjoint keys can be applied in either order. */
  lemma {:induction false} ApplyCommutes(s: ChatroomState, u1: Update, u2: Update)
    requires Keys(u1) !! Keys(u2)
    ensures Apply(Apply(s, u1), u2) == Apply(Apply(s, u2), u1)
  {
    var f12 := Apply(Apply(s, u1), u2).fields;
    var f21 := Apply(Apply(s, u2), u1).fields;
    forall k | k in u1.fields
      ensures k !in u2.fields
    {
      assert MessageField(k) in Keys(u1);
    }
    assert f12.Keys == f21.Keys;
    forall k | k in f12
      ensures f12[k] == f21[k]
    {
    }
    assert f12 == f21;
  }

  /** `ChatbotState`: the persona subgraph's input. */
  datatype ChatbotState = ChatbotState(query: ChatMessage, chatHistory: ChatHistory)

  /** A persona subgraph's update: it returns the `response` key only. */
  datatype ChatbotUpdate = ChatbotUpdate(response: ChatMessage)
}
