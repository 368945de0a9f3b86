# Chatroom round controller and prompt-menu resolver, in Dafny

This project models two pieces of a collection of LangGraph agent demos.

**The chatroom** (`chatroom/src/agent`) lets a user talk to two personas at once.
- Model A is a contrarian at temperature 0.7. Model B is an optimist at temperature 0.9.
- Both use `gpt-4o-mini`.
- One round of the graph runs these supersteps in order:
  1. `user_input` copies the user's message into both persona queries.
  2. `model_a_respond` and `model_b_respond` run side by side. Each persona answers its query.
  3. `prepare_reactions` swaps the answers: each persona's query becomes the other's answer.
  4. `model_a_react` and `model_b_react` run side by side. Each persona reacts to the other's answer.
- The graph is then interrupted before `human_turn`.

The modules are:
- `State` (state.dfy): the messages, the history and its merge reducer, the chatroom state and node updates.
- `Configuration` (configuration.dfy): the two persona configurations.
- `Nodes` (nodes.dfy): `user_input`, `prepare_reactions`, `human_turn`, and the persona `respond` node with its prompt framing.
- `Graph` (graph.dfy) covers:
  - the subgraph adapter nodes;
  - the graph builder as a `StateGraph` class with the seven nodes and ten edges;
  - the superstep schedule derived from the edges;
  - the superstep semantics of the graph runtime. Nodes of one superstep read the same snapshot; their updates are applied together; a message key or the user message written twice in one superstep is an `InvalidUpdate` error, while several writes of the history are merged by its reducer;
  - a `Chatroom` class that runs a round in place.

The language model is a parameter, `ChatModel`. It is a function from model name, temperature and the two request messages to the reply text. So every property holds for every model.

**The personal finance categorizer** (`personal_finance_categorizer/categorizer.py`) is modelled in module `Categorizer` (categorizer.dfy):
- the system-prompt menu of `choose_prompt`;
- the quit / blank-line handling of the query loop in `main`.

Console input is a sequence of lines. The end of that sequence stands for `input()` raising `EOFError`. The model includes the parts of Python's `str.strip()`, `str.lower()` and `int()` that these decisions depend on.

Two consequences of the code are worth stating:
- **History.** No node writes `conversation_history`, so its reducer never runs and the history leaves a round unchanged (`Graph.RoundOutcome`).
- **Failed round.** A round that fails leaves the state as it was before the round (`Graph.Chatroom.RunRound`). This is what a run without a checkpointer shows the caller.

## Model

| member | source | states |
|---|---|---|
| State.ChatHistory.Add | chatroom/src/agent/state.py:11-12 | the new history is the old one with the message appended at the end |
| State.EmptyHistory | chatroom/src/agent/state.py:8-9 | a history created without arguments has no messages |
| State.MergeHistory | chatroom/src/agent/state.py:14-16 | the merged history is the existing messages followed by the incoming ones, in order |
| State.MergeLeftIdentity | chatroom/src/agent/state.py:14-16 | merging into an empty history yields the incoming history |
| State.MergeRightIdentity | chatroom/src/agent/state.py:14-16 | merging an empty history changes nothing |
| State.MergeAssociative | chatroom/src/agent/state.py:14-16 | the reducer is associative, so successive merges may be grouped freely |
| State.AddIsMergeOfSingleton | chatroom/src/agent/state.py:11-16 | `add` is a merge with a one-message history |
| State.MergeNotCommutative | chatroom/src/agent/state.py:14-16 | the reducer depends on order: two one-message histories merge differently in the two orders |
| State.KeyNamesDistinct | chatroom/src/agent/state.py:18-24 | the six state keys have distinct names |
| State.Keys | chatroom/src/agent/state.py:18-24 | a node's update writes the user message, the history, and exactly the message fields its dictionary holds |
| State.NoUpdate | chatroom/src/agent/nodes.py:65-67 | the empty dictionary writes no key |
| State.Apply | chatroom/src/agent/state.py:18-24 | applying an update sets the user message and exactly the written message keys to their new values and keeps every other key; a written history is merged after the current one by `merge_history`, and an unwritten one is unchanged |
| State.ApplyNoUpdate | chatroom/src/agent/state.py:18-24 | applying the empty update leaves the state as it is |
| State.ApplyCommutes | chatroom/src/agent/state.py:18-24 | two updates writing disjoint keys give the same state in either order |
| Configuration.PersonaNamesDistinct | chatroom/src/agent/configuration.py:10-22 | the personas are named "Model A" and "Model B"; the names differ from each other and from "user" |
| Configuration.PersonaSettings | chatroom/src/agent/configuration.py:10-22 | both personas use `gpt-4o-mini`, at temperatures 0.7 and 0.9, with different system prompts |
| Nodes.Normalize | chatroom/src/agent/nodes.py:45-52 | a message object passes through; a dict must have "content", else KeyError; its content is kept |
| Nodes.NormalizeRoundTrip | chatroom/src/agent/nodes.py:47-52 | a message serialised as a dict with "sender" and "content" normalises back to itself |
| Nodes.NormalizeTypeKeyed | chatroom/src/agent/nodes.py:47-52 | a dict from the studio, keyed by "type", takes its sender from "type" |
| Nodes.NormalizeSenderFallback | chatroom/src/agent/nodes.py:50 | the sender is a non-empty "sender"; failing that, "type"; failing that, "user" |
| Nodes.UserInput | chatroom/src/agent/nodes.py:44-57 | without a user message the node raises KeyError; otherwise it writes exactly the two queries, both equal to the normalised message |
| Nodes.PrepareReactions | chatroom/src/agent/nodes.py:59-63 | writes exactly the two queries, Model A's query := Model B's response and the reverse; a missing response raises KeyError, and model_b_response is read first |
| Nodes.HumanTurn | chatroom/src/agent/nodes.py:65-67 | the node writes nothing and leaves the state unchanged |
| Nodes.QueryPrompt | chatroom/src/agent/nodes.py:19-22 | the prompt ends with the user framing exactly when the sender is "user", otherwise with the peer framing; it carries the speaker and the content |
| Nodes.UserPromptRoundTrip | chatroom/src/agent/nodes.py:19-20 | the user framing can be read back to the original query |
| Nodes.Request | chatroom/src/agent/nodes.py:24-33 | the request is exactly two messages: the system prompt of the configuration, then the framed query as the user role |
| Nodes.PeerRequest | chatroom/src/agent/nodes.py:21-22 | a query from anyone but "user" is sent with the peer framing |
| Nodes.Respond | chatroom/src/agent/nodes.py:6-42 | the response is stamped with the configuration's assistant name and its content is the model's reply to the request, at the configured model and temperature |
| Nodes.RespondIgnoresHistory | chatroom/src/agent/nodes.py:10-40 | the reply does not depend on the chat history |
| Graph.PersonaReply | chatroom/src/agent/subgraph.py:6-17 | the persona subgraph's reply is stamped with the persona's name |
| Graph.SubgraphNode | chatroom/src/agent/graph.py:21-34 | the adapter fails exactly when its query key is absent; otherwise it writes only its response key, with the persona's reply to that query |
| Graph.ModelANode | chatroom/src/agent/graph.py:36 | Model A reads model_a_query and writes only model_a_response, sent by "Model A" |
| Graph.ModelBNode | chatroom/src/agent/graph.py:37 | Model B reads model_b_query and writes only model_b_response, sent by "Model B" |
| Graph.SubgraphNodeReadsOnly | chatroom/src/agent/graph.py:23-32 | an adapter node depends only on its query key and the history |
| Graph.StateGraph.constructor | chatroom/src/agent/graph.py:40 | a new builder has no nodes and no edges |
| Graph.StateGraph.AddNode | chatroom/src/agent/graph.py:42-50 | registers one callable under a new name; edges untouched |
| Graph.StateGraph.AddEdge | chatroom/src/agent/graph.py:52-66 | adds one edge; nodes untouched |
| Graph.StateGraph.Compile | chatroom/src/agent/graph.py:69 | compiles exactly when the graph is well formed, otherwise fails |
| Graph.NodeNamesDistinct | chatroom/src/agent/graph.py:42-50 | the seven node names are distinct |
| Graph.ChatroomNodeFns | chatroom/src/agent/graph.py:42-50 | the callable registered under each name; each persona runs under two names |
| Graph.ChatroomGraphWellFormed | chatroom/src/agent/graph.py:39-69 | the chatroom graph passes compilation's checks |
| Graph.MakeChatroomGraph | chatroom/src/agent/graph.py:39-69 | the builder yields the compiled graph with the seven nodes, ten edges and the interrupt before human_turn |
| Graph.AddChatroomNodes | chatroom/src/agent/graph.py:42-50 | the seven add_node calls register exactly the chatroom's nodes |
| Graph.AddChatroomEdges | chatroom/src/agent/graph.py:52-66 | the ten add_edge calls add exactly the chatroom's edges |
| Graph.ChatroomSchedule | chatroom/src/agent/graph.py:52-69 | supersteps from START: user_input; both respond nodes; prepare_reactions; both react nodes; human_turn; END. So the two fan-ins, prepare_reactions and human_turn, each form a single superstep of their own, because both predecessors of each finish in the same superstep. A round's four stages are supersteps one to four, and human_turn is interrupted |
| Graph.ChatroomJoins | chatroom/src/agent/graph.py:54-66 | prepare_reactions has exactly the two respond nodes as predecessors, human_turn exactly the two react nodes, and END only human_turn |
| Graph.Collect | chatroom/src/agent/graph.py:39-69 | a superstep's updates are gathered exactly when every node succeeded, in node order |
| Graph.SingleNodeStage | chatroom/src/agent/graph.py:52-55 | a one-node superstep applies that node's update or fails with its error |
| Graph.StageFailsWithNode | chatroom/src/agent/graph.py:39-69 | a superstep fails as soon as any of its nodes raises |
| Graph.TwoNodeStage | chatroom/src/agent/graph.py:54-61 | a two-node superstep whose updates write disjoint keys applies both |
| Graph.TwoNodeConflict | chatroom/src/agent/graph.py:54-61 | a two-node superstep whose updates both write the user message or the same message key fails with InvalidUpdate |
| Graph.FanOutOrderIndependent | chatroom/src/agent/graph.py:54-61 | the fan-out superstep of the two persona nodes succeeds in either order or in neither, succeeds exactly when both queries are set, and on success leaves the same state in either order (the error reported on failure may depend on the order) |
| Graph.PersonaStage | chatroom/src/agent/graph.py:36-37 | the superstep of the two persona nodes writes each persona's reply to its own query |
| Graph.PrepareStage | chatroom/src/agent/nodes.py:59-63 | the prepare_reactions superstep swaps the two responses into the two queries |
| Graph.RespondStep | chatroom/src/agent/graph.py:54-58 | the respond superstep writes each persona's answer to the user's message into its response |
| Graph.SwapStep | chatroom/src/agent/graph.py:57-61 | the prepare_reactions superstep moves each response into the other persona's query |
| Graph.RespondThenSwap | chatroom/src/agent/graph.py:54-61 | the respond and prepare_reactions supersteps leave each query set to the other persona's answer |
| Graph.ReactToPeers | chatroom/src/agent/graph.py:60-64 | the react superstep writes each persona's reaction to its query |
| Graph.StagesAfterUserInput | chatroom/src/agent/graph.py:54-64 | the three supersteps after user_input give the final queries and responses |
| Graph.Round | chatroom/src/agent/graph.py:39-69 | one round runs supersteps one to four of the schedule in order and stops at the first error; its outcome is stated by `Graph.RoundOutcome` |
| Graph.RoundOutcome | chatroom/src/agent/graph.py:39-69 | a round succeeds exactly when the user message exists and normalises. Then Model A's query is Model B's answer b1 to the message and Model B's query is Model A's answer a1; each response is the persona's reaction to the other's answer. The user message and the history are unchanged. Otherwise the round fails at user_input with the KeyError |
| Graph.RoundFraming | chatroom/src/agent/graph.py:39-69 | after a round all four message keys are set; each query was sent by the other persona, and each response carries its own persona's name |
| Graph.ReactionRequestsArePeerFramed | chatroom/src/agent/graph.py:60-64 | after a round, the queries both react nodes answered were sent with the peer framing |
| Graph.Chatroom.constructor | chatroom/src/agent/state.py:18-24 | a new thread holds only the user message and an empty history |
| Graph.Chatroom.ApplyUpdate | chatroom/src/agent/state.py:18-24 | the state in place becomes the state with the update applied |
| Graph.Chatroom.ApplyUpdates | chatroom/src/agent/state.py:18-24 | applies a superstep's updates in order |
| Graph.Chatroom.RunStageInPlace | chatroom/src/agent/graph.py:39-69 | runs one superstep in place; on failure the state is unchanged and the error is returned |
| Graph.Chatroom.RunRound | chatroom/src/agent/graph.py:39-69 | running the round in place ends in the state the round specifies, or reports its error and restores the starting state |
| Categorizer.IndexOf | personal_finance_categorizer/categorizer.py:154 | `list.index` returns the first position of the key |
| Categorizer.DefaultMenuNumber | personal_finance_categorizer/categorizer.py:149-154 | the default number is a valid menu entry naming the default prompt |
| Categorizer.MenuLayout | personal_finance_categorizer/categorizer.py:27-66 | the three prompt keys are distinct and the default "basic" is entry 1 |
| Categorizer.TrimStartSpec | personal_finance_categorizer/categorizer.py:156 | stripping the front removes exactly the leading whitespace, leaving a suffix that starts with a non-space |
| Categorizer.TrimEndSpec | personal_finance_categorizer/categorizer.py:156 | stripping the back removes exactly the trailing whitespace, leaving a prefix that ends with a non-space |
| Categorizer.Strip | personal_finance_categorizer/categorizer.py:156 | `str.strip()`: strip the front, then the back; its contract is stated by the lemmas that follow |
| Categorizer.StripEnds | personal_finance_categorizer/categorizer.py:156 | a stripped line neither starts nor ends with whitespace |
| Categorizer.StripEmptyIffAllSpace | personal_finance_categorizer/categorizer.py:156-158 | a line strips to empty exactly when it is all whitespace |
| Categorizer.StripIdempotent | personal_finance_categorizer/categorizer.py:156 | stripping twice is stripping once |
| Categorizer.ParseInt | personal_finance_categorizer/categorizer.py:162 | `int` accepts only text ending in a digit, with at most 4300 digits after the sign |
| Categorizer.DecimalString | personal_finance_categorizer/categorizer.py:153 | the menu numeral is a non-empty digit string |
| Categorizer.DigitsValueOfDecimal | personal_finance_categorizer/categorizer.py:162 | the digits of a numeral evaluate to its number |
| Categorizer.ParseIntRoundTrip | personal_finance_categorizer/categorizer.py:162 | `int` reads a numeral of at most 4300 digits back to its number, with or without a sign, and refuses every longer numeral |
| Categorizer.ResolveChoice | personal_finance_categorizer/categorizer.py:155-167 | any value a line selects is a prompt key |
| Categorizer.ResolveStripped | personal_finance_categorizer/categorizer.py:157-167 | any value the stripped line selects is a prompt key |
| Categorizer.BlankSelectsDefault | personal_finance_categorizer/categorizer.py:156-158 | an empty or whitespace-only line selects the default prompt |
| Categorizer.GarbageRejected | personal_finance_categorizer/categorizer.py:159-167 | a line that strips to something other than nothing, a prompt name or a numeral `int` accepts is rejected |
| Categorizer.NameSelectsItself | personal_finance_categorizer/categorizer.py:159-160 | a prompt name, padded with whitespace, selects itself |
| Categorizer.MenuNumberSelects | personal_finance_categorizer/categorizer.py:161-164 | menu number i (bare or with "+", padded) selects the i-th key |
| Categorizer.OutOfRangeRejected | personal_finance_categorizer/categorizer.py:161-167 | zero, negative numbers and numbers above three are rejected |
| Categorizer.SignedNumeral | personal_finance_categorizer/categorizer.py:156-167 | a padded signed numeral within the digit limit resolves by its value alone; a longer one is rejected |
| Categorizer.OverlongNumeralRejected | personal_finance_categorizer/categorizer.py:161-167 | a line that strips to more than 4300 digits, leading zeros included, is rejected because `int` raises `ValueError` |
| Categorizer.ChoosePrompt | personal_finance_categorizer/categorizer.py:147-167 | returns the first line that resolves; every earlier line was rejected; the result is a prompt key; no result when the input ends first |
| Categorizer.Lower | personal_finance_categorizer/categorizer.py:214 | the result has the same length and no capital letter; a capital becomes its small letter and every other character is kept |
| Categorizer.LowerIdempotent | personal_finance_categorizer/categorizer.py:214 | lowering twice is lowering once |
| Categorizer.IsQuit | personal_finance_categorizer/categorizer.py:214 | the quit test compares the lowered, unstripped line with `quit`, `exit` and `q`; its contract is stated by `Categorizer.QuitIgnoresCase` |
| Categorizer.QuitIgnoresCase | personal_finance_categorizer/categorizer.py:214 | a line is a quit word exactly when it spells `quit`, `exit` or `q` with any of its letters capitalised |
| Categorizer.Classify | personal_finance_categorizer/categorizer.py:214-219 | what the loop does with one line: quit, skip or send; its contract is stated by `Categorizer.ClassifyCases` |
| Categorizer.ClassifyCases | personal_finance_categorizer/categorizer.py:211-219 | a query quits exactly when it is a quit word; otherwise it is skipped exactly when it is whitespace only; anything else is sent unchanged |
| Categorizer.QuitIsNotBlank | personal_finance_categorizer/categorizer.py:214-219 | a quit word is never blank and has no whitespace at its ends |
| Categorizer.PaddedQuitIsSent | personal_finance_categorizer/categorizer.py:214-219 | a quit word with whitespace around it is sent to the agent, because the quit test does not strip |
| Categorizer.Session | personal_finance_categorizer/categorizer.py:211-226 | the queries the loop sends for the input lines and how it ends; its contract is stated by the session lemmas that follow |
| Categorizer.SessionSendsOnlyQueries | personal_finance_categorizer/categorizer.py:211-226 | every sent query is an input line that is neither blank nor a quit word |
| Categorizer.SessionEndsOnQuit | personal_finance_categorizer/categorizer.py:211-216 | the loop ends on a quit command exactly when some input line is a quit word |
| Categorizer.FirstQuitEndsSession | personal_finance_categorizer/categorizer.py:211-219 | the first quit word ends the loop after sending every non-blank line before it |
| Categorizer.SessionWithoutQuit | personal_finance_categorizer/categorizer.py:211-219 | without a quit word every non-blank line is sent, in order, until the input ends |
| Categorizer.RunQueries | personal_finance_categorizer/categorizer.py:211-226 | the imperative loop sends the queries and ends the way the session specifies |

## Left out

- The language model call is a total function parameter. Network failures, timeouts and exceptions raised by `ChatOpenAI.invoke` are not modelled.
- Nodes.Respond: a `query` that arrives as a plain dict (nodes.py:16-17) is not modelled separately. The adapter node always passes a message value.
- The persona subgraph (subgraph.py) is modelled only through what it returns. Its own one-node graph and compilation are not modelled. Its `chat_history` input is passed through but never read.
- Checkpointing, thread persistence and resuming after the `human_turn` interrupt belong to the graph runtime and are not modelled. A round is modelled from `user_input` up to the interrupt.
- Graph.Chatroom.RunRound: on failure the state is restored to its value before the round. A checkpointed run would keep the supersteps that completed.
- The exact text of the runtime's error messages is not modelled. Only which key was missing, or that an update was invalid.
- Temperatures are tenths as natural numbers (7 and 9) rather than floats.
- Nodes.Normalize: mapping values are modelled as strings. Non-string values, and the validation pydantic would apply to them, are not modelled.
- Categorizer.Lower: maps ASCII letters only. The quit words contain no letter that a non-ASCII character lowercases to, so the quit test itself is unaffected.
- Categorizer.ParseInt: accepts a sign and ASCII digits, up to CPython's default limit of 4300 digits. Python's `int` also accepts underscores between digits and non-ASCII decimal digits; those are left out. A limit changed through `PYTHONINTMAXSTRDIGITS` or `sys.set_int_max_str_digits` is not modelled.
- The prompt texts in `PROMPTS` are not modelled, only their keys and order.
- File loading, the Excel and PDF readers, text splitting, embeddings, the vector store, the retrieval tool and the agent are not modelled.
- Printing, the menu display and streaming of the agent's output are not modelled. Sent queries are recorded as a sequence.
- Categorizer.ChoosePrompt, Categorizer.RunQueries: an `EOFError` when input ends is modelled as a normal result (no choice, `InputExhausted`) rather than an exception.
