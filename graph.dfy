/**
 * The chatroom graph (chatroom/src/agent/graph.py): the persona nodes built by
 * `make_subgraph_node`, the topology built by `make_chatroom_graph`, and one
 * round of execution up to the interrupt before `human_turn`.
 *
 * Execution follows the graph runtime's supersteps: the nodes of a superstep
 * all read the state as it was when the superstep began, their updates are
 * then applied together, and a message key written twice in one superstep is
 * an error.  The `Chatroom` class threads the state through the supersteps in
 * place.
 */
module Graph {
  import opened Wrappers
  import opened State
  import opened Configuration
  import opened Nodes

  // ---------------------------------------------------------------------
  // make_subgraph_node

  /** The reply of the persona subgraph bound to `config` to `query`, given the history. */
  function PersonaReply(config: ChatbotConfig, query: ChatMessage, history: ChatHistory, model: ChatModel): (r: ChatMessage)
    ensures r.sender == config.assistantName
  {
    Respond(config, ChatbotState(query, history), model).response
  }

  /**
   * The node `make_subgraph_node(subgraph, query_key, response_key)` returns,
   * with the persona subgraph standing for `respond` bound to `config`: it
   * reads `query_key` (raising `KeyError` when it is absent) and the history,
   * and writes only `response_key`, with the persona's reply to that query.
   */
  function SubgraphNode(config: ChatbotConfig, queryKey: MessageKey, responseKey: MessageKey,
                        s: ChatroomState, model: ChatModel): (r: Result<Update, NodeError>)
    ensures r.Ok? <==> queryKey in s.fields
    ensures r.Err? ==> r.error == MissingKey(KeyName(MessageField(queryKey)))
    ensures r.Ok? ==> Keys(r.value) == {MessageField(responseKey)}
    ensures r.Ok? ==> r.value.fields.Keys == {responseKey}
    ensures r.Ok? ==> r.value.fields[responseKey].sender == config.assistantName
    ensures r.Ok? ==> r.value.fields[responseKey] == PersonaReply(config, s.fields[queryKey], s.conversationHistory, model)
  {
    if queryKey !in s.fields then Err(MissingKey(KeyName(MessageField(queryKey))))
    else
      var result := Respond(config, ChatbotState(s.fields[queryKey], s.conversationHistory), model);
      Ok(Update(None, map[responseKey := result.response], None))
  }

  /** `model_a_node`: Model A answers `model_a_query` into `model_a_response`. */
  function ModelANode(s: ChatroomState, model: ChatModel): (r: Result<Update, NodeError>)
    ensures r.Ok? <==> ModelAQuery in s.fields
    ensures r.Ok? ==> Keys(r.value) == {MessageField(ModelAResponse)}
    ensures r.Ok? ==> r.value.fields[ModelAResponse].sender == "Model A"
  {
    SubgraphNode(ModelAConfig, ModelAQuery, ModelAResponse, s, model)
  }

  /** `model_b_node`: Model B answers `model_b_query` into `model_b_response`. */
  function ModelBNode(s: ChatroomState, model: ChatModel): (r: Result<Update, NodeError>)
    ensures r.Ok? <==> ModelBQuery in s.fields
    ensures r.Ok? ==> Keys(r.value) == {MessageField(ModelBResponse)}
    ensures r.Ok? ==> r.value.fields[ModelBResponse].sender == "Model B"
  {
    SubgraphNode(ModelBConfig, ModelBQuery, ModelBResponse, s, model)
  }

  /** A persona node's result depends only on its query key and the history. */
  lemma SubgraphNodeReadsOnly(config: ChatbotConfig, queryKey: MessageKey, responseKey: MessageKey,
                              s1: ChatroomState, s2: ChatroomState, model: ChatModel)
    requires queryKey in s1.fields <==> queryKey in s2.fields
    requires queryKey in s1.fields ==> s1.fields[queryKey] == s2.fields[queryKey]
    requires s1.conversationHistory == s2.conversationHistory
    ensures SubgraphNode(config, queryKey, responseKey, s1, model)
         == SubgraphNode(config, queryKey, responseKey, s2, model)
  {
  }

  // ---------------------------------------------------------------------
  // The graph and its builder

  datatype Endpoint = Start | End | Node(name: NodeName)

  /** The Python callables the chatroom registers as nodes. */
  datatype NodeFn = UserInputFn | ModelANodeFn | ModelBNodeFn | PrepareReactionsFn | HumanTurnFn

  datatype CompiledGraph = CompiledGraph(
    nodes: map<NodeName, NodeFn>,
    edges: set<(Endpoint, Endpoint)>,
    interruptBefore: set<NodeName>)

  datatype GraphError = InvalidGraph

  predicate Registered(g: CompiledGraph, p: Endpoint)
  {
    p.Node? ==> p.name in g.nodes
  }

  /**
   * What compiling checks: edges join registered nodes, none leaves END or
   * enters START, START has a successor, and interrupts name registered nodes.
   */
  predicate WellFormed(g: CompiledGraph)
  {
    && (forall e | e in g.edges :: Registered(g, e.0) && Registered(g, e.1) && e.0 != End && e.1 != Start)
    && (exists e | e in g.edges :: e.0 == Start)
    && g.interruptBefore <= g.nodes.Keys
  }

  /** `StateGraph(ChatroomState)`: a builder the chatroom fills in one call at a time. */
  class StateGraph {
    var nodes: map<NodeName, NodeFn>
    var edges: set<(Endpoint, Endpoint)>

    constructor ()
      ensures nodes == map[] && edges == {}
    {
      nodes := map[];
      edges := {};
    }

    /** `add_node`: a name may be registered once. */
    method AddNode(name: NodeName, fn: NodeFn)
      requires name !in nodes
      modifies this
      ensures nodes == old(nodes)[name := fn]
      ensures edges == old(edges)
    {
      nodes := nodes[name := fn];
    }

    /** `add_edge` */
    method AddEdge(source: Endpoint, target: Endpoint)
      modifies this
      ensures edges == old(edges) + {(source, target)}
      ensures nodes == old(nodes)
    {
      edges := edges + {(source, target)};
    }

    /** `compile(interrupt_before=...)` */
    method Compile(interruptBefore: set<NodeName>) returns (r: Result<CompiledGraph, GraphError>)
      ensures WellFormed(CompiledGraph(nodes, edges, interruptBefore)) ==> r == Ok(CompiledGraph(nodes, edges, interruptBefore))
      ensures !WellFormed(CompiledGraph(nodes, edges, interruptBefore)) ==> r == Err(InvalidGraph)
    {
      var g := CompiledGraph(nodes, edges, interruptBefore);
      if WellFormed(g) {
        r := Ok(g);
      } else {
        r := Err(InvalidGraph);
      }
    }
  }

  /** The names the chatroom registers its nodes under. */
  datatype NodeName =
    | UserInputNode | ModelARespondNode | ModelAReactNode | ModelBRespondNode | ModelBReactNode
    | PrepareReactionsNode | HumanTurnNode
  {
    /** The node's name in the graph. */
    function Name(): string
    {
      match this
      case UserInputNode => "user_input"
      case ModelARespondNode => "model_a_respond"
      case ModelAReactNode => "model_a_react"
      case ModelBRespondNode => "model_b_respond"
      case ModelBReactNode => "model_b_react"
      case PrepareReactionsNode => "prepare_reactions"
      case HumanTurnNode => "human_turn"
    }
  }

  lemma NodeNamesDistinct(a: NodeName, b: NodeName)
    ensures a.Name() == b.Name() <==> a == b
  {
  }

  /** The graph `make_chatroom_graph` compiles. */
  const ChatroomGraph := CompiledGraph(
    map[UserInputNode := UserInputFn,
        ModelARespondNode := ModelANodeFn, ModelAReactNode := ModelANodeFn,
        ModelBRespondNode := ModelBNodeFn, ModelBReactNode := ModelBNodeFn,
        PrepareReactionsNode := PrepareReactionsFn,
        HumanTurnNode := HumanTurnFn],
    {(Start, Node(UserInputNode)),
     (Node(UserInputNode), Node(ModelARespondNode)), (Node(UserInputNode), Node(ModelBRespondNode)),
     (Node(ModelARespondNode), Node(PrepareReactionsNode)), (Node(ModelBRespondNode), Node(PrepareReactionsNode)),
     (Node(PrepareReactionsNode), Node(ModelAReactNode)), (Node(PrepareReactionsNode), Node(ModelBReactNode)),
     (Node(ModelAReactNode), Node(HumanTurnNode)), (Node(ModelBReactNode), Node(HumanTurnNode)),
     (Node(HumanTurnNode), End)},
    {HumanTurnNode})

  /** The callable registered under each name. */
  lemma ChatroomNodeFns()
    ensures ChatroomGraph.nodes.Keys == {UserInputNode, ModelARespondNode, ModelAReactNode, ModelBRespondNode,
                                         ModelBReactNode, PrepareReactionsNode, HumanTurnNode}
    ensures ChatroomGraph.nodes[UserInputNode] == UserInputFn
    ensures ChatroomGraph.nodes[ModelARespondNode] == ModelANodeFn && ChatroomGraph.nodes[ModelAReactNode] == ModelANodeFn
    ensures ChatroomGraph.nodes[ModelBRespondNode] == ModelBNodeFn && ChatroomGraph.nodes[ModelBReactNode] == ModelBNodeFn
    ensures ChatroomGraph.nodes[PrepareReactionsNode] == PrepareReactionsFn
    ensures ChatroomGraph.nodes[HumanTurnNode] == HumanTurnFn
  {
  }

  lemma ChatroomGraphWellFormed()
    ensures WellFormed(ChatroomGraph)
  {
    assert (Start, Node(UserInputNode)) in ChatroomGraph.edges;
  }

  /** `make_chatroom_graph`: registers the seven nodes and ten edges, then compiles. */
  method MakeChatroomGraph() returns (r: Result<CompiledGraph, GraphError>)
    ensures r == Ok(ChatroomGraph)
  {
    var graph := new StateGraph();
    AddChatroomNodes(graph);
    AddChatroomEdges(graph);
    ChatroomGraphWellFormed();
    r := graph.Compile({HumanTurnNode});
  }

  /** The `add_node` calls of `make_chatroom_graph`. */
  method AddChatroomNodes(graph: StateGraph)
    requires graph.nodes == map[]
    modifies graph
    ensures graph.nodes == ChatroomGraph.nodes
    ensures graph.edges == old(graph.edges)
  {
    graph.AddNode(UserInputNode, UserInputFn);
    graph.AddNode(ModelARespondNode, ModelANodeFn);
    graph.AddNode(ModelAReactNode, ModelANodeFn);
    graph.AddNode(ModelBRespondNode, ModelBNodeFn);
    graph.AddNode(ModelBReactNode, ModelBNodeFn);
    graph.AddNode(PrepareReactionsNode, PrepareReactionsFn);
    graph.AddNode(HumanTurnNode, HumanTurnFn);
  }

  /** The `add_edge` calls of `make_chatroom_graph`. */
  method AddChatroomEdges(graph: StateGraph)
    requires graph.edges == {}
    modifies graph
    ensures graph.edges == ChatroomGraph.edges
    ensures graph.nodes == old(graph.nodes)
  {
    graph.AddEdge(Start, Node(UserInputNode));
    graph.AddEdge(Node(UserInputNode), Node(ModelARespondNode));
    graph.AddEdge(Node(UserInputNode), Node(ModelBRespondNode));
    graph.AddEdge(Node(ModelARespondNode), Node(PrepareReactionsNode));
    graph.AddEdge(Node(ModelBRespondNode), Node(PrepareReactionsNode));
    graph.AddEdge(Node(PrepareReactionsNode), Node(ModelAReactNode));
    graph.AddEdge(Node(PrepareReactionsNode), Node(ModelBReactNode));
    graph.AddEdge(Node(ModelAReactNode), Node(HumanTurnNode));
    graph.AddEdge(Node(ModelBReactNode), Node(HumanTurnNode));
    graph.AddEdge(Node(HumanTurnNode), End);
  }

  // ---------------------------------------------------------------------
  // Topology: supersteps and joins

  /** The endpoints that some endpoint of `active` has an edge to. */
  function Successors(g: CompiledGraph, active: set<Endpoint>): set<Endpoint>
  {
    set e | e in g.edges && e.0 in active :: e.1
  }

  function Predecessors(g: CompiledGraph, target: Endpoint): set<Endpoint>
  {
    set e | e in g.edges && e.1 == target :: e.0
  }

  /** The endpoints triggered in superstep `n`; superstep 0 is START. */
  function Superstep(g: CompiledGraph, n: nat): set<Endpoint>
  {
    if n == 0 then {Start} else Successors(g, Superstep(g, n - 1))
  }

  function StageEndpoints(names: seq<NodeName>): set<Endpoint>
  {
    set n | n in names :: Node(n)
  }

  /** The supersteps of one round, in the order they run, until the interrupt. */
  const ChatroomStages: seq<seq<NodeName>> := [
    [UserInputNode],
    [ModelARespondNode, ModelBRespondNode],
    [PrepareReactionsNode],
    [ModelAReactNode, ModelBReactNode]]

  /**
   * From START the graph triggers `user_input`, then both respond nodes, then
   * `prepare_reactions`, then both react nodes, then `human_turn`, then END:
   * the four stages a round runs are the first four supersteps, and the fifth
   * is `human_turn`, before which the graph is interrupted.
   */
  lemma ChatroomSchedule()
    ensures Superstep(ChatroomGraph, 1) == {Node(UserInputNode)}
    ensures Superstep(ChatroomGraph, 2) == {Node(ModelARespondNode), Node(ModelBRespondNode)}
    ensures Superstep(ChatroomGraph, 3) == {Node(PrepareReactionsNode)}
    ensures Superstep(ChatroomGraph, 4) == {Node(ModelAReactNode), Node(ModelBReactNode)}
    ensures Superstep(ChatroomGraph, 5) == {Node(HumanTurnNode)}
    ensures Superstep(ChatroomGraph, 6) == {End}
    ensures forall i :: 0 <= i < |ChatroomStages| ==> StageEndpoints(ChatroomStages[i]) == Superstep(ChatroomGraph, i + 1)
    ensures HumanTurnNode in ChatroomGraph.interruptBefore
    ensures forall i :: 0 <= i < |ChatroomStages| ==> HumanTurnNode !in ChatroomStages[i]
  {
    var g := ChatroomGraph;
    StartTriggersUserInput();
    UserInputFansOut();
    RespondersJoin();
    PrepareFansOut();
    ReactorsJoin();
    HumanTurnEnds();
    assert StageEndpoints(ChatroomStages[0]) == Superstep(g, 1);
    assert StageEndpoints(ChatroomStages[1]) == Superstep(g, 2);
    assert StageEndpoints(ChatroomStages[2]) == Superstep(g, 3);
    assert StageEndpoints(ChatroomStages[3]) == Superstep(g, 4);
  }

  lemma StartTriggersUserInput()
    ensures Successors(ChatroomGraph, {Start}) == {Node(UserInputNode)}
  {
    assert (Start, Node(UserInputNode)) in ChatroomGraph.edges;
  }

  lemma UserInputFansOut()
    ensures Successors(ChatroomGraph, {Node(UserInputNode)}) == {Node(ModelARespondNode), Node(ModelBRespondNode)}
  {
    assert (Node(UserInputNode), Node(ModelARespondNode)) in ChatroomGraph.edges;
    assert (Node(UserInputNode), Node(ModelBRespondNode)) in ChatroomGraph.edges;
  }

  lemma RespondersJoin()
    ensures Successors(ChatroomGraph, {Node(ModelARespondNode), Node(ModelBRespondNode)}) == {Node(PrepareReactionsNode)}
  {
    assert (Node(ModelARespondNode), Node(PrepareReactionsNode)) in ChatroomGraph.edges;
  }

  lemma PrepareFansOut()
    ensures Successors(ChatroomGraph, {Node(PrepareReactionsNode)}) == {Node(ModelAReactNode), Node(ModelBReactNode)}
  {
    assert (Node(PrepareReactionsNode), Node(ModelAReactNode)) in ChatroomGraph.edges;
    assert (Node(PrepareReactionsNode), Node(ModelBReactNode)) in ChatroomGraph.edges;
  }

  lemma ReactorsJoin()
    ensures Successors(ChatroomGraph, {Node(ModelAReactNode), Node(ModelBReactNode)}) == {Node(HumanTurnNode)}
  {
    assert (Node(ModelAReactNode), Node(HumanTurnNode)) in ChatroomGraph.edges;
  }

  lemma HumanTurnEnds()
    ensures Successors(ChatroomGraph, {Node(HumanTurnNode)}) == {End}
  {
    assert (Node(HumanTurnNode), End) in ChatroomGraph.edges;
  }

  /**
   * The fan-ins: `prepare_reactions` has both respond nodes as predecessors,
   * `human_turn` both react nodes, and `human_turn` is END's only
   * predecessor.  The edges are separate, so a node is triggered by any one
   * of its predecessors; each runs once per round only because both of its
   * predecessors finish in the same superstep.
   */
  lemma ChatroomJoins()
    ensures Predecessors(ChatroomGraph, Node(PrepareReactionsNode)) == {Node(ModelARespondNode), Node(ModelBRespondNode)}
    ensures Predecessors(ChatroomGraph, Node(HumanTurnNode)) == {Node(ModelAReactNode), Node(ModelBReactNode)}
    ensures Predecessors(ChatroomGraph, End) == {Node(HumanTurnNode)}
    ensures Predecessors(ChatroomGraph, Node(ModelARespondNode)) == {Node(UserInputNode)}
    ensures Predecessors(ChatroomGraph, Node(ModelBRespondNode)) == {Node(UserInputNode)}
  {
    var g := ChatroomGraph;
    assert (Node(ModelARespondNode), Node(PrepareReactionsNode)) in g.edges;
    assert (Node(ModelBRespondNode), Node(PrepareReactionsNode)) in g.edges;
    assert (Node(ModelAReactNode), Node(HumanTurnNode)) in g.edges;
    assert (Node(ModelBReactNode), Node(HumanTurnNode)) in g.edges;
    assert (Node(HumanTurnNode), End) in g.edges;
    assert (Node(UserInputNode), Node(ModelARespondNode)) in g.edges;
    assert (Node(UserInputNode), Node(ModelBRespondNode)) in g.edges;
  }

  // ---------------------------------------------------------------------
  // Running supersteps

  datatype RoundError = NodeFailed(node: NodeName, error: NodeError) | InvalidUpdate

  /** Runs one registered callable on the state. */
  function ExecuteNode(fn: NodeFn, s: ChatroomState, model: ChatModel): Result<Update, NodeError>
  {
    match fn
    case UserInputFn => UserInput(s)
    case ModelANodeFn => ModelANode(s, model)
    case ModelBNodeFn => ModelBNode(s, model)
    case PrepareReactionsFn => PrepareReactions(s)
    case HumanTurnFn => Ok(HumanTurn(s))
  }

  predicate StageKnown(g: CompiledGraph, names: seq<NodeName>)
  {
    forall n | n in names :: n in g.nodes
  }

  /**
   * Gathers the results of one superstep's nodes: all updates when every node
   * succeeded, otherwise the error of the first node that raised.
   */
  function Collect(names: seq<NodeName>, results: seq<Result<Update, NodeError>>): (r: Result<seq<Update>, RoundError>)
    requires |names| == |results|
    ensures r.Ok? <==> forall i :: 0 <= i < |results| ==> results[i].Ok?
    ensures r.Ok? ==> |r.value| == |results| && forall i :: 0 <= i < |results| ==> results[i] == Ok(r.value[i])
    decreases |names|
  {
    if names == [] then Ok([])
    else
      match results[0]
      case Err(e) => Err(NodeFailed(names[0], e))
      case Ok(u) =>
        match Collect(names[1..], results[1..])
        case Err(e) => Err(e)
        case Ok(us) => Ok([u] + us)
  }

  lemma CollectOne(n: NodeName, u: Update)
    ensures Collect([n], [Ok(u)]) == Ok([u])
  {
    var rs: seq<Result<Update, NodeError>> := [Ok(u)];
    assert [n][1..] == [] && rs[1..] == [];
    assert Collect([], []) == Ok([]);
    assert [u] + [] == [u];
  }

  lemma CollectTwo(n1: NodeName, n2: NodeName, u1: Update, u2: Update)
    ensures Collect([n1, n2], [Ok(u1), Ok(u2)]) == Ok([u1, u2])
  {
    var rs: seq<Result<Update, NodeError>> := [Ok(u1), Ok(u2)];
    assert [n1, n2][1..] == [n2] && rs[1..] == [Ok(u2)];
    CollectOne(n2, u2);
    assert [u1] + [u2] == [u1, u2];
  }

  /** The updates of one superstep's nodes, each computed from the same state `s`. */
  function StageUpdates(g: CompiledGraph, s: ChatroomState, names: seq<NodeName>, model: ChatModel)
    : Result<seq<Update>, RoundError>
    requires StageKnown(g, names)
  {
    Collect(names, seq(|names|, i requires 0 <= i < |names| => ExecuteNode(g.nodes[names[i]], s, model)))
  }

  /** The keys a channel without a reducer holds: every key but the history. */
  function LastValueKeys(u: Update): set<Key>
  {
    Keys(u) - {ConversationHistory}
  }

  /** Two updates of one superstep both write a key that keeps only its last value. */
  predicate HasConflict(us: seq<Update>)
  {
    exists i, j :: 0 <= i < j < |us| && !(LastValueKeys(us[i]) !! LastValueKeys(us[j]))
  }

  /** Applies the updates one after another. */
  function ApplyAll(s: ChatroomState, us: seq<Update>): ChatroomState
    decreases |us|
  {
    if us == [] then s else Apply(ApplyAll(s, us[..|us| - 1]), us[|us| - 1])
  }

  /** One superstep: compute every node's update from `s`, then apply them. */
  function RunStage(g: CompiledGraph, s: ChatroomState, names: seq<NodeName>, model: ChatModel)
    : Result<ChatroomState, RoundError>
    requires StageKnown(g, names)
  {
    match StageUpdates(g, s, names, model)
    case Err(e) => Err(e)
    case Ok(us) => if HasConflict(us) then Err(InvalidUpdate) else Ok(ApplyAll(s, us))
  }

  function RunStages(g: CompiledGraph, s: ChatroomState, stages: seq<seq<NodeName>>, model: ChatModel)
    : Result<ChatroomState, RoundError>
    requires forall i :: 0 <= i < |stages| ==> StageKnown(g, stages[i])
    decreases |stages|
  {
    if stages == [] then Ok(s)
    else
      match RunStage(g, s, stages[0], model)
      case Err(e) => Err(e)
      case Ok(s') => RunStages(g, s', stages[1..], model)
  }

  lemma ChatroomStagesKnown()
    ensures forall i :: 0 <= i < |ChatroomStages| ==> StageKnown(ChatroomGraph, ChatroomStages[i])
  {
  }

  /** One round: the supersteps from `user_input` up to the interrupt before `human_turn`. */
  function Round(s: ChatroomState, model: ChatModel): Result<ChatroomState, RoundError>
  {
    ChatroomStagesKnown();
    RunStages(ChatroomGraph, s, ChatroomStages, model)
  }

  /** A superstep of one node applies that node's update. */
  lemma {:induction false} SingleNodeStage(g: CompiledGraph, s: ChatroomState, n: NodeName, model: ChatModel)
    requires n in g.nodes
    ensures ExecuteNode(g.nodes[n], s, model).Err? ==>
              RunStage(g, s, [n], model) == Err(NodeFailed(n, ExecuteNode(g.nodes[n], s, model).error))
    ensures ExecuteNode(g.nodes[n], s, model).Ok? ==>
              RunStage(g, s, [n], model) == Ok(Apply(s, ExecuteNode(g.nodes[n], s, model).value))
  {
    var us := StageUpdates(g, s, [n], model);
    if us.Ok? {
      assert !HasConflict(us.value);
      assert ApplyAll(s, us.value) == Apply(ApplyAll(s, []), us.value[0]);
    }
  }

  /** A superstep of two nodes writing disjoint keys applies both updates. */
  lemma {:induction false} TwoNodeStage(g: CompiledGraph, s: ChatroomState, n1: NodeName, n2: NodeName, model: ChatModel)
    requires n1 in g.nodes && n2 in g.nodes
    requires ExecuteNode(g.nodes[n1], s, model).Ok? && ExecuteNode(g.nodes[n2], s, model).Ok?
    requires Keys(ExecuteNode(g.nodes[n1], s, model).value) !! Keys(ExecuteNode(g.nodes[n2], s, model).value)
    ensures RunStage(g, s, [n1, n2], model)
         == Ok(Apply(Apply(s, ExecuteNode(g.nodes[n1], s, model).value), ExecuteNode(g.nodes[n2], s, model).value))
  {
    var u1 := ExecuteNode(g.nodes[n1], s, model).value;
    var u2 := ExecuteNode(g.nodes[n2], s, model).value;
    var results := seq(2, i requires 0 <= i < 2 => ExecuteNode(g.nodes[[n1, n2][i]], s, model));
    var oks: seq<Result<Update, NodeError>> := [Ok(u1), Ok(u2)];
    assert results == oks;
    assert StageUpdates(g, s, [n1, n2], model) == Collect([n1, n2], oks);
    CollectTwo(n1, n2, u1, u2);
    assert !HasConflict([u1, u2]) by {
      forall i, j | 0 <= i < j < 2
        ensures LastValueKeys([u1, u2][i]) !! LastValueKeys([u1, u2][j])
      {
      }
    }
    assert [u1, u2][..1] == [u1];
    assert ApplyAll(s, [u1]) == Apply(ApplyAll(s, []), u1);
  }

  /**
   * Two nodes of one superstep that both write the same key without a
   * reducer (the user message or a message key) make the superstep fail
   * with `InvalidUpdate`.
   */
  lemma {:induction false} TwoNodeConflict(g: CompiledGraph, s: ChatroomState, n1: NodeName, n2: NodeName, model: ChatModel)
    requires n1 in g.nodes && n2 in g.nodes
    requires ExecuteNode(g.nodes[n1], s, model).Ok? && ExecuteNode(g.nodes[n2], s, model).Ok?
    requires !(LastValueKeys(ExecuteNode(g.nodes[n1], s, model).value) !! LastValueKeys(ExecuteNode(g.nodes[n2], s, model).value))
    ensures RunStage(g, s, [n1, n2], model) == Err(InvalidUpdate)
  {
    var u1 := ExecuteNode(g.nodes[n1], s, model).value;
    var u2 := ExecuteNode(g.nodes[n2], s, model).value;
    var results := seq(2, i requires 0 <= i < 2 => ExecuteNode(g.nodes[[n1, n2][i]], s, model));
    var oks: seq<Result<Update, NodeError>> := [Ok(u1), Ok(u2)];
    assert results == oks;
    assert StageUpdates(g, s, [n1, n2], model) == Collect([n1, n2], oks);
    CollectTwo(n1, n2, u1, u2);
    assert HasConflict([u1, u2]) by {
      assert [u1, u2][0] == u1 && [u1, u2][1] == u2;
    }
  }

  /**
   * The two persona nodes of a fan-out write disjoint keys, so the superstep
   * succeeds in either order or in neither, and on success leaves the same state.
   */
  lemma {:induction false} FanOutOrderIndependent(g: CompiledGraph, s: ChatroomState, na: NodeName, nb: NodeName, model: ChatModel)
    requires na in g.nodes && nb in g.nodes
    requires g.nodes[na] == ModelANodeFn && g.nodes[nb] == ModelBNodeFn
    ensures RunStage(g, s, [na, nb], model).Ok? <==> RunStage(g, s, [nb, na], model).Ok?
    ensures RunStage(g, s, [na, nb], model).Ok? ==> RunStage(g, s, [na, nb], model) == RunStage(g, s, [nb, na], model)
    ensures RunStage(g, s, [na, nb], model).Ok? <==> ModelAQuery in s.fields && ModelBQuery in s.fields
  {
    var ra := ExecuteNode(g.nodes[na], s, model);
    var rb := ExecuteNode(g.nodes[nb], s, model);
    if ra.Ok? && rb.Ok? {
      TwoNodeStage(g, s, na, nb, model);
      TwoNodeStage(g, s, nb, na, model);
      ApplyCommutes(s, ra.value, rb.value);
    } else if ra.Err? {
      StageFailsWithNode(g, s, [na, nb], 0, model);
      StageFailsWithNode(g, s, [nb, na], 1, model);
    } else {
      StageFailsWithNode(g, s, [na, nb], 1, model);
      StageFailsWithNode(g, s, [nb, na], 0, model);
    }
  }

  /** A superstep fails when any of its nodes raises. */
  lemma StageFailsWithNode(g: CompiledGraph, s: ChatroomState, names: seq<NodeName>, k: nat, model: ChatModel)
    requires StageKnown(g, names) && k < |names|
    requires ExecuteNode(g.nodes[names[k]], s, model).Err?
    ensures RunStage(g, s, names, model).Err?
  {
    var results := seq(|names|, i requires 0 <= i < |names| => ExecuteNode(g.nodes[names[i]], s, model));
    assert !results[k].Ok?;
  }

  lemma ExecutePersonaNode(g: CompiledGraph, n: NodeName, config: ChatbotConfig, queryKey: MessageKey,
                           responseKey: MessageKey, s: ChatroomState, model: ChatModel)
    requires n in g.nodes
    requires (g.nodes[n] == ModelANodeFn && config == ModelAConfig && queryKey == ModelAQuery && responseKey == ModelAResponse)
          || (g.nodes[n] == ModelBNodeFn && config == ModelBConfig && queryKey == ModelBQuery && responseKey == ModelBResponse)
    requires queryKey in s.fields
    ensures ExecuteNode(g.nodes[n], s, model)
         == Ok(Update(None, map[responseKey := PersonaReply(config, s.fields[queryKey], s.conversationHistory, model)], None))
  {
  }

  /** A superstep of the two persona nodes writes each persona's reply to its own query. */
  lemma {:induction false} PersonaStage(g: CompiledGraph, s: ChatroomState, na: NodeName, nb: NodeName, model: ChatModel)
    requires na in g.nodes && nb in g.nodes
    requires g.nodes[na] == ModelANodeFn && g.nodes[nb] == ModelBNodeFn
    requires ModelAQuery in s.fields && ModelBQuery in s.fields
    ensures RunStage(g, s, [na, nb], model) == Ok(ChatroomState(
              s.userMessage,
              s.fields[ModelAResponse := PersonaReply(ModelAConfig, s.fields[ModelAQuery], s.conversationHistory, model)]
                      [ModelBResponse := PersonaReply(ModelBConfig, s.fields[ModelBQuery], s.conversationHistory, model)],
              s.conversationHistory))
  {
    var a := PersonaReply(ModelAConfig, s.fields[ModelAQuery], s.conversationHistory, model);
    var b := PersonaReply(ModelBConfig, s.fields[ModelBQuery], s.conversationHistory, model);
    var ua := Update(None, map[ModelAResponse := a], None);
    var ub := Update(None, map[ModelBResponse := b], None);
    ExecutePersonaNode(g, na, ModelAConfig, ModelAQuery, ModelAResponse, s, model);
    ExecutePersonaNode(g, nb, ModelBConfig, ModelBQuery, ModelBResponse, s, model);
    TwoUpdateStage(g, s, na, nb, model, ua, ub);
    ApplyTwoResponses(s, a, b);
  }

  lemma TwoUpdateStage(g: CompiledGraph, s: ChatroomState, na: NodeName, nb: NodeName, model: ChatModel, ua: Update, ub: Update)
    requires na in g.nodes && nb in g.nodes
    requires ExecuteNode(g.nodes[na], s, model) == Ok(ua)
    requires ExecuteNode(g.nodes[nb], s, model) == Ok(ub)
    requires ua.userMessage.None? && ub.userMessage.None? && ua.conversationHistory.None? && ub.conversationHistory.None?
    requires ua.fields.Keys !! ub.fields.Keys
    ensures RunStage(g, s, [na, nb], model) == Ok(Apply(Apply(s, ua), ub))
  {
    assert Keys(ua) !! Keys(ub);
    TwoNodeStage(g, s, na, nb, model);
  }

  lemma ApplyTwoResponses(s: ChatroomState, a: ChatMessage, b: ChatMessage)
    ensures Apply(Apply(s, Update(None, map[ModelAResponse := a], None)), Update(None, map[ModelBResponse := b], None))
         == ChatroomState(s.userMessage, s.fields[ModelAResponse := a][ModelBResponse := b], s.conversationHistory)
  {
    assert s.fields + map[ModelAResponse := a] == s.fields[ModelAResponse := a];
    assert s.fields[ModelAResponse := a] + map[ModelBResponse := b] == s.fields[ModelAResponse := a][ModelBResponse := b];
  }

  /** The `prepare_reactions` superstep swaps the two responses into the two queries. */
  lemma {:induction false} PrepareStage(g: CompiledGraph, s: ChatroomState, n: NodeName, model: ChatModel)
    requires n in g.nodes && g.nodes[n] == PrepareReactionsFn
    requires ModelAResponse in s.fields && ModelBResponse in s.fields
    ensures RunStage(g, s, [n], model) == Ok(ChatroomState(
              s.userMessage,
              s.fields[ModelAQuery := s.fields[ModelBResponse]][ModelBQuery := s.fields[ModelAResponse]],
              s.conversationHistory))
  {
    SingleNodeStage(g, s, n, model);
    var m := map[ModelAQuery := s.fields[ModelBResponse], ModelBQuery := s.fields[ModelAResponse]];
    assert ExecuteNode(g.nodes[n], s, model) == Ok(Update(None, m, None));
    assert s.fields + m == s.fields[ModelAQuery := s.fields[ModelBResponse]][ModelBQuery := s.fields[ModelAResponse]];
  }

  /** Running a list of supersteps runs the first, then the rest from its result. */
  lemma RunStagesStep(g: CompiledGraph, s: ChatroomState, stages: seq<seq<NodeName>>, s': ChatroomState, model: ChatModel)
    requires stages != []
    requires forall i :: 0 <= i < |stages| ==> StageKnown(g, stages[i])
    requires RunStage(g, s, stages[0], model) == Ok(s')
    ensures RunStages(g, s, stages, model) == RunStages(g, s', stages[1..], model)
  {
  }

  /** A list of supersteps fails with the first superstep's error. */
  lemma RunStagesFail(g: CompiledGraph, s: ChatroomState, stages: seq<seq<NodeName>>, model: ChatModel)
    requires stages != []
    requires forall i :: 0 <= i < |stages| ==> StageKnown(g, stages[i])
    requires RunStage(g, s, stages[0], model).Err?
    ensures RunStages(g, s, stages, model) == Err(RunStage(g, s, stages[0], model).error)
  {
  }

  /** After the respond, swap and react supersteps, all four message keys hold the round's messages. */
  lemma FieldsAfterRound(f: map<MessageKey, ChatMessage>, a1: ChatMessage, b1: ChatMessage, a2: ChatMessage, b2: ChatMessage)
    ensures f[ModelAResponse := a1][ModelBResponse := b1][ModelAQuery := b1][ModelBQuery := a1][ModelAResponse := a2][ModelBResponse := b2]
         == map[ModelAQuery := b1, ModelBQuery := a1, ModelAResponse := a2, ModelBResponse := b2]
  {
    var m := f[ModelAResponse := a1][ModelBResponse := b1][ModelAQuery := b1][ModelBQuery := a1][ModelAResponse := a2][ModelBResponse := b2];
    var e := map[ModelAQuery := b1, ModelBQuery := a1, ModelAResponse := a2, ModelBResponse := b2];
    forall k: MessageKey
      ensures k in m && k in e && m[k] == e[k]
    {
      match k
      case ModelAQuery =>
      case ModelBQuery =>
      case ModelAResponse =>
      case ModelBResponse =>
    }
    assert m.Keys == e.Keys;
  }

  /**
   * The three supersteps after `user_input`, from a state whose two queries
   * are set: both personas answer their query, the answers are swapped into
   * the queries, and each persona reacts to the other's answer.
   */
  lemma {:induction false} StagesAfterUserInput(s1: ChatroomState, model: ChatModel)
    requires ModelAQuery in s1.fields && ModelBQuery in s1.fields
    ensures forall i :: 0 <= i < |ChatroomStages[1..]| ==> StageKnown(ChatroomGraph, ChatroomStages[1..][i])
    ensures var h := s1.conversationHistory;
            var a1 := PersonaReply(ModelAConfig, s1.fields[ModelAQuery], h, model);
            var b1 := PersonaReply(ModelBConfig, s1.fields[ModelBQuery], h, model);
            RunStages(ChatroomGraph, s1, ChatroomStages[1..], model)
            == Ok(ChatroomState(s1.userMessage,
                                map[ModelAQuery := b1, ModelBQuery := a1,
                                    ModelAResponse := PersonaReply(ModelAConfig, b1, h, model),
                                    ModelBResponse := PersonaReply(ModelBConfig, a1, h, model)],
                                h))
  {
    var h := s1.conversationHistory;
    var a1 := PersonaReply(ModelAConfig, s1.fields[ModelAQuery], h, model);
    var b1 := PersonaReply(ModelBConfig, s1.fields[ModelBQuery], h, model);
    var s3 := ChatroomState(s1.userMessage, s1.fields[ModelAResponse := a1][ModelBResponse := b1][ModelAQuery := b1][ModelBQuery := a1], h);
    RespondThenSwap(s1, model);
    ReactToPeers(s3, model);
    FieldsAfterRound(s1.fields, a1, b1, PersonaReply(ModelAConfig, b1, h, model), PersonaReply(ModelBConfig, a1, h, model));
  }

  /** The respond superstep followed by the `prepare_reactions` superstep. */
  lemma {:induction false} RespondThenSwap(s1: ChatroomState, model: ChatModel)
    requires ModelAQuery in s1.fields && ModelBQuery in s1.fields
    ensures forall i :: 0 <= i < |ChatroomStages[1..]| ==> StageKnown(ChatroomGraph, ChatroomStages[1..][i])
    ensures forall i :: 0 <= i < |ChatroomStages[3..]| ==> StageKnown(ChatroomGraph, ChatroomStages[3..][i])
    ensures var h := s1.conversationHistory;
            var a1 := PersonaReply(ModelAConfig, s1.fields[ModelAQuery], h, model);
            var b1 := PersonaReply(ModelBConfig, s1.fields[ModelBQuery], h, model);
            RunStages(ChatroomGraph, s1, ChatroomStages[1..], model)
            == RunStages(ChatroomGraph,
                         ChatroomState(s1.userMessage, s1.fields[ModelAResponse := a1][ModelBResponse := b1][ModelAQuery := b1][ModelBQuery := a1], h),
                         ChatroomStages[3..], model)
  {
    var h := s1.conversationHistory;
    var a1 := PersonaReply(ModelAConfig, s1.fields[ModelAQuery], h, model);
    var b1 := PersonaReply(ModelBConfig, s1.fields[ModelBQuery], h, model);
    RespondStep(s1, model);
    var s2 := ChatroomState(s1.userMessage, s1.fields[ModelAResponse := a1][ModelBResponse := b1], h);
    SwapStep(s2, model);
  }

  /** The respond superstep of a round. */
  lemma {:induction false} RespondStep(s1: ChatroomState, model: ChatModel)
    requires ModelAQuery in s1.fields && ModelBQuery in s1.fields
    ensures forall i :: 0 <= i < |ChatroomStages[1..]| ==> StageKnown(ChatroomGraph, ChatroomStages[1..][i])
    ensures forall i :: 0 <= i < |ChatroomStages[2..]| ==> StageKnown(ChatroomGraph, ChatroomStages[2..][i])
    ensures var h := s1.conversationHistory;
            var a1 := PersonaReply(ModelAConfig, s1.fields[ModelAQuery], h, model);
            var b1 := PersonaReply(ModelBConfig, s1.fields[ModelBQuery], h, model);
            RunStages(ChatroomGraph, s1, ChatroomStages[1..], model)
            == RunStages(ChatroomGraph, ChatroomState(s1.userMessage, s1.fields[ModelAResponse := a1][ModelBResponse := b1], h),
                         ChatroomStages[2..], model)
  {
    var g := ChatroomGraph;
    ChatroomStagesKnown();
    ChatroomNodeFns();
    var h := s1.conversationHistory;
    var a1 := PersonaReply(ModelAConfig, s1.fields[ModelAQuery], h, model);
    var b1 := PersonaReply(ModelBConfig, s1.fields[ModelBQuery], h, model);
    assert ChatroomStages[1..][0] == [ModelARespondNode, ModelBRespondNode];
    assert ChatroomStages[1..][1..] == ChatroomStages[2..];
    PersonaStage(g, s1, ModelARespondNode, ModelBRespondNode, model);
    var s2 := ChatroomState(s1.userMessage, s1.fields[ModelAResponse := a1][ModelBResponse := b1], h);
    RunStagesStep(g, s1, ChatroomStages[1..], s2, model);
  }

  /** The `prepare_reactions` superstep of a round. */
  lemma {:induction false} SwapStep(s2: ChatroomState, model: ChatModel)
    requires ModelAResponse in s2.fields && ModelBResponse in s2.fields
    ensures forall i :: 0 <= i < |ChatroomStages[2..]| ==> StageKnown(ChatroomGraph, ChatroomStages[2..][i])
    ensures forall i :: 0 <= i < |ChatroomStages[3..]| ==> StageKnown(ChatroomGraph, ChatroomStages[3..][i])
    ensures RunStages(ChatroomGraph, s2, ChatroomStages[2..], model)
         == RunStages(ChatroomGraph,
                      ChatroomState(s2.userMessage,
                                    s2.fields[ModelAQuery := s2.fields[ModelBResponse]][ModelBQuery := s2.fields[ModelAResponse]],
                                    s2.conversationHistory),
                      ChatroomStages[3..], model)
  {
    var g := ChatroomGraph;
    ChatroomStagesKnown();
    ChatroomNodeFns();
    assert ChatroomStages[2..][0] == [PrepareReactionsNode];
    assert ChatroomStages[2..][1..] == ChatroomStages[3..];
    PrepareStage(g, s2, PrepareReactionsNode, model);
    var s3 := ChatroomState(s2.userMessage,
                            s2.fields[ModelAQuery := s2.fields[ModelBResponse]][ModelBQuery := s2.fields[ModelAResponse]],
                            s2.conversationHistory);
    RunStagesStep(g, s2, ChatroomStages[2..], s3, model);
  }

  /** The react superstep: each persona answers the other's response. */
  lemma {:induction false} ReactToPeers(s3: ChatroomState, model: ChatModel)
    requires ModelAQuery in s3.fields && ModelBQuery in s3.fields
    ensures var h := s3.conversationHistory;
            RunStages(ChatroomGraph, s3, ChatroomStages[3..], model)
            == Ok(ChatroomState(s3.userMessage,
                                s3.fields[ModelAResponse := PersonaReply(ModelAConfig, s3.fields[ModelAQuery], h, model)]
                                         [ModelBResponse := PersonaReply(ModelBConfig, s3.fields[ModelBQuery], h, model)],
                                h))
  {
    var g := ChatroomGraph;
    ChatroomStagesKnown();
    ChatroomNodeFns();
    var h := s3.conversationHistory;
    assert ChatroomStages[3..][0] == [ModelAReactNode, ModelBReactNode];
    assert ChatroomStages[3..][1..] == [];
    PersonaStage(g, s3, ModelAReactNode, ModelBReactNode, model);
    var s4 := ChatroomState(s3.userMessage,
                            s3.fields[ModelAResponse := PersonaReply(ModelAConfig, s3.fields[ModelAQuery], h, model)]
                                     [ModelBResponse := PersonaReply(ModelBConfig, s3.fields[ModelBQuery], h, model)], h);
    RunStagesStep(g, s3, ChatroomStages[3..], s4, model);
  }

  /**
   * A round seeds both queries with the user's message U; Model A answers it
   * with a1 and Model B with b1; then each persona's query is the other's
   * answer and its response is its reaction to that answer.  The user message
   * and the conversation history leave the round as they entered it.  The
   * round fails, before any persona runs, exactly when the user message is
   * missing or is a mapping without "content".
   */
  lemma {:induction false} RoundOutcome(s: ChatroomState, model: ChatModel)
    ensures Round(s, model).Ok? <==> s.userMessage.Some? && Normalize(s.userMessage.value).Ok?
    ensures s.userMessage.None? ==> Round(s, model) == Err(NodeFailed(UserInputNode, MissingKey("user_message")))
    ensures s.userMessage.Some? && Normalize(s.userMessage.value).Err? ==>
              Round(s, model) == Err(NodeFailed(UserInputNode, Normalize(s.userMessage.value).error))
    ensures Round(s, model).Ok? ==>
              var u := Normalize(s.userMessage.value).value;
              var h := s.conversationHistory;
              var a1 := PersonaReply(ModelAConfig, u, h, model);
              var b1 := PersonaReply(ModelBConfig, u, h, model);
              Round(s, model).value
              == ChatroomState(s.userMessage,
                               map[ModelAQuery := b1, ModelBQuery := a1,
                                   ModelAResponse := PersonaReply(ModelAConfig, b1, h, model),
                                   ModelBResponse := PersonaReply(ModelBConfig, a1, h, model)],
                               h)
  {
    var g := ChatroomGraph;
    ChatroomStagesKnown();
    ChatroomNodeFns();
    assert ChatroomStages[0] == [UserInputNode];
    SingleNodeStage(g, s, UserInputNode, model);
    var r1 := RunStage(g, s, [UserInputNode], model);
    if r1.Ok? {
      RunStagesStep(g, s, ChatroomStages, r1.value, model);
      StagesAfterUserInput(r1.value, model);
    } else {
      RunStagesFail(g, s, ChatroomStages, model);
    }
  }

  /**
   * After a successful round every query and response is set; the reactions
   * answered queries from the other persona, which always take the peer
   * framing, and every response is stamped with its persona's name.
   */
  lemma RoundFraming(s: ChatroomState, model: ChatModel)
    requires Round(s, model).Ok?
    ensures var s' := Round(s, model).value;
            && s'.fields.Keys == {ModelAQuery, ModelBQuery, ModelAResponse, ModelBResponse}
            && s'.fields[ModelAQuery].sender == "Model B" && s'.fields[ModelBQuery].sender == "Model A"
            && s'.fields[ModelAResponse].sender == "Model A" && s'.fields[ModelBResponse].sender == "Model B"
  {
    RoundOutcome(s, model);
  }

  /**
   * The reaction requests of a round: each query the react supersteps send
   * comes from the other persona, so both are framed as peer messages.
   */
  lemma ReactionRequestsArePeerFramed(s: ChatroomState, model: ChatModel, s': ChatroomState)
    requires Round(s, model) == Ok(s')
    ensures ModelAQuery in s'.fields && ModelBQuery in s'.fields
    ensures EndsWith(Request(ModelAConfig, s'.fields[ModelAQuery])[1].content, PeerFramingSuffix)
    ensures EndsWith(Request(ModelBConfig, s'.fields[ModelBQuery])[1].content, PeerFramingSuffix)
  {
    RoundFraming(s, model);
    PeerRequest(ModelAConfig, s'.fields[ModelAQuery]);
    PeerRequest(ModelBConfig, s'.fields[ModelBQuery]);
  }


  // ---------------------------------------------------------------------
  // The state threaded through a round, updated in place

  /** The chatroom state as the running graph holds it. */
  class Chatroom {
    var userMessage: Option<Inbound>
    var fields: map<MessageKey, ChatMessage>
    var conversationHistory: ChatHistory

    function State(): ChatroomState
      reads this
    {
      ChatroomState(userMessage, fields, conversationHistory)
    }

    /** A fresh thread: only the user's message is set, the history is empty. */
    constructor (input: Inbound)
      ensures State() == ChatroomState(Some(input), map[], EmptyHistory())
    {
      userMessage := Some(input);
      fields := map[];
      conversationHistory := EmptyHistory();
    }

    /** Writes one node's update into the state. */
    method ApplyUpdate(u: Update)
      modifies this
      ensures State() == Apply(old(State()), u)
    {
      if u.userMessage.Some? {
        userMessage := u.userMessage;
      }
      fields := fields + u.fields;
      if u.conversationHistory.Some? {
        conversationHistory := MergeHistory(conversationHistory, u.conversationHistory.value);
      }
    }

    /** Writes a superstep's updates into the state, one after another. */
    method ApplyUpdates(us: seq<Update>)
      modifies this
      ensures State() == ApplyAll(old(State()), us)
    {
      ghost var start := State();
      var i := 0;
      while i < |us|
        invariant 0 <= i <= |us|
        invariant State() == ApplyAll(start, us[..i])
      {
        ApplyUpdate(us[i]);
        assert us[..i + 1][..i] == us[..i];
        i := i + 1;
      }
      assert us[..|us|] == us;
    }

    /** One superstep in place; on failure the state is left as it was. */
    method RunStageInPlace(g: CompiledGraph, names: seq<NodeName>, model: ChatModel) returns (result: Result<(), RoundError>)
      requires StageKnown(g, names)
      modifies this
      ensures RunStage(g, old(State()), names, model).Ok? ==>
                result.Ok? && State() == RunStage(g, old(State()), names, model).value
      ensures RunStage(g, old(State()), names, model).Err? ==>
                result == Err(RunStage(g, old(State()), names, model).error) && State() == old(State())
    {
      var snapshot := State();
      var updates := StageUpdates(g, snapshot, names, model);
      if updates.Err? {
        return Err(updates.error);
      }
      var us := updates.value;
      if HasConflict(us) {
        return Err(InvalidUpdate);
      }
      ApplyUpdates(us);
      result := Ok(());
    }

    /**
     * Runs the round's supersteps in order, stopping before `human_turn`.
     * A failing superstep abandons the round and restores the state it started from.
     */
    method RunRound(model: ChatModel) returns (result: Result<(), RoundError>)
      modifies this
      ensures Round(old(State()), model).Ok? ==> result.Ok? && State() == Round(old(State()), model).value
      ensures Round(old(State()), model).Err? ==>
                result == Err(Round(old(State()), model).error) && State() == old(State())
    {
      var start := State();
      ChatroomStagesKnown();
      var stages := ChatroomStages;
      var i := 0;
      while i < |stages|
        invariant 0 <= i <= |stages|
        invariant Round(start, model) == RunStages(ChatroomGraph, State(), stages[i..], model)
      {
        var r := RunStageInPlace(ChatroomGraph, stages[i], model);
        assert stages[i..][1..] == stages[i + 1..];
        if r.Err? {
          userMessage, fields, conversationHistory := start.userMessage, start.fields, start.conversationHistory;
          return r;
        }
        i := i + 1;
      }
      result := Ok(());
    }
  }
}
