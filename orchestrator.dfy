/** `SOCOrchestrator`: the state graph triage -> (investigate | decide | end) -> decide ->
    respond -> end, the node wrappers around the four stages, and `process_alert`. */
module Orchestrator {
  import opened Wrappers
  import opened External
  import opened Context
  import TriageAgent
  import InvestigationAgent
  import DecisionAgent
  import ResponseAgent

  // ---------------------------------------------------------------- nodes and edges

  /** The four nodes registered by `_build_workflow`. */
  datatype Node = TriageNode | InvestigateNode | DecideNode | RespondNode {
    /** The node's place in the pipeline; every edge goes to a later place. */
    function Rank(): nat {
      match this
      case TriageNode => 0
      case InvestigateNode => 1
      case DecideNode => 2
      case RespondNode => 3
    }

    /** What the wrapper writes to `current_agent` before calling the stage. */
    function Label(): string {
      match this
      case TriageNode => "triage"
      case InvestigateNode => "investigation"
      case DecideNode => "decision"
      case RespondNode => "response"
    }

    /** The prefix of the error the wrapper records when the stage raises. */
    function ErrorPrefix(): string {
      match this
      case TriageNode => "Triage error: "
      case InvestigateNode => "Investigation error: "
      case DecideNode => "Decision error: "
      case RespondNode => "Response error: "
    }
  }

  /** Where a conditional edge leads: a node, or END. */
  datatype Target = Go(node: Node) | End

  /** The edges `_build_workflow` declares, whatever their conditions. */
  predicate Edge(a: Node, b: Node) {
    || (a == TriageNode && (b == InvestigateNode || b == DecideNode))
    || (a == InvestigateNode && b == DecideNode)
    || (a == DecideNode && b == RespondNode)
  }

  /** `_should_investigate`: decide after a failed triage, investigate when triage asks for
      it, decide otherwise. */
  function ShouldInvestigate(s: WorkflowState): (n: Node)
    ensures n == InvestigateNode <==>
              s.status != AlertStatus.Failed && s.triageResult.Some? && s.triageResult.value.requiresInvestigation
    ensures n == InvestigateNode || n == DecideNode
  {
    if s.status == AlertStatus.Failed then DecideNode
    else if s.triageResult.Some? && s.triageResult.value.requiresInvestigation then InvestigateNode
    else DecideNode
  }

  /** `_after_triage`: END on failure, otherwise the choice of `_should_investigate`. */
  function AfterTriage(s: WorkflowState): (t: Target)
    ensures s.status == AlertStatus.Failed ==> t == End
    ensures s.status != AlertStatus.Failed ==>
              (t == Go(InvestigateNode) <==> s.triageResult.Some? && s.triageResult.value.requiresInvestigation)
    ensures s.status != AlertStatus.Failed ==> t == Go(InvestigateNode) || t == Go(DecideNode)
  {
    if s.status == AlertStatus.Failed then End else Go(ShouldInvestigate(s))
  }

  /** `_after_investigation`: END on failure, otherwise decide. */
  function AfterInvestigation(s: WorkflowState): (t: Target)
    ensures t == End <==> s.status == AlertStatus.Failed
    ensures t != End ==> t == Go(DecideNode)
  {
    if s.status == AlertStatus.Failed then End else Go(DecideNode)
  }

  /** `_after_decision`: END on failure, otherwise respond. */
  function AfterDecision(s: WorkflowState): (t: Target)
    ensures t == End <==> s.status == AlertStatus.Failed
    ensures t != End ==> t == Go(RespondNode)
  {
    if s.status == AlertStatus.Failed then End else Go(RespondNode)
  }

  /** Where the graph goes after node `n` has run and its update is merged into `s`; respond
      has the plain edge to END. */
  function Next(n: Node, s: WorkflowState): (t: Target)
    ensures t.Go? ==> Edge(n, t.node) && n.Rank() < t.node.Rank()
    ensures n == RespondNode ==> t == End
    ensures t == End && n != RespondNode ==> s.status == AlertStatus.Failed
  {
    match n
    case TriageNode => AfterTriage(s)
    case InvestigateNode => AfterInvestigation(s)
    case DecideNode => AfterDecision(s)
    case RespondNode => End
  }

  /** The edges go forward only, so following them visits each node at most once. */
  lemma EdgesGoForward(a: Node, b: Node)
    requires Edge(a, b)
    ensures a.Rank() < b.Rank() && b != TriageNode && a != RespondNode
  {
  }

  // ---------------------------------------------------------------- updates

  /** The keys of the state graph's channels that a node may update. */
  datatype Key =
    | StatusKey | CurrentAgentKey | TriageResultKey | InvestigationResultKey | DecisionResultKey
    | ResponseResultKey | CompletedAtKey | ProcessingTimeKey | ErrorsKey | WarningsKey

  /** `a` and `b` agree on the channel `k`. */
  predicate SameAt(a: WorkflowState, b: WorkflowState, k: Key) {
    match k
    case StatusKey => a.status == b.status
    case CurrentAgentKey => a.currentAgent == b.currentAgent
    case TriageResultKey => a.triageResult == b.triageResult
    case InvestigationResultKey => a.investigationResult == b.investigationResult
    case DecisionResultKey => a.decisionResult == b.decisionResult
    case ResponseResultKey => a.responseResult == b.responseResult
    case CompletedAtKey => a.completedAt == b.completedAt
    case ProcessingTimeKey => a.processingTimeSeconds == b.processingTimeSeconds
    case ErrorsKey => a.errors == b.errors
    case WarningsKey => a.warnings == b.warnings
  }

  /** The dictionary a node returns: the keys it lists, with their values read from `values`. */
  datatype Update = Update(keys: set<Key>, values: WorkflowState)

  /** Applying a node's returned dictionary to the channels: each listed key takes the returned
      value (the last value wins), and every other channel keeps what it had. */
  function Merge(channels: WorkflowState, u: Update): (r: WorkflowState)
  {
    var v := u.values;
    var c := channels;
    WorkflowState(
      c.alert,
      if StatusKey in u.keys then v.status else c.status,
      if CurrentAgentKey in u.keys then v.currentAgent else c.currentAgent,
      c.enableAi,
      if TriageResultKey in u.keys then v.triageResult else c.triageResult,
      if InvestigationResultKey in u.keys then v.investigationResult else c.investigationResult,
      if DecisionResultKey in u.keys then v.decisionResult else c.decisionResult,
      if ResponseResultKey in u.keys then v.responseResult else c.responseResult,
      c.workflowId,
      c.startedAt,
      if CompletedAtKey in u.keys then v.completedAt else c.completedAt,
      if ProcessingTimeKey in u.keys then v.processingTimeSeconds else c.processingTimeSeconds,
      if ErrorsKey in u.keys then v.errors else c.errors,
      if WarningsKey in u.keys then v.warnings else c.warnings)
  }

  /** Each channel `k` after the merge: the returned value when `k` is listed, the old value
      otherwise. */
  lemma MergeAt(channels: WorkflowState, u: Update, k: Key)
    ensures k in u.keys ==> SameAt(Merge(channels, u), u.values, k)
    ensures k !in u.keys ==> SameAt(Merge(channels, u), channels, k)
    ensures Merge(channels, u).alert == channels.alert && Merge(channels, u).enableAi == channels.enableAi
    ensures Merge(channels, u).workflowId == channels.workflowId
    ensures Merge(channels, u).startedAt == channels.startedAt
  {
    match k
    case StatusKey =>
    case CurrentAgentKey =>
    case TriageResultKey =>
    case InvestigationResultKey =>
    case DecisionResultKey =>
    case ResponseResultKey =>
    case CompletedAtKey =>
    case ProcessingTimeKey =>
    case ErrorsKey =>
    case WarningsKey =>
  }

  /** The keys a node returns when its stage returned normally. */
  function SuccessKeys(n: Node): set<Key> {
    match n
    case TriageNode => {StatusKey, CurrentAgentKey, TriageResultKey, ErrorsKey, WarningsKey}
    case InvestigateNode => {StatusKey, CurrentAgentKey, InvestigationResultKey, WarningsKey, ErrorsKey}
    case DecideNode => {StatusKey, CurrentAgentKey, DecisionResultKey, ErrorsKey}
    case RespondNode =>
      {StatusKey, CurrentAgentKey, ResponseResultKey, CompletedAtKey, ProcessingTimeKey, ErrorsKey}
  }

  /** The keys a node returns when its stage raised. */
  function FailureKeys(n: Node): set<Key> {
    if n == InvestigateNode then {StatusKey, CurrentAgentKey, WarningsKey, ErrorsKey}
    else {StatusKey, CurrentAgentKey, ErrorsKey}
  }

  /** The record a node hands to its stage: the channels with `current_agent` set to the
      node's label. */
  function Entered(n: Node, s: WorkflowState): (r: WorkflowState)
    ensures r.currentAgent == Some(n.Label())
    ensures r == s.(currentAgent := r.currentAgent)
  {
    s.(currentAgent := Some(n.Label()))
  }

  /** A node wrapper's returned dictionary, given what its stage did to the record: the stage's
      keys when it returned; when it raised, the record with one more error and status
      FAILED, under the failure keys. */
  function Wrap(n: Node, run: StageRun): (u: Update)
    ensures run.outcome.Returned? ==> u == Update(SuccessKeys(n), run.state)
    ensures run.outcome.Raised? ==>
              && u.keys == FailureKeys(n)
              && u.values.status == AlertStatus.Failed
              && u.values.errors == run.state.errors + [n.ErrorPrefix() + run.outcome.message]
              && u.values.currentAgent == run.state.currentAgent
              && u.values.warnings == run.state.warnings
  {
    match run.outcome
    case Returned => Update(SuccessKeys(n), run.state)
    case Raised(m) =>
      Update(FailureKeys(n), run.state.(errors := run.state.errors + [n.ErrorPrefix() + m],
                                         status := AlertStatus.Failed))
  }

  /** A node that returns no warnings, such as decide or respond, leaves the warnings channel
      as it was; no node touches the alert, the switch or the identifiers. */
  lemma UpdateTouchesOnlyItsKeys(channels: WorkflowState, n: Node, run: StageRun)
    ensures var r := Merge(channels, Wrap(n, run));
            && (n == DecideNode || n == RespondNode ==> r.warnings == channels.warnings)
            && (n != TriageNode ==> r.triageResult == channels.triageResult)
            && (n != DecideNode ==> r.decisionResult == channels.decisionResult)
            && (run.outcome.Raised? ==> r.triageResult == channels.triageResult
                                        && r.investigationResult == channels.investigationResult
                                        && r.decisionResult == channels.decisionResult
                                        && r.responseResult == channels.responseResult)
            && r.alert == channels.alert && r.enableAi == channels.enableAi
  {
    var u := Wrap(n, run);
    var r := Merge(channels, u);
    MergeAt(channels, u, WarningsKey);
    MergeAt(channels, u, TriageResultKey);
    MergeAt(channels, u, InvestigationResultKey);
    MergeAt(channels, u, DecisionResultKey);
    MergeAt(channels, u, ResponseResultKey);
  }

  // ---------------------------------------------------------------- the four node wrappers

  /** `_triage_node` as a value. */
  function TriageNodeSpec(s: WorkflowState, env: Environment): (u: Update) {
    Wrap(TriageNode, TriageAgent.ExecuteSpec(Entered(TriageNode, s), env))
  }

  /** `_investigation_node` as a value. */
  function InvestigateNodeSpec(s: WorkflowState, env: Environment): (u: Update) {
    Wrap(InvestigateNode, InvestigationAgent.ExecuteSpec(Entered(InvestigateNode, s), env))
  }

  /** `_decision_node` as a value. */
  function DecideNodeSpec(s: WorkflowState, env: Environment): (u: Update) {
    Wrap(DecideNode, DecisionAgent.ExecuteSpec(Entered(DecideNode, s), env))
  }

  /** `_response_node` as a value. */
  function RespondNodeSpec(s: WorkflowState, env: Environment): (u: Update) {
    Wrap(RespondNode, ResponseAgent.ExecuteSpec(Entered(RespondNode, s), env))
  }

  /** The end of a node wrapper: after the stage returned, the dictionary of its keys; after
      it raised, appends the error to the record, marks it FAILED and returns the failure keys. */
  method Conclude(n: Node, state: WorkflowRecord, outcome: Outcome) returns (u: Update)
    modifies state
    ensures u == Wrap(n, StageRun(old(state.View()), outcome))
    ensures outcome.Returned? ==> state.View() == old(state.View())
    ensures outcome.Raised? ==> state.View() == u.values
  {
    if outcome.Raised? {
      state.errors := state.errors + [n.ErrorPrefix() + outcome.message];
      state.status := AlertStatus.Failed;
      return Update(FailureKeys(n), state.View());
    }
    return Update(SuccessKeys(n), state.View());
  }

  /** `_triage_node`: builds the record from the channels, labels it, runs the triage stage
      and concludes. */
  method RunTriageNode(s: WorkflowState, env: Environment) returns (u: Update)
    ensures u == TriageNodeSpec(s, env)
  {
    var state := new WorkflowRecord(s);
    state.currentAgent := Some(TriageNode.Label());
    var outcome := TriageAgent.Execute(state, env);
    u := Conclude(TriageNode, state, outcome);
  }

  /** `_investigation_node`. */
  method RunInvestigateNode(s: WorkflowState, env: Environment) returns (u: Update)
    ensures u == InvestigateNodeSpec(s, env)
  {
    var state := new WorkflowRecord(s);
    state.currentAgent := Some(InvestigateNode.Label());
    var outcome := InvestigationAgent.Execute(state, env);
    u := Conclude(InvestigateNode, state, outcome);
  }

  /** `_decision_node`. */
  method RunDecideNode(s: WorkflowState, env: Environment) returns (u: Update)
    ensures u == DecideNodeSpec(s, env)
  {
    var state := new WorkflowRecord(s);
    state.currentAgent := Some(DecideNode.Label());
    var outcome := DecisionAgent.Execute(state, env);
    u := Conclude(DecideNode, state, outcome);
  }

  /** `_response_node`. */
  method RunRespondNode(s: WorkflowState, env: Environment) returns (u: Update)
    ensures u == RespondNodeSpec(s, env)
  {
    var state := new WorkflowRecord(s);
    state.currentAgent := Some(RespondNode.Label());
    var outcome := ResponseAgent.Execute(state, env);
    u := Conclude(RespondNode, state, outcome);
  }

  /** When the triage stage raises, the triage node returns status FAILED and the channels'
      errors with exactly one `"Triage error: ..."` appended (the stage itself adds none). */
  lemma TriageNodeOnRaise(s: WorkflowState, env: Environment, m: string)
    requires TriageAgent.ExecuteSpec(Entered(TriageNode, s), env).outcome == Raised(m)
    ensures var u := TriageNodeSpec(s, env);
            && u.keys == FailureKeys(TriageNode)
            && u.values.status == AlertStatus.Failed
            && u.values.errors == s.errors + ["Triage error: " + m]
  {
  }

  // ---------------------------------------------------------------- the compiled graph

  /** A graph of this shape with any four node functions; the engine below is stated for
      every such graph, and `Workflow` is the one the orchestrator compiles. */
  datatype Graph = Graph(
    triage: WorkflowState -> Update,
    investigate: WorkflowState -> Update,
    decide: WorkflowState -> Update,
    respond: WorkflowState -> Update)

  /** The graph `_build_workflow` builds over the four node wrappers. */
  function Workflow(env: Environment): (g: Graph) {
    Graph(s => TriageNodeSpec(s, env), s => InvestigateNodeSpec(s, env),
          s => DecideNodeSpec(s, env), s => RespondNodeSpec(s, env))
  }

  /** The update node `n` returns on the channels `s`. */
  function Step(g: Graph, n: Node, s: WorkflowState): Update {
    match n
    case TriageNode => g.triage(s)
    case InvestigateNode => g.investigate(s)
    case DecideNode => g.decide(s)
    case RespondNode => g.respond(s)
  }

  /** The channels after node `n` has run on `s` and its update is merged. */
  function AfterStep(g: Graph, n: Node, s: WorkflowState): WorkflowState {
    Merge(s, Step(g, n, s))
  }

  /** A finished run: the final channels and the nodes that ran, in order. */
  datatype Execution = Execution(state: WorkflowState, trace: seq<Node>)

  /** The run from node `n` on the channels `s`: the node runs, its update is merged, and the
      conditional edge picks the next node or END. */
  function RunFrom(g: Graph, n: Node, s: WorkflowState): (r: Execution)
    ensures |r.trace| >= 1 && r.trace[0] == n
    decreases 4 - n.Rank()
  {
    var s1 := AfterStep(g, n, s);
    match Next(n, s1)
    case End => Execution(s1, [n])
    case Go(m) =>
      var rest := RunFrom(g, m, s1);
      Execution(rest.state, [n] + rest.trace)
  }

  /** Every run follows declared edges only, visits strictly later nodes, and stops short of
      respond only when the status is FAILED. */
  lemma {:induction false} RunFromFollowsEdges(g: Graph, n: Node, s: WorkflowState)
    ensures var t := RunFrom(g, n, s).trace;
            && (forall i :: 0 < i < |t| ==> Edge(t[i - 1], t[i]))
            && (forall i, j :: 0 <= i < j < |t| ==> t[i].Rank() < t[j].Rank())
            && (t[|t| - 1] != RespondNode ==> RunFrom(g, n, s).state.status == AlertStatus.Failed)
    decreases 4 - n.Rank()
  {
    var s1 := AfterStep(g, n, s);
    match Next(n, s1)
    case End =>
    case Go(m) =>
      RunFromFollowsEdges(g, m, s1);
      var rest := RunFrom(g, m, s1).trace;
      var t := RunFrom(g, n, s).trace;
      assert t == [n] + rest;
      forall i, j | 0 <= i < j < |t| ensures t[i].Rank() < t[j].Rank() {
        if i == 0 {
          assert t[j] == rest[j - 1];
          if j > 1 {
            assert rest[0].Rank() < rest[j - 1].Rank();
          }
        }
      }
  }

  /** `app.ainvoke(payload)`: the run from the entry node, triage. */
  function Run(g: Graph, s: WorkflowState): (r: Execution)
    ensures |r.trace| >= 1 && r.trace[0] == TriageNode
  {
    RunFrom(g, TriageNode, s)
  }

  /** Each node runs at most once, and a run visits at most the four nodes. */
  lemma RunVisitsEachNodeAtMostOnce(g: Graph, s: WorkflowState)
    ensures var t := Run(g, s).trace;
            && (forall i, j :: 0 <= i < j < |t| ==> t[i] != t[j])
            && |t| <= 4
  {
    var t := Run(g, s).trace;
    RunFromFollowsEdges(g, TriageNode, s);
    forall i | 0 <= i < |t| ensures t[i].Rank() == i || i < t[i].Rank() {
      RankAtLeastIndex(t, i);
    }
    assert t[|t| - 1].Rank() <= 3;
  }

  /** In a trace whose ranks increase strictly from zero, the node at position `i` has rank at
      least `i`. */
  lemma {:induction false} RankAtLeastIndex(t: seq<Node>, i: nat)
    requires i < |t|
    requires forall a, b :: 0 <= a < b < |t| ==> t[a].Rank() < t[b].Rank()
    ensures i <= t[i].Rank()
  {
    if i > 0 {
      RankAtLeastIndex(t, i - 1);
      assert t[i - 1].Rank() < t[i].Rank();
    }
  }

  /** The runs the graph allows are exactly the paths from triage along its edges. */
  lemma RunIsPathFromTriage(g: Graph, s: WorkflowState)
    ensures Run(g, s).trace in {
              [TriageNode], [TriageNode, InvestigateNode], [TriageNode, DecideNode],
              [TriageNode, InvestigateNode, DecideNode], [TriageNode, DecideNode, RespondNode],
              [TriageNode, InvestigateNode, DecideNode, RespondNode]}
  {
    var t := Run(g, s).trace;
    RunVisitsEachNodeAtMostOnce(g, s);
    RunFromFollowsEdges(g, TriageNode, s);
    if |t| == 2 {
      assert Edge(t[0], t[1]);
      assert t == [t[0], t[1]];
    } else if |t| == 3 {
      assert Edge(t[0], t[1]) && Edge(t[1], t[2]);
      assert t == [t[0], t[1], t[2]];
    } else if |t| == 4 {
      assert Edge(t[0], t[1]) && Edge(t[1], t[2]) && Edge(t[2], t[3]);
      assert t == [t[0], t[1], t[2], t[3]];
    }
  }

  /** A node whose update marks the record FAILED ends the run: nothing after it runs. */
  lemma FailureEndsRun(g: Graph, n: Node, s: WorkflowState)
    requires StatusKey in Step(g, n, s).keys && Step(g, n, s).values.status == AlertStatus.Failed
    ensures RunFrom(g, n, s) == Execution(AfterStep(g, n, s), [n])
  {
    MergeAt(s, Step(g, n, s), StatusKey);
  }

  /** Investigation runs exactly when triage leaves the record not failed and asking for
      investigation. */
  lemma InvestigatesIff(g: Graph, s: WorkflowState)
    ensures var s1 := AfterStep(g, TriageNode, s);
            InvestigateNode in Run(g, s).trace <==>
              s1.status != AlertStatus.Failed && s1.triageResult.Some? && s1.triageResult.value.requiresInvestigation
  {
    var t := Run(g, s).trace;
    RunIsPathFromTriage(g, s);
    var s1 := AfterStep(g, TriageNode, s);
    match Next(TriageNode, s1)
    case End =>
    case Go(m) =>
      assert t == [TriageNode] + RunFrom(g, m, s1).trace;
      assert t[1] == m;
  }

  /** The investigation stage's own skip check never fires inside the graph: whenever the
      investigate node runs, the record it receives asks for investigation. */
  lemma InvestigationNeverSkipsInGraph(g: Graph, s: WorkflowState)
    requires InvestigateNode in Run(g, s).trace
    ensures !InvestigationAgent.Skips(Entered(InvestigateNode, AfterStep(g, TriageNode, s)))
  {
    InvestigatesIff(g, s);
  }

  /** A triage node that fails ends the whole run after triage: investigate, decide and
      respond never run, and the final status and errors are the ones triage returned (with
      `TriageNodeOnRaise`: exactly one `"Triage error: ..."` more than before). */
  lemma TriageFailureEndsRun(g: Graph, s: WorkflowState)
    requires Step(g, TriageNode, s).keys == FailureKeys(TriageNode)
    requires Step(g, TriageNode, s).values.status == AlertStatus.Failed
    ensures Run(g, s).trace == [TriageNode]
    ensures Run(g, s).state.status == AlertStatus.Failed
    ensures Run(g, s).state.errors == Step(g, TriageNode, s).values.errors
  {
    var u := Step(g, TriageNode, s);
    FailureEndsRun(g, TriageNode, s);
    MergeAt(s, u, StatusKey);
    MergeAt(s, u, ErrorsKey);
  }

  /** On the compiled graph, a triage stage that raises ends the run after triage, FAILED,
      with exactly one `"Triage error: ..."` added to the errors it started with. */
  lemma TriageRaiseEndsWorkflow(env: Environment, s: WorkflowState, m: string)
    requires TriageAgent.ExecuteSpec(Entered(TriageNode, s), env).outcome == Raised(m)
    ensures Run(Workflow(env), s).trace == [TriageNode]
    ensures Run(Workflow(env), s).state.status == AlertStatus.Failed
    ensures Run(Workflow(env), s).state.errors == s.errors + ["Triage error: " + m]
  {
    TriageNodeOnRaise(s, env, m);
    TriageFailureEndsRun(Workflow(env), s);
  }

  /** A run in which triage, investigate and decide each hand on to the next node goes through
      all four nodes, and ends with the channels after respond. */
  lemma FullRun(g: Graph, s: WorkflowState)
    requires Next(TriageNode, AfterStep(g, TriageNode, s)) == Go(InvestigateNode)
    requires Next(InvestigateNode, AfterStep(g, InvestigateNode, AfterStep(g, TriageNode, s))) == Go(DecideNode)
    requires Next(DecideNode, AfterStep(g, DecideNode, AfterStep(g, InvestigateNode, AfterStep(g, TriageNode, s))))
             == Go(RespondNode)
    ensures Run(g, s).trace == [TriageNode, InvestigateNode, DecideNode, RespondNode]
    ensures Run(g, s).state ==
              AfterStep(g, RespondNode, AfterStep(g, DecideNode, AfterStep(g, InvestigateNode, AfterStep(g, TriageNode, s))))
  {
  }

  /** With AI switched off, the triage node leaves the channels COMPLETED with the fallback
      result, which asks for investigation. */
  lemma FallbackTriageStep(env: Environment, s: WorkflowState)
    requires !s.enableAi
    ensures var s1 := AfterStep(Workflow(env), TriageNode, s);
            && !s1.enableAi && s1.status == AlertStatus.Completed
            && s1.triageResult.Some? && s1.triageResult.value.requiresInvestigation
  {
    var u := Step(Workflow(env), TriageNode, s);
    MergeAt(s, u, StatusKey);
    MergeAt(s, u, TriageResultKey);
  }

  /** With AI switched off and a triage asking for investigation, the investigate node adds
      the fallback investigation, keeps the triage result and leaves the status COMPLETED. */
  lemma FallbackInvestigateStep(env: Environment, s: WorkflowState)
    requires !s.enableAi && s.triageResult.Some? && s.triageResult.value.requiresInvestigation
    ensures var s1 := AfterStep(Workflow(env), InvestigateNode, s);
            && !s1.enableAi && s1.status == AlertStatus.Completed
            && s1.triageResult == s.triageResult && s1.investigationResult.Some?
  {
    var u := Step(Workflow(env), InvestigateNode, s);
    MergeAt(s, u, StatusKey);
    MergeAt(s, u, TriageResultKey);
    MergeAt(s, u, InvestigationResultKey);
  }

  /** With AI switched off, the decide node adds the fallback decision, keeps the earlier
      results and leaves the status COMPLETED. */
  lemma FallbackDecideStep(env: Environment, s: WorkflowState)
    requires !s.enableAi
    ensures var s1 := AfterStep(Workflow(env), DecideNode, s);
            && !s1.enableAi && s1.status == AlertStatus.Completed
            && s1.triageResult == s.triageResult && s1.investigationResult == s.investigationResult
            && s1.decisionResult.Some?
  {
    var u := Step(Workflow(env), DecideNode, s);
    MergeAt(s, u, StatusKey);
    MergeAt(s, u, TriageResultKey);
    MergeAt(s, u, InvestigationResultKey);
    MergeAt(s, u, DecisionResultKey);
  }

  /** With AI switched off and a decision present, the respond node adds the fallback
      response with its ticket, keeps the earlier results and leaves the status COMPLETED. */
  lemma FallbackRespondStep(env: Environment, s: WorkflowState)
    requires !s.enableAi && s.decisionResult.Some?
    ensures var s1 := AfterStep(Workflow(env), RespondNode, s);
            && s1.status == AlertStatus.Completed
            && s1.triageResult == s.triageResult && s1.investigationResult == s.investigationResult
            && s1.decisionResult == s.decisionResult
            && s1.responseResult.Some? && s1.responseResult.value.ticketId.Some?
  {
    var u := Step(Workflow(env), RespondNode, s);
    MergeAt(s, u, StatusKey);
    MergeAt(s, u, TriageResultKey);
    MergeAt(s, u, InvestigationResultKey);
    MergeAt(s, u, DecisionResultKey);
    MergeAt(s, u, ResponseResultKey);
  }

  /** With AI switched off, the compiled graph runs all four nodes in order and ends
      COMPLETED with every stage's result and a ticket. */
  lemma FallbackRun(env: Environment, s: WorkflowState)
    requires !s.enableAi
    ensures var e := Run(Workflow(env), s);
            && e.trace == [TriageNode, InvestigateNode, DecideNode, RespondNode]
            && e.state.status == AlertStatus.Completed
            && e.state.triageResult.Some? && e.state.investigationResult.Some?
            && e.state.decisionResult.Some? && e.state.responseResult.Some?
            && e.state.responseResult.value.ticketId.Some?
  {
    var g := Workflow(env);
    var s1 := AfterStep(g, TriageNode, s);
    FallbackTriageStep(env, s);
    var s2 := AfterStep(g, InvestigateNode, s1);
    FallbackInvestigateStep(env, s1);
    var s3 := AfterStep(g, DecideNode, s2);
    FallbackDecideStep(env, s2);
    FallbackRespondStep(env, s3);
    FullRun(g, s);
  }

  // ---------------------------------------------------------------- running the graph

  /** What is left to run from `next` on the channels `s`, after the nodes in `done`. */
  function Remaining(g: Graph, next: Target, s: WorkflowState, done: seq<Node>): Execution {
    match next
    case End => Execution(s, done)
    case Go(n) =>
      var rest := RunFrom(g, n, s);
      Execution(rest.state, done + rest.trace)
  }

  /** How far `next` is from END. */
  function Distance(next: Target): nat {
    match next
    case End => 0
    case Go(n) => 4 - n.Rank()
  }

  /** `app.ainvoke(payload)` on a compiled graph `app`: from the entry node, run a node, merge
      its update into the channels and follow the conditional edge, until END. */
  method RunGraph(app: Graph, s: WorkflowState) returns (r: Execution)
    ensures r == Run(app, s)
  {
    var channels := s;
    var done: seq<Node> := [];
    var next := Go(TriageNode);
    assert [] + Run(app, s).trace == Run(app, s).trace;
    while next.Go?
      invariant Remaining(app, next, channels, done) == Run(app, s)
      decreases Distance(next)
    {
      var n := next.node;
      RemainingAfterStep(app, n, channels, done);
      channels := AfterStep(app, n, channels);
      NextIsCloser(n, channels);
      next := Next(n, channels);
      done := done + [n];
    }
    return Execution(channels, done);
  }

  /** Every edge, conditional or not, brings the run closer to END. */
  lemma NextIsCloser(n: Node, s: WorkflowState)
    ensures Distance(Next(n, s)) < Distance(Go(n))
  {
  }

  /** Running node `n` moves what is left to run one step on. */
  lemma RemainingAfterStep(app: Graph, n: Node, s: WorkflowState, done: seq<Node>)
    ensures var s1 := AfterStep(app, n, s);
            Remaining(app, Go(n), s, done) == Remaining(app, Next(n, s1), s1, done + [n])
  {
    var s1 := AfterStep(app, n, s);
    match Next(n, s1)
    case End =>
    case Go(m) =>
      var rest := RunFrom(app, m, s1).trace;
      assert done + ([n] + rest) == (done + [n]) + rest;
  }

  // ---------------------------------------------------------------- process_alert

  const RetryMessage := "Please retry the alert processing."

  /** The `final` event `process_alert` reports through the callback. */
  datatype FinalEvent = FinalEvent(
    status: string,
    verdict: Option<Verdict>,
    priority: Option<Priority>,
    message: Option<string>,
    error: Option<string>)

  /** The event after the graph returned: "failed" with the retry message exactly when the
      final status is FAILED, "completed" without a message otherwise, and the decision's
      verdict and priority when there is a decision. */
  function CompletionEvent(final: WorkflowState): (e: FinalEvent)
    ensures e.status == "failed" <==> final.status == AlertStatus.Failed
    ensures e.status == "completed" <==> final.status != AlertStatus.Failed
    ensures e.message.Some? <==> final.status == AlertStatus.Failed
    ensures e.message.Some? ==> e.message.value == RetryMessage
    ensures e.verdict.Some? <==> final.decisionResult.Some?
    ensures e.verdict.Some? ==> e.verdict.value == final.decisionResult.value.finalVerdict
    ensures e.priority.Some? <==> final.decisionResult.Some?
    ensures e.priority.Some? ==> e.priority.value == final.decisionResult.value.priority
    ensures e.error.None?
  {
    var failed := final.status == AlertStatus.Failed;
    FinalEvent(
      if failed then "failed" else "completed",
      if final.decisionResult.Some? then Some(final.decisionResult.value.finalVerdict) else None,
      if final.decisionResult.Some? then Some(final.decisionResult.value.priority) else None,
      if failed then Some(RetryMessage) else None,
      None)
  }

  /** The event when the workflow itself raised: "failed", the retry message and the error. */
  function FaultEvent(error: string): (e: FinalEvent)
    ensures e.status == "failed" && e.message == Some(RetryMessage) && e.error == Some(error)
  {
    FinalEvent("failed", None, None, Some(RetryMessage), Some(error))
  }

  /** `process_alert(state)` with the compiled graph `app` (`Workflow(env)` for the
      orchestrator's four stages). `fault` is the exception the graph run or the conversion of its
      result raised, if any. Without one, the result is the graph's final state and the record
      is left as it was; with one, the record gets a `"Workflow error: ..."` entry and status
      FAILED and is returned. Either way the reported status is "failed" exactly when the
      returned state is FAILED, and only then does the event carry the retry message. */
  method ProcessAlert(state: WorkflowRecord, app: Graph, fault: Option<string>)
    returns (final: WorkflowState, event: FinalEvent)
    modifies state
    ensures fault.None? ==> final == Run(app, old(state.View())).state
                            && state.View() == old(state.View()) && event == CompletionEvent(final)
    ensures fault.Some? ==> final == old(state.View()).(errors := old(state.errors) + ["Workflow error: " + fault.value],
                                                         status := AlertStatus.Failed)
                            && state.View() == final && event == FaultEvent(fault.value)
    ensures event.status == "failed" <==> final.status == AlertStatus.Failed
    ensures event.message.Some? <==> final.status == AlertStatus.Failed
  {
    if fault.Some? {
      state.errors := state.errors + ["Workflow error: " + fault.value];
      state.status := AlertStatus.Failed;
      return state.View(), FaultEvent(fault.value);
    }
    var run := RunGraph(app, state.View());
    final := run.state;
    event := CompletionEvent(final);
  }
}
