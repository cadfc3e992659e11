/**
 * The planning workflow as declared data: which agents exist, which state
 * keys each one's instruction reads, which key it writes, which tools it may
 * call, and how the sequential, parallel and loop combinators nest them.
 * Nothing here runs an agent; the lemmas are about the declared tree.
 */
module Workflow {
  import opened Wrappers
  import Tools

  /**
   * A runnable unit. `inputs` are the state keys a leaf's instruction
   * template interpolates; `outputKey` is where its answer is stored.
   */
  datatype Unit =
    | Leaf(name: string, inputs: set<string>, outputKey: Option<string>, tools: seq<string>)
    | Sequential(name: string, subAgents: seq<Unit>)
    | Parallel(name: string, subAgents: seq<Unit>)
    | Loop(name: string, subAgents: seq<Unit>, maxIterations: nat)

  const UpdateSessionStateTool := "update_session_state"
  const ExitLoopTool := "exit_loop"
  const GetGuestListTool := "get_guest_list"
  const SumCostsTool := "sum_costs"
  const GoogleSearchTool := "google_search"
  /** The search agent wrapped as a tool is called by that agent's name. */
  const GoogleSearchAgentTool := "Google_Search_Agent"

  /**
   * The state keys a tool writes when called: `update_session_state` its
   * three event parameters, `get_guest_list` the guest list; every other
   * tool (`exit_loop`, `add_guest`, `send_email`, search, `sum_costs`)
   * writes no state key.
   */
  function ToolWrites(tool: string): (r: set<string>)
    ensures r != {} <==> tool == UpdateSessionStateTool || tool == GetGuestListTool
    ensures r <= Tools.SessionParameterKeys + {Tools.GuestList}
  {
    if tool == UpdateSessionStateTool then Tools.SessionParameterKeys
    else if tool == GetGuestListTool then {Tools.GuestList}
    else {}
  }

  function KeySet(k: Option<string>): set<string> {
    if k.Some? then {k.value} else {}
  }

  function ToolsWrites(tools: seq<string>): set<string> {
    if tools == [] then {} else ToolWrites(tools[0]) + ToolsWrites(tools[1..])
  }

  /** Every state key some leaf of `u` may write, through its output key or its tools. */
  function Writes(u: Unit): set<string>
    decreases u, 1
  {
    match u
    case Leaf(_, _, outputKey, tools) => KeySet(outputKey) + ToolsWrites(tools)
    case Sequential(_, subAgents) => AllWrites(subAgents)
    case Parallel(_, subAgents) => AllWrites(subAgents)
    case Loop(_, subAgents, _) => AllWrites(subAgents)
  }

  function AllWrites(units: seq<Unit>): set<string>
    decreases units, 0
  {
    if units == [] then {} else Writes(units[0]) + AllWrites(units[1..])
  }

  /** Leaf names in declaration order (each loop body listed once). */
  function Leaves(u: Unit): seq<string>
    decreases u, 1
  {
    match u
    case Leaf(name, _, _, _) => [name]
    case Sequential(_, subAgents) => AllLeaves(subAgents)
    case Parallel(_, subAgents) => AllLeaves(subAgents)
    case Loop(_, subAgents, _) => AllLeaves(subAgents)
  }

  function AllLeaves(units: seq<Unit>): seq<string>
    decreases units, 0
  {
    if units == [] then [] else Leaves(units[0]) + AllLeaves(units[1..])
  }

  function Names(units: seq<Unit>): seq<string> {
    if units == [] then [] else [units[0].name] + Names(units[1..])
  }

  /** In every parallel group of `u`, no two children may write the same key. */
  ghost predicate ParallelDisjoint(u: Unit)
    decreases u, 1
  {
    match u
    case Leaf(_, _, _, _) => true
    case Sequential(_, subAgents) => AllParallelDisjoint(subAgents)
    case Loop(_, subAgents, _) => AllParallelDisjoint(subAgents)
    case Parallel(_, subAgents) =>
      AllParallelDisjoint(subAgents) &&
      forall i, j :: 0 <= i < j < |subAgents| ==> Writes(subAgents[i]) !! Writes(subAgents[j])
  }

  ghost predicate AllParallelDisjoint(units: seq<Unit>)
    decreases units, 0
  {
    units == [] || (ParallelDisjoint(units[0]) && AllParallelDisjoint(units[1..]))
  }

  /**
   * Every key a leaf of `u` reads is among `before` or the keys that earlier
   * units declare they write (their output keys and their bound tools'
   * writes): in a sequence (and a loop body) a child may use what earlier
   * children declare; parallel children only what was there at fan-out.
   */
  ghost predicate Provided(u: Unit, before: set<string>)
    decreases u, 1
  {
    match u
    case Leaf(_, inputs, _, _) => inputs <= before
    case Sequential(_, subAgents) => InOrderProvided(subAgents, before)
    case Loop(_, subAgents, _) => InOrderProvided(subAgents, before)
    case Parallel(_, subAgents) => AllProvided(subAgents, before)
  }

  ghost predicate InOrderProvided(units: seq<Unit>, before: set<string>)
    decreases units, 0
  {
    units == [] || (Provided(units[0], before) && InOrderProvided(units[1..], before + Writes(units[0])))
  }

  ghost predicate AllProvided(units: seq<Unit>, before: set<string>)
    decreases units, 0
  {
    units == [] || (Provided(units[0], before) && AllProvided(units[1..], before))
  }

  /** A leaf bound to `exit_loop` sits inside some loop, whose iterations its escalation ends. */
  ghost predicate EscalatesOnlyInLoops(u: Unit, inLoop: bool)
    decreases u, 1
  {
    match u
    case Leaf(_, _, _, tools) => ExitLoopTool in tools ==> inLoop
    case Sequential(_, subAgents) => AllEscalateOnlyInLoops(subAgents, inLoop)
    case Parallel(_, subAgents) => AllEscalateOnlyInLoops(subAgents, inLoop)
    case Loop(_, subAgents, _) => AllEscalateOnlyInLoops(subAgents, true)
  }

  ghost predicate AllEscalateOnlyInLoops(units: seq<Unit>, inLoop: bool)
    decreases units, 0
  {
    units == [] || (EscalatesOnlyInLoops(units[0], inLoop) && AllEscalateOnlyInLoops(units[1..], inLoop))
  }

  // The leaf agents of the planning workflow.

  const IntakeAgent := Leaf("intake_agent", {}, None, [UpdateSessionStateTool])

  const VenueSearchAgent :=
    Leaf("venue_search_agent", {"event_type", "city"}, Some("venue_options"), [GoogleSearchTool])

  const CateringSearchAgent :=
    Leaf("catering_search_agent", {"event_type", "city"}, Some("catering_options"), [GoogleSearchTool])

  const EntertainmentSearchAgent :=
    Leaf("entertainment_search_agent", {"event_type", "city"}, Some("entertainment_options"), [GoogleSearchTool])

  const InitialPlanSynthesizerAgent :=
    Leaf("initial_plan_synthesizer_agent", {"venue_options", "catering_options", "entertainment_options"},
         Some("current_plan"), [])

  const AccountantAgent :=
    Leaf("accountant_agent", {"budget", "current_plan"}, Some("evaluation"), [SumCostsTool])

  const CostCutterAgent :=
    Leaf("cost_cutter_agent", {"evaluation"}, Some("current_plan"), [GoogleSearchAgentTool, ExitLoopTool])

  const FinalReport :=
    Leaf("final_report", {"current_plan", "venue_options", "catering_options", "entertainment_options", "budget"},
         None, [])

  // The combinators.

  const BudgetRefinement := Loop("budget_refinement", [AccountantAgent, CostCutterAgent], 3)

  const ParallelLogisticsSearch :=
    Parallel("parallel_logistics_search", [VenueSearchAgent, CateringSearchAgent, EntertainmentSearchAgent])

  const InitialPlanning := Sequential("initial_planning", [ParallelLogisticsSearch, InitialPlanSynthesizerAgent])

  const BudgetOptimizer := Sequential("budget_optimizer", [BudgetRefinement])

  const PlanningWorkflow :=
    Sequential("planning_workflow", [IntakeAgent, InitialPlanning, BudgetOptimizer, FinalReport])

  // Each function over a list of units, on a list given as its head and the rest.

  lemma ConsNames(u: Unit, rest: seq<Unit>)
    ensures Names([u] + rest) == [u.name] + Names(rest)
  {
  }

  lemma ConsWrites(u: Unit, rest: seq<Unit>)
    ensures AllWrites([u] + rest) == Writes(u) + AllWrites(rest)
  {
  }

  lemma ConsLeaves(u: Unit, rest: seq<Unit>)
    ensures AllLeaves([u] + rest) == Leaves(u) + AllLeaves(rest)
  {
  }

  lemma ConsParallelDisjoint(u: Unit, rest: seq<Unit>)
    ensures AllParallelDisjoint([u] + rest) <==> ParallelDisjoint(u) && AllParallelDisjoint(rest)
  {
  }

  lemma ConsInOrderProvided(u: Unit, rest: seq<Unit>, before: set<string>)
    ensures InOrderProvided([u] + rest, before) <==> Provided(u, before) && InOrderProvided(rest, before + Writes(u))
  {
  }

  lemma ConsAllProvided(u: Unit, rest: seq<Unit>, before: set<string>)
    ensures AllProvided([u] + rest, before) <==> Provided(u, before) && AllProvided(rest, before)
  {
  }

  lemma ConsEscalates(u: Unit, rest: seq<Unit>, inLoop: bool)
    ensures AllEscalateOnlyInLoops([u] + rest, inLoop) <==> EscalatesOnlyInLoops(u, inLoop) && AllEscalateOnlyInLoops(rest, inLoop)
  {
  }

  lemma ToolsWritesOne(tool: string)
    ensures ToolsWrites([tool]) == ToolWrites(tool)
  {
  }

  /** What each leaf writes; only the intake agent writes through a tool. */
  lemma LeafWrites()
    ensures Writes(IntakeAgent) == Tools.SessionParameterKeys
    ensures Writes(VenueSearchAgent) == {"venue_options"}
    ensures Writes(CateringSearchAgent) == {"catering_options"}
    ensures Writes(EntertainmentSearchAgent) == {"entertainment_options"}
    ensures Writes(InitialPlanSynthesizerAgent) == {"current_plan"}
    ensures Writes(AccountantAgent) == {"evaluation"}
    ensures Writes(CostCutterAgent) == {"current_plan"}
    ensures Writes(FinalReport) == {}
  {
    ToolsWritesOne(UpdateSessionStateTool);
    ToolsWritesOne(GoogleSearchTool);
    ToolsWritesOne(SumCostsTool);
    ToolsWritesOne(ExitLoopTool);
    assert [GoogleSearchAgentTool, ExitLoopTool][1..] == [ExitLoopTool];
  }

  // Facts about each combinator, one level of the tree at a time.

  lemma ParallelLogisticsSearchWrites()
    ensures Writes(ParallelLogisticsSearch) == {"venue_options", "catering_options", "entertainment_options"}
  {
    LeafWrites();
    ConsWrites(VenueSearchAgent, [CateringSearchAgent, EntertainmentSearchAgent]);
    ConsWrites(CateringSearchAgent, [EntertainmentSearchAgent]);
    ConsWrites(EntertainmentSearchAgent, []);
    assert [VenueSearchAgent] + [CateringSearchAgent, EntertainmentSearchAgent] == ParallelLogisticsSearch.subAgents;
    assert [CateringSearchAgent] + [EntertainmentSearchAgent] == [CateringSearchAgent, EntertainmentSearchAgent];
    assert [EntertainmentSearchAgent] + [] == [EntertainmentSearchAgent];
  }

  lemma InitialPlanningWrites()
    ensures Writes(InitialPlanning) == {"venue_options", "catering_options", "entertainment_options", "current_plan"}
  {
    LeafWrites();
    ParallelLogisticsSearchWrites();
    ConsWrites(ParallelLogisticsSearch, [InitialPlanSynthesizerAgent]);
    ConsWrites(InitialPlanSynthesizerAgent, []);
    assert [InitialPlanSynthesizerAgent] + [] == [InitialPlanSynthesizerAgent];
  }

  lemma BudgetOptimizerWrites()
    ensures Writes(BudgetRefinement) == Writes(BudgetOptimizer) == {"evaluation", "current_plan"}
  {
    LeafWrites();
    ConsWrites(AccountantAgent, [CostCutterAgent]);
    ConsWrites(CostCutterAgent, []);
    assert [CostCutterAgent] + [] == [CostCutterAgent];
    ConsWrites(BudgetRefinement, []);
    assert [BudgetRefinement] + [] == [BudgetRefinement];
  }

  /** The keys a completed run can leave in the state. */
  lemma PlanningWorkflowWrites()
    ensures Writes(PlanningWorkflow) ==
      {"event_type", "city", "budget", "venue_options", "catering_options", "entertainment_options",
       "current_plan", "evaluation"}
  {
    LeafWrites();
    InitialPlanningWrites();
    BudgetOptimizerWrites();
    ConsWrites(IntakeAgent, [InitialPlanning, BudgetOptimizer, FinalReport]);
    ConsWrites(InitialPlanning, [BudgetOptimizer, FinalReport]);
    ConsWrites(BudgetOptimizer, [FinalReport]);
    ConsWrites(FinalReport, []);
    assert [FinalReport] + [] == [FinalReport];
  }

  /** The top-level pipeline runs intake, initial planning, budget optimisation, then the report. */
  lemma PlanningWorkflowStages()
    ensures PlanningWorkflow.Sequential?
    ensures Names(PlanningWorkflow.subAgents) == ["intake_agent", "initial_planning", "budget_optimizer", "final_report"]
  {
    ConsNames(IntakeAgent, [InitialPlanning, BudgetOptimizer, FinalReport]);
    ConsNames(InitialPlanning, [BudgetOptimizer, FinalReport]);
    ConsNames(BudgetOptimizer, [FinalReport]);
    ConsNames(FinalReport, []);
    assert [FinalReport] + [] == [FinalReport];
  }

  /** The leaf agents in declaration order. */
  lemma PlanningWorkflowLeafOrder()
    ensures Leaves(PlanningWorkflow) ==
      ["intake_agent", "venue_search_agent", "catering_search_agent", "entertainment_search_agent",
       "initial_plan_synthesizer_agent", "accountant_agent", "cost_cutter_agent", "final_report"]
  {
    ConsLeaves(VenueSearchAgent, [CateringSearchAgent, EntertainmentSearchAgent]);
    ConsLeaves(CateringSearchAgent, [EntertainmentSearchAgent]);
    ConsLeaves(EntertainmentSearchAgent, []);
    assert [EntertainmentSearchAgent] + [] == [EntertainmentSearchAgent];
    assert Leaves(ParallelLogisticsSearch) == ["venue_search_agent", "catering_search_agent", "entertainment_search_agent"];
    ConsLeaves(ParallelLogisticsSearch, [InitialPlanSynthesizerAgent]);
    ConsLeaves(InitialPlanSynthesizerAgent, []);
    assert [InitialPlanSynthesizerAgent] + [] == [InitialPlanSynthesizerAgent];
    ConsLeaves(AccountantAgent, [CostCutterAgent]);
    ConsLeaves(CostCutterAgent, []);
    assert [CostCutterAgent] + [] == [CostCutterAgent];
    ConsLeaves(BudgetRefinement, []);
    assert [BudgetRefinement] + [] == [BudgetRefinement];
    ConsLeaves(IntakeAgent, [InitialPlanning, BudgetOptimizer, FinalReport]);
    ConsLeaves(InitialPlanning, [BudgetOptimizer, FinalReport]);
    ConsLeaves(BudgetOptimizer, [FinalReport]);
    ConsLeaves(FinalReport, []);
    assert [FinalReport] + [] == [FinalReport];
  }

  /** The three scouts declare the pairwise-distinct keys venue_options, catering_options and entertainment_options. */
  lemma ScoutOutputKeys()
    ensures Names(ParallelLogisticsSearch.subAgents) ==
      ["venue_search_agent", "catering_search_agent", "entertainment_search_agent"]
    ensures VenueSearchAgent.outputKey == Some("venue_options")
    ensures CateringSearchAgent.outputKey == Some("catering_options")
    ensures EntertainmentSearchAgent.outputKey == Some("entertainment_options")
    ensures ParallelDisjoint(ParallelLogisticsSearch)
  {
    LeafWrites();
    ConsNames(VenueSearchAgent, [CateringSearchAgent, EntertainmentSearchAgent]);
    ConsNames(CateringSearchAgent, [EntertainmentSearchAgent]);
    ConsNames(EntertainmentSearchAgent, []);
    ConsParallelDisjoint(VenueSearchAgent, [CateringSearchAgent, EntertainmentSearchAgent]);
    ConsParallelDisjoint(CateringSearchAgent, [EntertainmentSearchAgent]);
    ConsParallelDisjoint(EntertainmentSearchAgent, []);
    assert [EntertainmentSearchAgent] + [] == [EntertainmentSearchAgent];
    var s := ParallelLogisticsSearch.subAgents;
    forall i, j | 0 <= i < j < |s| ensures Writes(s[i]) !! Writes(s[j]) {
    }
  }

  /** No parallel group anywhere in the workflow has two children writing the same key. */
  lemma PlanningWorkflowParallelDisjoint()
    ensures ParallelDisjoint(PlanningWorkflow)
  {
    ScoutOutputKeys();
    ConsParallelDisjoint(ParallelLogisticsSearch, [InitialPlanSynthesizerAgent]);
    ConsParallelDisjoint(InitialPlanSynthesizerAgent, []);
    assert [InitialPlanSynthesizerAgent] + [] == [InitialPlanSynthesizerAgent];
    ConsParallelDisjoint(AccountantAgent, [CostCutterAgent]);
    ConsParallelDisjoint(CostCutterAgent, []);
    assert [CostCutterAgent] + [] == [CostCutterAgent];
    assert ParallelDisjoint(InitialPlanning);
    assert ParallelDisjoint(BudgetRefinement);
    ConsParallelDisjoint(BudgetRefinement, []);
    assert [BudgetRefinement] + [] == [BudgetRefinement];
    assert ParallelDisjoint(BudgetOptimizer);
    ConsParallelDisjoint(IntakeAgent, [InitialPlanning, BudgetOptimizer, FinalReport]);
    ConsParallelDisjoint(InitialPlanning, [BudgetOptimizer, FinalReport]);
    ConsParallelDisjoint(BudgetOptimizer, [FinalReport]);
    ConsParallelDisjoint(FinalReport, []);
    assert [FinalReport] + [] == [FinalReport];
  }

  /** The refinement loop: at most three iterations of the accountant, then the cost cutter. */
  lemma BudgetRefinementShape()
    ensures BudgetOptimizer.subAgents == [BudgetRefinement]
    ensures BudgetRefinement.Loop? && BudgetRefinement.maxIterations == 3
    ensures Names(BudgetRefinement.subAgents) == ["accountant_agent", "cost_cutter_agent"]
  {
    ConsNames(AccountantAgent, [CostCutterAgent]);
    ConsNames(CostCutterAgent, []);
    assert [CostCutterAgent] + [] == [CostCutterAgent];
  }

  /**
   * The refiner (cost cutter) reads what the evaluator (accountant) wrote and
   * writes its revision back to the key the evaluator reads, so each
   * iteration evaluates the previous one's candidate.
   */
  lemma RefinerWritesBack()
    ensures AccountantAgent.outputKey.Some? && AccountantAgent.outputKey.value in CostCutterAgent.inputs
    ensures CostCutterAgent.outputKey.Some? && CostCutterAgent.outputKey.value in AccountantAgent.inputs
    ensures ExitLoopTool in CostCutterAgent.tools && ExitLoopTool !in AccountantAgent.tools
  {
  }

  /** `exit_loop` is bound only inside the refinement loop. */
  lemma PlanningWorkflowEscalation()
    ensures EscalatesOnlyInLoops(PlanningWorkflow, false)
  {
    ConsEscalates(VenueSearchAgent, [CateringSearchAgent, EntertainmentSearchAgent], false);
    ConsEscalates(CateringSearchAgent, [EntertainmentSearchAgent], false);
    ConsEscalates(EntertainmentSearchAgent, [], false);
    assert [EntertainmentSearchAgent] + [] == [EntertainmentSearchAgent];
    ConsEscalates(ParallelLogisticsSearch, [InitialPlanSynthesizerAgent], false);
    ConsEscalates(InitialPlanSynthesizerAgent, [], false);
    assert [InitialPlanSynthesizerAgent] + [] == [InitialPlanSynthesizerAgent];
    ConsEscalates(AccountantAgent, [CostCutterAgent], true);
    ConsEscalates(CostCutterAgent, [], true);
    assert [CostCutterAgent] + [] == [CostCutterAgent];
    assert EscalatesOnlyInLoops(ParallelLogisticsSearch, false);
    assert EscalatesOnlyInLoops(InitialPlanning, false);
    assert EscalatesOnlyInLoops(BudgetRefinement, false);
    ConsEscalates(BudgetRefinement, [], false);
    assert [BudgetRefinement] + [] == [BudgetRefinement];
    assert EscalatesOnlyInLoops(BudgetOptimizer, false);
    ConsEscalates(IntakeAgent, [InitialPlanning, BudgetOptimizer, FinalReport], false);
    ConsEscalates(InitialPlanning, [BudgetOptimizer, FinalReport], false);
    ConsEscalates(BudgetOptimizer, [FinalReport], false);
    ConsEscalates(FinalReport, [], false);
    assert [FinalReport] + [] == [FinalReport];
  }

  /** The scouts need only the intake agent's keys; the synthesizer, only the scouts'. */
  lemma InitialPlanningProvided()
    ensures Provided(InitialPlanning, Tools.SessionParameterKeys)
  {
    var before := Tools.SessionParameterKeys;
    LeafWrites();
    ParallelLogisticsSearchWrites();
    ConsAllProvided(VenueSearchAgent, [CateringSearchAgent, EntertainmentSearchAgent], before);
    ConsAllProvided(CateringSearchAgent, [EntertainmentSearchAgent], before);
    ConsAllProvided(EntertainmentSearchAgent, [], before);
    assert [EntertainmentSearchAgent] + [] == [EntertainmentSearchAgent];
    ConsInOrderProvided(ParallelLogisticsSearch, [InitialPlanSynthesizerAgent], before);
    ConsInOrderProvided(InitialPlanSynthesizerAgent, [], before + Writes(ParallelLogisticsSearch));
    assert [InitialPlanSynthesizerAgent] + [] == [InitialPlanSynthesizerAgent];
  }

  /** The loop body needs the budget and a current plan; within it, the cost cutter's input is the accountant's declared output. */
  lemma BudgetOptimizerProvided(before: set<string>)
    requires {"budget", "current_plan"} <= before
    ensures Provided(BudgetOptimizer, before)
  {
    LeafWrites();
    ConsInOrderProvided(AccountantAgent, [CostCutterAgent], before);
    ConsInOrderProvided(CostCutterAgent, [], before + Writes(AccountantAgent));
    assert [CostCutterAgent] + [] == [CostCutterAgent];
    ConsInOrderProvided(BudgetRefinement, [], before);
    assert [BudgetRefinement] + [] == [BudgetRefinement];
  }

  /** Starting from an empty state, every key an instruction reads is declared written by an earlier stage. */
  lemma PlanningWorkflowProvided()
    ensures Provided(PlanningWorkflow, {})
  {
    LeafWrites();
    InitialPlanningWrites();
    BudgetOptimizerWrites();
    InitialPlanningProvided();
    var afterIntake := Tools.SessionParameterKeys;
    var afterPlanning := afterIntake + Writes(InitialPlanning);
    var afterOptimizer := afterPlanning + Writes(BudgetOptimizer);
    BudgetOptimizerProvided(afterPlanning);
    ConsInOrderProvided(IntakeAgent, [InitialPlanning, BudgetOptimizer, FinalReport], {});
    ConsInOrderProvided(InitialPlanning, [BudgetOptimizer, FinalReport], afterIntake);
    ConsInOrderProvided(BudgetOptimizer, [FinalReport], afterPlanning);
    ConsInOrderProvided(FinalReport, [], afterOptimizer);
    assert [FinalReport] + [] == [FinalReport];
  }

  /** A session already holding keys from earlier requests provides at least as much. */
  lemma PlanningWorkflowProvidedFrom(before: set<string>)
    ensures Provided(PlanningWorkflow, before)
  {
    PlanningWorkflowProvided();
    ProvidedMonotone(PlanningWorkflow, {}, before);
  }

  /** A unit whose inputs are provided stays so when more keys are present. */
  lemma {:induction false} ProvidedMonotone(u: Unit, small: set<string>, large: set<string>)
    requires small <= large && Provided(u, small)
    ensures Provided(u, large)
    decreases u, 1
  {
    match u
    case Leaf(_, _, _, _) =>
    case Sequential(_, subAgents) => InOrderProvidedMonotone(subAgents, small, large);
    case Loop(_, subAgents, _) => InOrderProvidedMonotone(subAgents, small, large);
    case Parallel(_, subAgents) => AllProvidedMonotone(subAgents, small, large);
  }

  lemma {:induction false} InOrderProvidedMonotone(units: seq<Unit>, small: set<string>, large: set<string>)
    requires small <= large && InOrderProvided(units, small)
    ensures InOrderProvided(units, large)
    decreases units, 0
  {
    if units != [] {
      ProvidedMonotone(units[0], small, large);
      InOrderProvidedMonotone(units[1..], small + Writes(units[0]), large + Writes(units[0]));
    }
  }

  lemma {:induction false} AllProvidedMonotone(units: seq<Unit>, small: set<string>, large: set<string>)
    requires small <= large && AllProvided(units, small)
    ensures AllProvided(units, large)
    decreases units, 0
  {
    if units != [] {
      ProvidedMonotone(units[0], small, large);
      AllProvidedMonotone(units[1..], small, large);
    }
  }
}
