/**
  The durable workflow engine: `advance_workflow_run` and the two views that decide a step.
  `Route` is the pure interpreter the engine refines.
 */
module Workflow {
  import opened Approvals
  import opened Base
  import opened Executions
  import Gates
  import Rows

  // ---------------------------------------------------------------- definitions

  /** One entry of a definition's `steps` array. */
  datatype StepDef =
    | CoworkerAction(coworker: string)
    | ToolCall(coworker: string, tool: string)
    | HumanCheckpoint
    | Condition(path: string, operator: string, ifTrue: int, ifFalse: int)
    | Unsupported

  predicate ValidStep(d: StepDef, count: nat) {
    && !d.Unsupported?
    && (d.Condition? ==> 0 <= d.ifTrue <= count && 0 <= d.ifFalse <= count)
  }

  predicate ValidDefinition(defs: seq<StepDef>) {
    && defs != []
    && forall i :: 0 <= i < |defs| ==> ValidStep(defs[i], |defs|)
  }

  datatype DefinitionError =
    NoSteps | UnsupportedType | InvalidCoworker | InvalidTool | InvalidCondition | InvalidTarget

  /** What `validate_workflow_definition` demands of one step. */
  predicate AcceptedStep(d: StepDef, count: nat, coworkers: set<string>, tools: set<string>) {
    match d
    case CoworkerAction(c) => c in coworkers
    case ToolCall(c, t) => c != "" && t in tools
    case HumanCheckpoint => true
    case Condition(p, o, t, f) =>
      p != "" && o in ["equals", "not_equals", "exists", "contains"] && 0 <= t <= count && 0 <= f <= count
    case Unsupported => false
  }

  /** The step is at fault in this way. */
  predicate HasFault(d: StepDef, count: nat, coworkers: set<string>, tools: set<string>, e: DefinitionError) {
    match e
    case NoSteps => false
    case UnsupportedType => d.Unsupported?
    case InvalidCoworker => d.CoworkerAction? && d.coworker !in coworkers
    case InvalidTool => d.ToolCall? && (d.coworker == "" || d.tool !in tools)
    case InvalidCondition =>
      d.Condition? && (d.path == "" || !(d.operator in {"equals", "not_equals", "exists", "contains"}))
    case InvalidTarget =>
      d.Condition? && (d.ifTrue < 0 || d.ifFalse < 0 || d.ifTrue > count || d.ifFalse > count)
  }

  method ValidateWorkflowDefinition(steps: seq<StepDef>, coworkers: set<string>, tools: set<string>)
      returns (r: Result<seq<StepDef>, DefinitionError>)
    ensures r.Ok? <==> steps != [] && forall i :: 0 <= i < |steps| ==> AcceptedStep(steps[i], |steps|, coworkers, tools)
    ensures r.Ok? ==> r.value == steps && ValidDefinition(r.value)
    ensures r.Ok? ==> forall i, e :: 0 <= i < |steps| ==> !HasFault(steps[i], |steps|, coworkers, tools, e)
    ensures r == Err(NoSteps) <==> steps == []
    ensures r.Err? && steps != [] ==>
              exists i :: 0 <= i < |steps| && HasFault(steps[i], |steps|, coworkers, tools, r.error)
                          && forall j :: 0 <= j < i ==> AcceptedStep(steps[j], |steps|, coworkers, tools)
  {
    if steps == [] {
      return Err(NoSteps);
    }
    for index := 0 to |steps|
      invariant forall i :: 0 <= i < index ==> AcceptedStep(steps[i], |steps|, coworkers, tools)
    {
      var step := steps[index];
      if step.Unsupported? {
        return Err(UnsupportedType);
      }
      if step.CoworkerAction? && step.coworker !in coworkers {
        return Err(InvalidCoworker);
      }
      if step.ToolCall? && (step.coworker == "" || step.tool !in tools) {
        return Err(InvalidTool);
      }
      if step.Condition? {
        if step.path == "" || step.operator !in ["equals", "not_equals", "exists", "contains"] {
          return Err(InvalidCondition);
        }
        if step.ifTrue < 0 || step.ifTrue > |steps| || step.ifFalse < 0 || step.ifFalse > |steps| {
          return Err(InvalidTarget);
        }
      }
    }
    return Ok(steps);
  }

  // ---------------------------------------------------------------- the pure interpreter

  /**
    The definition together with what each condition says in the run's fixed trigger context; None is a comparison
    that raises, such as the search for a number in a text.
   */
  datatype Program = Program(defs: seq<StepDef>, matched: seq<Option<bool>>) {
    ghost predicate Valid() {
      ValidDefinition(defs) && |matched| == |defs|
    }

    /** Step `i` is a condition that can not be evaluated. */
    predicate Stuck(i: nat)
      requires |matched| == |defs| && i < |defs|
    {
      defs[i].Condition? && matched[i].None?
    }

    /** Where control goes once step `i` is complete. */
    function Next(i: nat): nat
      requires Valid() && i < |defs| && !Stuck(i)
    {
      match defs[i]
      case Condition(_, _, ifTrue, ifFalse) => if matched[i].value then ifTrue else ifFalse
      case _ => i + 1
    }

    ghost function Open(done: set<nat>): set<nat> {
      set i | 0 <= i < |defs| && i !in done
    }

    /** The steps met from `i` on, in order; a step already done is passed over, never repeated, and the route ends
        in front of a condition that can not be evaluated. */
    ghost function RouteFrom(i: nat, done: set<nat>): seq<nat>
      requires Valid()
      decreases Open(done), |defs| - i
    {
      if i >= |defs| then []
      else if i in done then RouteFrom(i + 1, done)
      else if Stuck(i) then []
      else
        assert Open(done + {i}) < Open(done) by { assert i in Open(done) && i !in Open(done + {i}); }
        [i] + RouteFrom(Next(i), done + {i})
    }

    ghost function Route(): seq<nat>
      requires Valid()
    {
      RouteFrom(0, {})
    }
  }

  /** Whatever jumps it takes, the interpreter meets no step twice. */
  lemma {:induction false} RouteMeetsEachStepOnce(p: Program, i: nat, done: set<nat>)
    requires p.Valid()
    ensures Distinct(p.RouteFrom(i, done))
    ensures forall k :: k in p.RouteFrom(i, done) ==> k < |p.defs| && k !in done
    decreases p.Open(done), |p.defs| - i
  {
    if i < |p.defs| {
      if i in done {
        RouteMeetsEachStepOnce(p, i + 1, done);
      } else if !p.Stuck(i) {
        assert i in p.Open(done) && i !in p.Open(done + {i});
        RouteMeetsEachStepOnce(p, p.Next(i), done + {i});
      }
    }
  }

  // ---------------------------------------------------------------- rows

  datatype RunStatus = Running | NeedsApproval | Completed | Failed | Cancelled

  datatype StepStatus = StepPending | StepInProgress | StepNeedsApproval | StepCompleted | StepFailed | StepSkipped

  /** What a step's result holds: the task id of a coworker action, and whether it is a tool's output or error. */
  datatype Step = Step(status: StepStatus, task: Option<nat>, output: bool)

  datatype TaskRow = TaskRow(step: nat, status: Rows.TaskStatus)

  /**
    A run with its step, task and approval rows. `executed` lists the tool executions, `raised` the
    steps of those that ended in an exception, and `completed` the steps that completed, all in order
    of time; `moves` counts the writes of `current_step_index`.
   */
  datatype State = State(
    program: Program,
    status: RunStatus,
    index: nat,
    steps: seq<Step>,
    tasks: seq<TaskRow>,
    approvals: seq<ApprovalRow<nat>>,
    executed: seq<Execution<nat>>,
    raised: seq<nat>,
    completed: seq<nat>,
    moves: nat)

  /** Shapes the engine may rely on: a validated definition and task ids that exist. */
  ghost predicate WellFormed(s: State) {
    && s.program.Valid()
    && |s.steps| == |s.program.defs|
    && forall i :: 0 <= i < |s.steps| && s.steps[i].task.Some? ==> s.steps[i].task.value < |s.tasks|
  }

  /** A tool returns, perhaps with an error, or raises; it may raise after its effect has taken place. */
  datatype ToolRun = Returns(error: bool) | Raises

  /** What one advance finds outside the run's own rows for a tool step. */
  datatype ToolEnv = ToolEnv(attached: bool, gate: Gates.GateInput, run: ToolRun)

  datatype Outcome = Again | Return(poll: bool) | Raised

  /** `get_approval_request_for_workflow_step`. */
  function ApprovalOf(s: State, step: nat): Option<Rows.ApprovalStatus> {
    LatestApproval(s.approvals, step)
  }

  function SetStatus(s: State, i: nat, status: StepStatus): State
    requires i < |s.steps|
  {
    s.(steps := s.steps[i := s.steps[i].(status := status)])
  }

  /** Step `i` completes and control moves to `target`. */
  function CompleteAndMove(s: State, i: nat, target: nat): State
    requires i < |s.steps|
  {
    SetStatus(s, i, StepCompleted).(completed := s.completed + [i], index := target, moves := s.moves + 1)
  }

  /** A tool step has executed and its result is about to be saved. */
  function Executed(s: State, i: nat, why: Why): State
    requires i < |s.steps|
  {
    s.(executed := s.executed + [Execution(i, why)], steps := s.steps[i := s.steps[i].(output := true)])
  }

  /** A tool step has executed and raised: nobody catches it, and no row is saved. */
  function ExecutedInVain(s: State, i: nat, why: Why): State {
    s.(executed := s.executed + [Execution(i, why)], raised := s.raised + [i])
  }

  /** What an execution of step `i` leaves behind. */
  function AfterExecution(s: State, i: nat, run: ToolRun, why: Why): (State, Outcome)
    requires i < |s.steps|
  {
    match run
    case Raises => (ExecutedInVain(s, i, why), Raised)
    case Returns(true) => (SetStatus(Executed(s, i, why), i, StepFailed).(status := Failed), Return(false))
    case Returns(false) => (CompleteAndMove(Executed(s, i, why), i, i + 1), Again)
  }

  // ---------------------------------------------------------------- one advance, as a function

  /** One activation of `advance_workflow_run` up to its return, exception or recursive call. */
  ghost function Tick(s: State, env: nat -> ToolEnv): (r: (State, Outcome))
    requires WellFormed(s)
    ensures WellFormed(r.0) && r.0.program == s.program
  {
    var i := s.index;
    if s.status !in {Running, NeedsApproval} then (s, Return(false))
    else if i >= |s.steps| then (s.(status := Completed), Return(false))
    else if s.steps[i].status == StepNeedsApproval then (s, Return(false))
    else if s.steps[i].status == StepCompleted then (s.(index := i + 1, moves := s.moves + 1), Again)
    else
      match s.program.defs[i]
      case Condition(_, _, _, _) =>
        if s.program.Stuck(i) then (s, Raised) else (CompleteAndMove(s, i, s.program.Next(i)), Again)
      case HumanCheckpoint => (SetStatus(s, i, StepNeedsApproval).(status := NeedsApproval), Return(false))
      case CoworkerAction(_) => TickAction(s)
      case ToolCall(_, _) => TickTool(s, env(i))
  }

  ghost function TickAction(s: State): (r: (State, Outcome))
    requires WellFormed(s) && s.index < |s.steps|
    ensures WellFormed(r.0) && r.0.program == s.program
  {
    var i := s.index;
    match s.steps[i].task
    case Some(t) =>
      if s.tasks[t].status == Rows.Completed then (CompleteAndMove(s, i, i + 1), Again)
      else if s.tasks[t].status in {Rows.Failed, Rows.Blocked} then
        (SetStatus(s, i, StepFailed).(status := Failed), Return(false))
      else (s, Return(true))
    case None =>
      (s.(steps := s.steps[i := Step(StepInProgress, Some(|s.tasks|), false)],
          tasks := s.tasks + [TaskRow(i, Rows.Pending)]),
       Return(true))
  }

  ghost function TickTool(s: State, env: ToolEnv): (r: (State, Outcome))
    requires WellFormed(s) && s.index < |s.steps|
    ensures WellFormed(r.0) && r.0.program == s.program
  {
    var i := s.index;
    var approval := ApprovalOf(s, i);
    if !env.attached then (s, Raised)
    else
      match Gates.WorkflowVerdict(env.gate, approval.Some?)
      case Refuse => (SetStatus(s, i, StepFailed).(status := Failed), Return(false))
      case Ask =>
        (SetStatus(s, i, StepNeedsApproval).(
           status := NeedsApproval,
           approvals := s.approvals + [ApprovalRow(i, Rows.AwaitingDecision)]),
         Return(false))
      case Execute =>
        if approval == Some(Rows.AwaitingDecision) then (s, Return(false))
        else if approval.Some? && approval != Some(Rows.Approved) then (s.(status := Failed), Return(false))
        else AfterExecution(s, i, env.run, WhyRun(approval, env.gate))
  }

  ghost function Unfinished(s: State): set<nat> {
    set i | 0 <= i < |s.steps| && s.steps[i].status != StepCompleted
  }

  /** The recursion always makes progress: a step completes, or the index climbs towards the end. */
  lemma TickProgress(s: State, env: nat -> ToolEnv)
    requires WellFormed(s) && Tick(s, env).1 == Again
    ensures var s' := Tick(s, env).0;
            || Unfinished(s') < Unfinished(s)
            || (Unfinished(s') == Unfinished(s) && s.index < s'.index <= |s.steps|)
  {
    var s' := Tick(s, env).0;
    assert |s'.steps| == |s.steps|;
    if s.steps[s.index].status != StepCompleted {
      assert s.index in Unfinished(s) && s.index !in Unfinished(s');
    }
  }

  ghost function Advance(s: State, env: nat -> ToolEnv): (r: (State, Outcome))
    requires WellFormed(s)
    ensures WellFormed(r.0) && r.0.program == s.program && r.1 != Again
    decreases Unfinished(s), |s.steps| - s.index
  {
    var (s', outcome) := Tick(s, env);
    if outcome == Again then
      TickProgress(s, env);
      Advance(s', env)
    else
      (s', outcome)
  }

  // ---------------------------------------------------------------- events

  datatype Event =
    | AdvanceRun(env: nat -> ToolEnv)
    | TaskChanges(task: nat, status: Rows.TaskStatus)
    | DecideTool(row: nat, approve: bool)
    | DecideCheckpoint(step: nat, approve: bool)

  /** `_decide_approval_request` of the chat views, applied to a workflow step's row. */
  ghost function DecideToolStep(s: State, row: nat, approve: bool): (s': State)
    requires WellFormed(s)
    ensures WellFormed(s') && s'.program == s.program
  {
    if row < |s.approvals| && s.approvals[row].status == Rows.AwaitingDecision && s.approvals[row].key < |s.steps| then
      SetStatus(s, s.approvals[row].key, if approve then StepInProgress else StepFailed).(
        approvals := s.approvals[row := s.approvals[row].(status := Rows.DecisionStatus(approve))],
        status := if approve then Running else Failed)
    else s
  }

  /** `WorkflowCheckpointDecisionView.post`. */
  ghost function DecideCheckpointStep(s: State, step: nat, approve: bool): (s': State)
    requires WellFormed(s)
    ensures WellFormed(s') && s'.program == s.program
  {
    if step < |s.steps| && s.program.defs[step].HumanCheckpoint? && s.steps[step].status == StepNeedsApproval then
      if approve then CompleteAndMove(s, step, s.index + 1).(status := Running)
      else SetStatus(s, step, StepFailed).(status := Failed)
    else s
  }

  /** Ended tasks stay as they are (Tasks.EndedTasksStay). */
  ghost function Apply(s: State, e: Event): (s': State)
    requires WellFormed(s)
    ensures WellFormed(s') && s'.program == s.program
  {
    match e
    case AdvanceRun(env) => Advance(s, env).0
    case TaskChanges(t, status) =>
      if t < |s.tasks| && !Rows.Ended(s.tasks[t].status) then s.(tasks := s.tasks[t := s.tasks[t].(status := status)])
      else s
    case DecideTool(row, approve) => DecideToolStep(s, row, approve)
    case DecideCheckpoint(step, approve) => DecideCheckpointStep(s, step, approve)
  }

  ghost function Run(s: State, events: seq<Event>): (s': State)
    requires WellFormed(s)
    ensures WellFormed(s') && s'.program == s.program
  {
    if events == [] then s
    else Apply(Run(s, events[..|events| - 1]), events[|events| - 1])
  }

  /** `start_workflow_run`. */
  ghost function Start(p: Program): (s: State)
    requires p.Valid()
    ensures WellFormed(s) && s.program == p
  {
    State(p, Running, 0, seq(|p.defs|, _ => Step(StepPending, None, false)), [], [], [], [], [], 0)
  }

  // ---------------------------------------------------------------- the invariant

  ghost predicate StepOk(s: State, i: nat)
    requires WellFormed(s) && i < |s.steps|
  {
    var def, step := s.program.defs[i], s.steps[i];
    && (step.task.Some? ==> def.CoworkerAction? && s.tasks[step.task.value].step == i)
    && (ApprovalOf(s, i).Some? ==> def.ToolCall?)
    && (ApprovalOf(s, i) == Some(Rows.AwaitingDecision) ==> step.status == StepNeedsApproval)
    && (step.output ==> def.ToolCall? && step.status in {StepCompleted, StepFailed})
    && match step.status
       case StepPending => step.task.None? && ApprovalOf(s, i).None?
       case StepInProgress =>
         && i == s.index && s.status == Running
         && (def.CoworkerAction? || def.ToolCall?)
         && (def.CoworkerAction? ==> step.task.Some?)
         && (def.ToolCall? ==> ApprovalOf(s, i) == Some(Rows.Approved))
       case StepNeedsApproval =>
         && i == s.index && s.status == NeedsApproval
         && (def.HumanCheckpoint? || def.ToolCall?)
         && (def.ToolCall? ==> ApprovalOf(s, i) == Some(Rows.AwaitingDecision))
       case StepCompleted =>
         && (def.ToolCall? ==> step.output)
         && (def.CoworkerAction? ==> step.task.Some? && s.tasks[step.task.value].status == Rows.Completed)
       case StepFailed => s.status == Failed
       case StepSkipped => false
  }

  ghost predicate RunOk(s: State)
    requires WellFormed(s)
  {
    && s.index <= |s.steps|
    && (s.status == NeedsApproval <==> s.index < |s.steps| && s.steps[s.index].status == StepNeedsApproval)
    && (s.status == Completed ==> s.index == |s.steps|)
    && s.status != Cancelled
  }

  ghost predicate HistoryOk(s: State)
    requires WellFormed(s)
  {
    && Distinct(s.completed)
    && (forall i :: 0 <= i < |s.steps| ==> (s.steps[i].status == StepCompleted <==> i in s.completed))
    && (forall i :: i in s.completed ==> i < |s.steps|)
  }

  /** The step was approved by a person, or the gate let it run while nobody had been asked. */
  ghost predicate Justified(s: State, e: Execution<nat>) {
    match e.why
    case ByApproval => ApprovalOf(s, e.key) == Some(Rows.Approved)
    case ByGate(gate) => Gates.WorkflowVerdict(gate, false) == Gates.Execute
  }

  /** How often a step has executed. */
  ghost function Runs(s: State, i: nat): nat {
    Count<nat>(LoggedKeys(s.executed), i)
  }

  ghost function RaisedRuns(s: State, i: nat): nat {
    Count<nat>(s.raised, i)
  }

  /** Every execution is justified for good; it raised, or the step's row holds its output. */
  ghost predicate ExecutedOk(s: State)
    requires WellFormed(s)
  {
    && (forall k :: 0 <= k < |s.executed| ==>
          && s.executed[k].key < |s.steps| && s.program.defs[s.executed[k].key].ToolCall?
          && Justified(s, s.executed[k]))
    && forall i :: 0 <= i < |s.steps| ==> Runs(s, i) == RaisedRuns(s, i) + if s.steps[i].output then 1 else 0
  }

  ghost predicate RowsOk(s: State)
    requires WellFormed(s)
  {
    && (forall t :: 0 <= t < |s.tasks| ==> s.tasks[t].step < |s.steps| && s.steps[s.tasks[t].step].task == Some(t))
    && (forall r :: 0 <= r < |s.approvals| ==> s.approvals[r].key < |s.steps|)
    && OneRowEach(s.approvals)
  }

  ghost function DoneSet(s: State): set<nat> {
    set i | i in s.completed
  }

  /** The engine is always somewhere on the interpreter's route, with the rest still ahead. */
  ghost predicate OnRoute(s: State)
    requires WellFormed(s)
  {
    s.program.Route() == s.completed + s.program.RouteFrom(s.index, DoneSet(s))
  }

  ghost function Conditions(p: Program): set<nat> {
    set i | 0 <= i < |p.defs| && p.defs[i].Condition?
  }

  ghost function JumpsTaken(s: State): set<nat> {
    Conditions(s.program) * DoneSet(s)
  }

  /** `jumps` stretches of `width` index moves each; a sum, so that the solver never multiplies. */
  ghost function Budget(jumps: nat, width: nat): nat {
    if jumps == 0 then 0 else Budget(jumps - 1, width) + width
  }

  ghost predicate MovesOk(s: State) {
    s.moves <= Budget(|JumpsTaken(s)|, |s.steps| + 1) + s.index
  }

  ghost predicate Inv(s: State) {
    && WellFormed(s)
    && RunOk(s)
    && (forall i :: 0 <= i < |s.steps| ==> StepOk(s, i))
    && HistoryOk(s)
    && ExecutedOk(s)
    && RowsOk(s)
  }

  lemma StartInv(p: Program)
    requires p.Valid()
    ensures Inv(Start(p)) && OnRoute(Start(p)) && MovesOk(Start(p))
  {
    assert DoneSet(Start(p)) == {};
  }

  // ---------------------------------------------------------------- preservation

  /** Completing the current step follows the interpreter. */
  lemma CompletingStaysOnRoute(s: State, target: nat)
    requires WellFormed(s) && HistoryOk(s) && OnRoute(s)
    requires s.index < |s.steps| && s.steps[s.index].status != StepCompleted
    requires !s.program.Stuck(s.index) && target == s.program.Next(s.index)
    ensures OnRoute(CompleteAndMove(s, s.index, target))
  {
    var i := s.index;
    var s' := CompleteAndMove(s, i, target);
    assert DoneSet(s') == DoneSet(s) + {i};
    assert i !in DoneSet(s);
    var rest := s.program.RouteFrom(target, DoneSet(s'));
    assert s.program.RouteFrom(i, DoneSet(s)) == [i] + rest;
    assert s.completed + ([i] + rest) == s'.completed + rest;
  }

  /** A jump may reset the index, but each condition jumps only once. */
  lemma CompletingPaysForMove(s: State, target: nat)
    requires s.program.Valid() && |s.steps| == |s.program.defs| && MovesOk(s)
    requires s.index < |s.steps| && s.index !in s.completed
    requires !s.program.Stuck(s.index) && target == s.program.Next(s.index)
    ensures MovesOk(CompleteAndMove(s, s.index, target))
  {
    var i := s.index;
    var s' := CompleteAndMove(s, i, target);
    if s.program.defs[i].Condition? {
      assert i !in JumpsTaken(s);
      assert JumpsTaken(s') == JumpsTaken(s) + {i};
    } else {
      assert JumpsTaken(s') == JumpsTaken(s);
    }
  }

  lemma {:induction false} BudgetGrows(jumps: nat, more: nat, width: nat)
    requires jumps <= more
    ensures Budget(jumps, width) <= Budget(more, width) == more * width
    decreases more
  {
    if jumps < more {
      BudgetGrows(jumps, more - 1, width);
    } else if jumps > 0 {
      BudgetGrows(jumps - 1, more - 1, width);
    }
  }

  /** Nothing executed, and an approval once given stays given. */
  lemma NothingExecuted(s: State, s': State)
    requires WellFormed(s) && ExecutedOk(s) && WellFormed(s') && s'.program == s.program
    requires s'.executed == s.executed && s'.raised == s.raised
    requires forall i :: 0 <= i < |s.steps| ==> s'.steps[i].output == s.steps[i].output
    requires forall i: nat :: ApprovalOf(s, i) == Some(Rows.Approved) ==> ApprovalOf(s', i) == Some(Rows.Approved)
    ensures ExecutedOk(s')
  {
    forall k | 0 <= k < |s'.executed| ensures Justified(s', s'.executed[k]) { assert Justified(s, s.executed[k]); }
    forall i | 0 <= i < |s'.steps|
      ensures Runs(s', i) == RaisedRuns(s', i) + if s'.steps[i].output then 1 else 0
    {
      assert Runs(s, i) == RaisedRuns(s, i) + if s.steps[i].output then 1 else 0;
    }
  }

  /** An execution is counted once, as raised or as stored. */
  lemma ExecutionCounts(s: State, s': State, i: nat, why: Why, j: nat)
    requires i < |s.steps| && j < |s.steps| && !s.steps[i].output
    requires s' == Executed(s, i, why) || s' == ExecutedInVain(s, i, why)
    requires Runs(s, j) == RaisedRuns(s, j) + if s.steps[j].output then 1 else 0
    ensures Runs(s', j) == RaisedRuns(s', j) + if s'.steps[j].output then 1 else 0
  {
    RunsAppend(s, s', i, why, j);
    if s' == ExecutedInVain(s, i, why) {
      CountAppend<nat>(s.raised, i, j);
    }
  }

  lemma RunsAppend(s: State, s': State, i: nat, why: Why, j: nat)
    requires s'.executed == s.executed + [Execution(i, why)]
    ensures Runs(s', j) == Runs(s, j) + if i == j then 1 else 0
  {
    assert LoggedKeys(s'.executed) == LoggedKeys(s.executed) + [i];
    CountAppend<nat>(LoggedKeys(s.executed), i, j);
  }

  /** One more execution of a tool step that has no output yet. */
  lemma StepExecuted(s: State, s': State, i: nat, why: Why)
    requires WellFormed(s) && ExecutedOk(s) && WellFormed(s')
    requires i < |s.steps| && s.program.defs[i].ToolCall? && !s.steps[i].output && Justified(s, Execution(i, why))
    requires s' == Executed(s, i, why) || s' == ExecutedInVain(s, i, why)
    ensures ExecutedOk(s')
  {
    var e := Execution(i, why);
    forall k | 0 <= k < |s'.executed| ensures Justified(s', s'.executed[k]) {
      assert Justified(s, if k < |s.executed| then s.executed[k] else e);
    }
    forall j | 0 <= j < |s'.steps|
      ensures Runs(s', j) == RaisedRuns(s', j) + if s'.steps[j].output then 1 else 0
    {
      ExecutionCounts(s, s', i, why, j);
    }
  }

  lemma CompletingHistory(s: State, target: nat)
    requires WellFormed(s) && HistoryOk(s)
    requires s.index < |s.steps| && s.steps[s.index].status in {StepPending, StepInProgress}
    ensures HistoryOk(CompleteAndMove(s, s.index, target))
  {
    assert s.index !in s.completed;
  }

  /** The current step is about to complete: what its kind demands is in place. */
  ghost predicate Completable(s: State)
    requires WellFormed(s)
  {
    && s.status == Running
    && s.index < |s.steps| && s.steps[s.index].status in {StepPending, StepInProgress}
    && ApprovalOf(s, s.index) != Some(Rows.AwaitingDecision)
    && match s.program.defs[s.index]
       case CoworkerAction(_) =>
         s.steps[s.index].task.Some? && s.tasks[s.steps[s.index].task.value].status == Rows.Completed
       case ToolCall(_, _) => s.steps[s.index].output
       case _ => true
  }

  /** Completing the current step, whatever its kind; `s` is the run with a tool's output already noted. */
  lemma CompletingInv(before: State, s: State, target: nat, why: Why)
    requires Inv(before) && WellFormed(s) && ExecutedOk(s) && Completable(s) && target <= |s.steps|
    requires s == before || (before.index < |before.steps| && s == Executed(before, before.index, why))
    requires s.steps[s.index].output ==> s.program.defs[s.index].ToolCall?
    ensures Inv(CompleteAndMove(s, s.index, target))
  {
    var s' := CompleteAndMove(s, s.index, target);
    assert StepOk(before, s.index);
    assert forall j :: 0 <= j < |s.steps| ==> s.steps[j].status == before.steps[j].status;
    CompletingHistory(s, target);
    NothingExecuted(s, s');
    CompletingSteps(before, s, target, why);
    CompletingRun(before, s, target, why);
  }

  lemma CompletingRun(before: State, s: State, target: nat, why: Why)
    requires WellFormed(before) && (forall j :: 0 <= j < |before.steps| ==> StepOk(before, j))
    requires WellFormed(s) && Completable(s) && target <= |s.steps|
    requires s == before || (before.index < |before.steps| && s == Executed(before, before.index, why))
    ensures RunOk(CompleteAndMove(s, s.index, target))
  {
    assert target < |s.steps| ==> StepOk(before, target);
  }

  lemma CompletingSteps(before: State, s: State, target: nat, why: Why)
    requires WellFormed(before) && (forall j :: 0 <= j < |before.steps| ==> StepOk(before, j))
    requires WellFormed(s) && Completable(s) && target <= |s.steps|
    requires s == before || (before.index < |before.steps| && s == Executed(before, before.index, why))
    requires s.steps[s.index].output ==> s.program.defs[s.index].ToolCall?
    ensures forall j :: 0 <= j < |s.steps| ==> StepOk(CompleteAndMove(s, s.index, target), j)
  {
    var s' := CompleteAndMove(s, s.index, target);
    forall j | 0 <= j < |s'.steps| ensures StepOk(s', j) { assert StepOk(before, j); }
  }

  /** The current step or the whole run stops for a person, for a task or for good; nothing completes. */
  ghost predicate OnlyCurrentStepChanges(s: State, s': State)
    requires WellFormed(s) && WellFormed(s') && s.index < |s.steps|
  {
    && s'.program == s.program && s'.index == s.index && s'.completed == s.completed && s'.moves == s.moves
    && forall j :: 0 <= j < |s.steps| && j != s.index ==>
         s'.steps[j] == s.steps[j] && ApprovalOf(s', j) == ApprovalOf(s, j)
  }

  lemma StoppingInv(s: State, s': State)
    requires Inv(s) && WellFormed(s') && s.index < |s.steps| && s.status == Running
    requires OnlyCurrentStepChanges(s, s') && s.steps[s.index].status != StepCompleted
    requires s'.status in {Running, NeedsApproval, Failed}
    requires s'.steps[s.index].status in {StepPending, StepInProgress, StepNeedsApproval, StepFailed}
    requires s'.status == NeedsApproval <==> s'.steps[s.index].status == StepNeedsApproval
    requires |s.tasks| <= |s'.tasks| && s'.tasks[..|s.tasks|] == s.tasks
    requires StepOk(s', s.index) && RowsOk(s') && ExecutedOk(s')
    ensures Inv(s')
  {
    forall j | 0 <= j < |s'.steps| ensures StepOk(s', j) {
      assert StepOk(s, j);
      assert j != s.index ==> s'.steps[j] == s.steps[j];
    }
    assert DoneSet(s') == DoneSet(s);
  }

  lemma TickActionInv(s: State)
    requires Inv(s) && s.status == Running
    requires s.index < |s.steps| && s.steps[s.index].status in {StepPending, StepInProgress}
    requires s.program.defs[s.index].CoworkerAction?
    ensures Inv(TickAction(s).0)
  {
    var i := s.index;
    assert StepOk(s, i);
    var (s', outcome) := TickAction(s);
    if outcome == Again {
      CompletingInv(s, s, i + 1, ByApproval);
    } else if s' != s {
      NothingExecuted(s, s');
      StoppingInv(s, s');
    }
  }

  lemma AskingInv(s: State)
    requires Inv(s) && s.status == Running
    requires s.index < |s.steps| && s.steps[s.index].status == StepPending
    requires s.program.defs[s.index].ToolCall?
    ensures Inv(SetStatus(s, s.index, StepNeedsApproval).(
                  status := NeedsApproval,
                  approvals := s.approvals + [ApprovalRow(s.index, Rows.AwaitingDecision)]))
  {
    var i := s.index;
    var s' := SetStatus(s, i, StepNeedsApproval).(
                status := NeedsApproval,
                approvals := s.approvals + [ApprovalRow(i, Rows.AwaitingDecision)]);
    assert StepOk(s, i);
    LatestApprovalNone(s.approvals, i);
    forall j: nat { LatestApprovalAppend(s.approvals, ApprovalRow(i, Rows.AwaitingDecision), j); }
    NothingExecuted(s, s');
    StoppingInv(s, s');
  }

  /** The current step fails, after an execution or without one. */
  lemma FailingInv(s: State, ran: State, why: Why)
    requires Inv(s) && s.status == Running
    requires s.index < |s.steps| && s.steps[s.index].status in {StepPending, StepInProgress}
    requires WellFormed(ran) && ExecutedOk(ran)
    requires ran == s || (s.program.defs[s.index].ToolCall? && ran == Executed(s, s.index, why))
    ensures Inv(SetStatus(ran, s.index, StepFailed).(status := Failed))
  {
    var s' := SetStatus(ran, s.index, StepFailed).(status := Failed);
    assert StepOk(s, s.index);
    NothingExecuted(ran, s');
    StoppingInv(s, s');
  }

  lemma TickToolInv(s: State, env: ToolEnv)
    requires Inv(s) && s.status == Running
    requires s.index < |s.steps| && s.steps[s.index].status in {StepPending, StepInProgress}
    requires s.program.defs[s.index].ToolCall?
    ensures Inv(TickTool(s, env).0)
  {
    var i := s.index;
    assert StepOk(s, i);
    if env.attached {
      match Gates.WorkflowVerdict(env.gate, ApprovalOf(s, i).Some?)
      case Refuse => FailingInv(s, s, ByApproval);
      case Ask => AskingInv(s);
      case Execute => ExecutingInv(s, env);
    }
  }

  lemma ExecutingInv(s: State, env: ToolEnv)
    requires Inv(s) && s.status == Running && env.attached
    requires s.index < |s.steps| && s.steps[s.index].status in {StepPending, StepInProgress}
    requires s.program.defs[s.index].ToolCall?
    requires Gates.WorkflowVerdict(env.gate, ApprovalOf(s, s.index).Some?) == Gates.Execute
    ensures Inv(TickTool(s, env).0)
  {
    var i := s.index;
    var why := WhyRun(ApprovalOf(s, i), env.gate);
    assert StepOk(s, i);
    if env.run.Raises? {
      RaisingInv(s, why);
    } else if env.run.error {
      StepExecuted(s, Executed(s, i, why), i, why);
      FailingInv(s, Executed(s, i, why), why);
    } else {
      StepExecuted(s, Executed(s, i, why), i, why);
      CompletingInv(s, Executed(s, i, why), i + 1, why);
    }
  }

  lemma RaisingInv(s: State, why: Why)
    requires Inv(s) && s.status == Running
    requires s.index < |s.steps| && s.steps[s.index].status in {StepPending, StepInProgress}
    requires s.program.defs[s.index].ToolCall? && Justified(s, Execution(s.index, why))
    ensures Inv(ExecutedInVain(s, s.index, why))
  {
    assert StepOk(s, s.index);
    StepExecuted(s, ExecutedInVain(s, s.index, why), s.index, why);
    StoppingInv(s, ExecutedInVain(s, s.index, why));
  }

  lemma TickInv(s: State, env: nat -> ToolEnv)
    requires Inv(s)
    ensures Inv(Tick(s, env).0)
  {
    var i := s.index;
    var s' := Tick(s, env).0;
    if s.status in {Running, NeedsApproval} && i < |s.steps| {
      assert StepOk(s, i);
      var def := s.program.defs[i];
      if s.steps[i].status == StepCompleted {
        PassingInv(s);
      } else if s.steps[i].status != StepNeedsApproval {
        if def.Condition? {
          if !s.program.Stuck(i) { CompletingInv(s, s, s.program.Next(i), ByApproval); }
        } else if def.HumanCheckpoint? {
          NothingExecuted(s, s');
          StoppingInv(s, s');
        } else if def.CoworkerAction? {
          TickActionInv(s);
        } else {
          TickToolInv(s, env(i));
        }
      }
    } else if s.status in {Running, NeedsApproval} {
      EndingInv(s);
    }
  }

  lemma PassingInv(s: State)
    requires Inv(s) && s.status in {Running, NeedsApproval}
    requires s.index < |s.steps| && s.steps[s.index].status == StepCompleted
    ensures Inv(s.(index := s.index + 1, moves := s.moves + 1))
  {
    var s' := s.(index := s.index + 1, moves := s.moves + 1);
    assert s'.index < |s.steps| ==> StepOk(s, s'.index);
    NothingExecuted(s, s');
    forall j | 0 <= j < |s'.steps| ensures StepOk(s', j) { assert StepOk(s, j); }
  }

  lemma EndingInv(s: State)
    requires Inv(s) && s.status in {Running, NeedsApproval} && s.index >= |s.steps|
    ensures Inv(s.(status := Completed))
  {
    var s' := s.(status := Completed);
    NothingExecuted(s, s');
    forall j | 0 <= j < |s'.steps| ensures StepOk(s', j) { assert StepOk(s, j); }
  }

  lemma {:induction false} AdvanceInv(s: State, env: nat -> ToolEnv)
    requires Inv(s)
    ensures Inv(Advance(s, env).0)
    decreases Unfinished(s), |s.steps| - s.index
  {
    TickInv(s, env);
    if Tick(s, env).1 == Again {
      TickProgress(s, env);
      AdvanceInv(Tick(s, env).0, env);
    }
  }

  /** The trace predicates read only these fields. */
  ghost predicate SameTrace(s: State, s': State) {
    s'.program == s.program && s'.index == s.index && s'.completed == s.completed && s'.moves == s.moves
    && |s'.steps| == |s.steps|
  }

  lemma SameTraceKeeps(s: State, s': State)
    requires WellFormed(s) && WellFormed(s') && SameTrace(s, s')
    ensures OnRoute(s) ==> OnRoute(s')
    ensures MovesOk(s) ==> MovesOk(s')
  {
    assert DoneSet(s') == DoneSet(s);
  }

  lemma PassingKeepsTrace(s: State)
    requires WellFormed(s) && OnRoute(s) && MovesOk(s)
    requires s.index < |s.steps| && s.index in s.completed
    ensures OnRoute(s.(index := s.index + 1, moves := s.moves + 1))
    ensures MovesOk(s.(index := s.index + 1, moves := s.moves + 1))
  {
    var s' := s.(index := s.index + 1, moves := s.moves + 1);
    assert DoneSet(s') == DoneSet(s) && s.index in DoneSet(s);
  }

  lemma CompletingKeepsTrace(s: State, s': State)
    requires WellFormed(s) && HistoryOk(s) && OnRoute(s) && MovesOk(s)
    requires s.index < |s.steps| && s.steps[s.index].status != StepCompleted && !s.program.Stuck(s.index)
    requires WellFormed(s') && SameTrace(CompleteAndMove(s, s.index, s.program.Next(s.index)), s')
    ensures OnRoute(s') && MovesOk(s')
  {
    var target := s.program.Next(s.index);
    CompletingStaysOnRoute(s, target);
    CompletingPaysForMove(s, target);
    SameTraceKeeps(CompleteAndMove(s, s.index, target), s');
  }

  /** A tick keeps the trace, passes over a completed step, or completes the current one. */
  lemma TickShape(s: State, env: nat -> ToolEnv)
    requires WellFormed(s)
    ensures var s' := Tick(s, env).0;
            || SameTrace(s, s')
            || (&& s.index < |s.steps| && s.steps[s.index].status == StepCompleted
                && s' == s.(index := s.index + 1, moves := s.moves + 1))
            || (&& s.index < |s.steps| && s.steps[s.index].status != StepCompleted && !s.program.Stuck(s.index)
                && SameTrace(CompleteAndMove(s, s.index, s.program.Next(s.index)), s'))
  {
  }

  lemma TickTrace(s: State, env: nat -> ToolEnv)
    requires WellFormed(s) && HistoryOk(s) && OnRoute(s) && MovesOk(s)
    ensures OnRoute(Tick(s, env).0) && MovesOk(Tick(s, env).0)
  {
    var s' := Tick(s, env).0;
    TickShape(s, env);
    if s'.moves == s.moves {
      SameTraceKeeps(s, s');
    } else if s'.completed == s.completed {
      PassingKeepsTrace(s);
    } else {
      CompletingKeepsTrace(s, s');
    }
  }

  ghost predicate Good(s: State) {
    Inv(s) && OnRoute(s) && MovesOk(s)
  }

  lemma {:induction false} AdvanceGood(s: State, env: nat -> ToolEnv)
    requires Good(s)
    ensures Good(Advance(s, env).0)
    decreases Unfinished(s), |s.steps| - s.index
  {
    TickInv(s, env);
    TickTrace(s, env);
    if Tick(s, env).1 == Again {
      TickProgress(s, env);
      AdvanceGood(Tick(s, env).0, env);
    }
  }

  lemma DecideToolInv(s: State, row: nat, approve: bool)
    requires Inv(s) && row < |s.approvals| && s.approvals[row].status == Rows.AwaitingDecision
    ensures Inv(DecideToolStep(s, row, approve))
  {
    var i := s.approvals[row].key;
    var s' := DecideToolStep(s, row, approve);
    assert StepOk(s, i);
    LatestApprovalOf(s.approvals, row);
    forall j: nat { LatestApprovalUpdate(s.approvals, row, Rows.DecisionStatus(approve), j); }
    NothingExecuted(s, s');
    forall j | 0 <= j < |s'.steps| ensures StepOk(s', j) { assert StepOk(s, j); }
  }

  /** A person's approval completes the checkpoint just as a met condition or task would. */
  lemma DecideCheckpointInv(s: State, step: nat, approve: bool)
    requires Inv(s) && step < |s.steps|
    requires s.program.defs[step].HumanCheckpoint? && s.steps[step].status == StepNeedsApproval
    ensures step == s.index && Inv(DecideCheckpointStep(s, step, approve))
  {
    assert StepOk(s, step);
    NothingExecuted(s, DecideCheckpointStep(s, step, approve));
    CheckpointSteps(s, step, approve);
    CheckpointRun(s, step, approve);
    if approve {
      CheckpointHistory(s, step);
    }
  }

  lemma CheckpointRun(s: State, step: nat, approve: bool)
    requires WellFormed(s) && RunOk(s) && (forall j :: 0 <= j < |s.steps| ==> StepOk(s, j))
    requires step == s.index < |s.steps|
    requires s.program.defs[step].HumanCheckpoint? && s.steps[step].status == StepNeedsApproval
    ensures RunOk(DecideCheckpointStep(s, step, approve))
  {
    assert step + 1 < |s.steps| ==> StepOk(s, step + 1);
  }

  lemma CheckpointSteps(s: State, step: nat, approve: bool)
    requires WellFormed(s) && (forall j :: 0 <= j < |s.steps| ==> StepOk(s, j))
    requires step == s.index < |s.steps|
    requires s.program.defs[step].HumanCheckpoint? && s.steps[step].status == StepNeedsApproval
    ensures forall j :: 0 <= j < |s.steps| ==> StepOk(DecideCheckpointStep(s, step, approve), j)
  {
    var s' := DecideCheckpointStep(s, step, approve);
    assert StepOk(s, step);
    forall j | 0 <= j < |s'.steps| ensures StepOk(s', j) { assert StepOk(s, j); }
  }

  lemma CheckpointHistory(s: State, step: nat)
    requires WellFormed(s) && HistoryOk(s) && step < |s.steps| && s.steps[step].status != StepCompleted
    ensures HistoryOk(CompleteAndMove(s, step, s.index + 1).(status := Running))
  {
    assert step !in s.completed;
  }

  lemma DecideToolGood(s: State, row: nat, approve: bool)
    requires Good(s)
    ensures Good(DecideToolStep(s, row, approve))
  {
    if row < |s.approvals| && s.approvals[row].status == Rows.AwaitingDecision {
      DecideToolInv(s, row, approve);
    }
    SameTraceKeeps(s, DecideToolStep(s, row, approve));
  }

  lemma DecideCheckpointGood(s: State, step: nat, approve: bool)
    requires Good(s)
    ensures Good(DecideCheckpointStep(s, step, approve))
  {
    var s' := DecideCheckpointStep(s, step, approve);
    if step < |s.steps| && s.program.defs[step].HumanCheckpoint? && s.steps[step].status == StepNeedsApproval {
      DecideCheckpointInv(s, step, approve);
      if approve {
        CompletingKeepsTrace(s, s');
      } else {
        SameTraceKeeps(s, s');
      }
    }
  }

  lemma TaskChangesGood(s: State, t: nat, status: Rows.TaskStatus)
    requires Good(s)
    ensures Good(Apply(s, TaskChanges(t, status)))
  {
    var s' := Apply(s, TaskChanges(t, status));
    forall j | 0 <= j < |s'.steps| ensures StepOk(s', j) { assert StepOk(s, j); }
    NothingExecuted(s, s');
    SameTraceKeeps(s, s');
  }

  lemma ApplyGood(s: State, e: Event)
    requires Good(s)
    ensures Good(Apply(s, e))
  {
    match e
    case AdvanceRun(env) => AdvanceGood(s, env);
    case TaskChanges(t, status) => TaskChangesGood(s, t, status);
    case DecideTool(row, approve) => DecideToolGood(s, row, approve);
    case DecideCheckpoint(step, approve) => DecideCheckpointGood(s, step, approve);
  }

  lemma {:induction false} RunGood(s: State, events: seq<Event>)
    requires Good(s)
    ensures Good(Run(s, events))
  {
    if events != [] {
      RunGood(s, events[..|events| - 1]);
      ApplyGood(Run(s, events[..|events| - 1]), events[|events| - 1]);
    }
  }

  // ---------------------------------------------------------------- main results

  /**
    Refinement: whatever advances, task results and decisions happen and in whatever order, the
    steps completed so far are a prefix of the interpreter's route, and a completed run has
    completed exactly the route, each of its tool steps executed and each of its coworker actions
    backed by a completed task of its own.
   */
  lemma EngineRefinesRoute(p: Program, events: seq<Event>)
    requires p.Valid()
    ensures var s := Run(Start(p), events);
            && s.completed <= p.Route()
            && (forall i :: i in s.completed ==> i < |p.defs|)
            && (s.status == Completed ==> s.completed == p.Route())
            && (forall i :: i in s.completed && p.defs[i].ToolCall? ==> i in LoggedKeys(s.executed))
            && (forall i :: i in s.completed && p.defs[i].CoworkerAction? ==>
                  exists t :: 0 <= t < |s.tasks| && s.tasks[t] == TaskRow(i, Rows.Completed)
                              && s.steps[i].task == Some(t))
  {
    var s := Run(Start(p), events);
    StartInv(p);
    RunGood(Start(p), events);
    forall i | i in s.completed { CompletedIsBacked(s, i); }
  }

  /** Behind a completed step stands the execution or the completed task that completed it. */
  lemma CompletedIsBacked(s: State, i: nat)
    requires Inv(s) && i in s.completed
    ensures i < |s.steps|
    ensures s.program.defs[i].ToolCall? ==> i in LoggedKeys(s.executed)
    ensures s.program.defs[i].CoworkerAction? ==>
              exists t :: 0 <= t < |s.tasks| && s.tasks[t] == TaskRow(i, Rows.Completed) && s.steps[i].task == Some(t)
  {
    assert StepOk(s, i);
    RunsAreCounted(s, i);
    CountPositive<nat>(LoggedKeys(s.executed), i);
    if s.program.defs[i].CoworkerAction? {
      assert s.tasks[s.steps[i].task.value] == TaskRow(i, Rows.Completed);
    }
  }

  lemma BoundedMoves(s: State)
    requires MovesOk(s) && s.index <= |s.steps| == |s.program.defs|
    ensures s.moves <= (|Conditions(s.program)| + 1) * (|s.program.defs| + 1) - 1
  {
    var jumps, width := |Conditions(s.program)|, |s.steps| + 1;
    SubsetSize(JumpsTaken(s), Conditions(s.program));
    BudgetGrows(|JumpsTaken(s)|, jumps, width);
    BudgetGrows(0, jumps + 1, width);
  }

  /** Self-loops and backward jumps included, a whole run moves its index a bounded number of times. */
  lemma MovesAreBounded(p: Program, events: seq<Event>)
    requires p.Valid()
    ensures var s := Run(Start(p), events);
            s.index <= |p.defs| && s.moves <= (|Conditions(p)| + 1) * (|p.defs| + 1) - 1
  {
    var s := Run(Start(p), events);
    StartInv(p);
    RunGood(Start(p), events);
    BoundedMoves(s);
  }

  ghost predicate Active(status: StepStatus) {
    status in {StepInProgress, StepNeedsApproval}
  }

  ghost predicate Terminal(status: RunStatus) {
    status in {Completed, Failed, Cancelled}
  }

  /** What holds between any two events of any run. */
  ghost predicate Safe(s: State) {
    && |s.steps| == |s.program.defs|
    && (forall i :: 0 <= i < |s.steps| && Active(s.steps[i].status) ==> i == s.index && !Terminal(s.status))
    && (s.status == NeedsApproval <==> exists i :: 0 <= i < |s.steps| && s.steps[i].status == StepNeedsApproval)
    && (forall r :: 0 <= r < |s.approvals| && s.approvals[r].status == Rows.AwaitingDecision ==>
          s.approvals[r].key == s.index < |s.steps| && s.steps[s.index].status == StepNeedsApproval)
  }

  /** Each step starts at most one task and asks for at most one approval; only a tool step executes, justified. */
  ghost predicate StartsOnce(s: State) {
    && (forall t, u :: 0 <= t < u < |s.tasks| ==> s.tasks[t].step != s.tasks[u].step)
    && OneRowEach(s.approvals)
    && (forall t :: 0 <= t < |s.tasks| ==> s.tasks[t].step !in LoggedKeys(s.executed))
    && (forall k :: 0 <= k < |s.executed| ==> Justified(s, s.executed[k]))
  }

  lemma InvIsSafe(s: State)
    requires Inv(s)
    ensures Safe(s)
  {
    forall i | 0 <= i < |s.steps| && Active(s.steps[i].status) ensures i == s.index && !Terminal(s.status) {
      assert StepOk(s, i);
    }
    forall r | 0 <= r < |s.approvals| && s.approvals[r].status == Rows.AwaitingDecision
      ensures s.approvals[r].key == s.index && s.steps[s.index].status == StepNeedsApproval
    {
      LatestApprovalOf(s.approvals, r);
      assert StepOk(s, s.approvals[r].key);
    }
  }

  lemma InvStartsOnce(s: State)
    requires Inv(s)
    ensures StartsOnce(s)
  {
    forall t | 0 <= t < |s.tasks| ensures s.tasks[t].step !in LoggedKeys(s.executed) {
      assert StepOk(s, s.tasks[t].step);
    }
  }

  lemma RunSafety(p: Program, events: seq<Event>)
    requires p.Valid()
    ensures Safe(Run(Start(p), events)) && StartsOnce(Run(Start(p), events))
  {
    StartInv(p);
    RunGood(Start(p), events);
    InvIsSafe(Run(Start(p), events));
    InvStartsOnce(Run(Start(p), events));
  }

  /**
    Conservation: a tool step has executed once for every time it raised, and once more if its row holds
    the output. So it executes at most once exactly when it never raised, or raised once and has
    no output since.
   */
  lemma ExecutedOnceUnlessRaised(p: Program, events: seq<Event>, i: nat)
    requires p.Valid() && i < |p.defs|
    ensures var s := Run(Start(p), events);
            var ran, raised := Runs(s, i), RaisedRuns(s, i);
            && ran == raised + (if s.steps[i].output then 1 else 0)
            && (s.steps[i].output ==> p.defs[i].ToolCall? && s.steps[i].status in {StepCompleted, StepFailed})
            && (p.defs[i].ToolCall? && s.steps[i].status == StepCompleted ==> s.steps[i].output)
            && (ran <= 1 <==> raised == 0 || (raised == 1 && !s.steps[i].output))
  {
    StartInv(p);
    RunGood(Start(p), events);
    RunsAreCounted(Run(Start(p), events), i);
  }

  lemma RunsAreCounted(s: State, i: nat)
    requires Inv(s) && i < |s.steps|
    ensures Runs(s, i) == RaisedRuns(s, i) + if s.steps[i].output then 1 else 0
    ensures s.steps[i].output ==> s.program.defs[i].ToolCall? && s.steps[i].status in {StepCompleted, StepFailed}
    ensures s.program.defs[i].ToolCall? && s.steps[i].status == StepCompleted ==> s.steps[i].output
  {
    assert StepOk(s, i);
  }

  ghost predicate NothingRaises(e: Event) {
    e.AdvanceRun? ==> forall i: nat :: !e.env(i).run.Raises?
  }

  lemma {:induction false} AdvanceWithoutRaise(s: State, env: nat -> ToolEnv)
    requires WellFormed(s) && forall i: nat :: !env(i).run.Raises?
    ensures Advance(s, env).0.raised == s.raised
    decreases Unfinished(s), |s.steps| - s.index
  {
    if Tick(s, env).1 == Again {
      TickProgress(s, env);
      AdvanceWithoutRaise(Tick(s, env).0, env);
    }
  }

  lemma {:induction false} RunWithoutRaise(p: Program, events: seq<Event>)
    requires p.Valid() && forall k :: 0 <= k < |events| ==> NothingRaises(events[k])
    ensures Run(Start(p), events).raised == []
  {
    if events != [] {
      var earlier, last := events[..|events| - 1], events[|events| - 1];
      RunWithoutRaise(p, earlier);
      assert NothingRaises(last);
      if last.AdvanceRun? {
        AdvanceWithoutRaise(Run(Start(p), earlier), last.env);
      }
    }
  }

  /** As long as no tool raises, every step executes at most once. */
  lemma AtMostOnceWithoutRaise(p: Program, events: seq<Event>, i: nat)
    requires p.Valid() && i < |p.defs| && forall k :: 0 <= k < |events| ==> NothingRaises(events[k])
    ensures Runs(Run(Start(p), events), i) <= 1
  {
    RunWithoutRaise(p, events);
    ExecutedOnceUnlessRaised(p, events, i);
  }

  ghost predicate NothingWaits(s: State) {
    && (forall row :: 0 <= row < |s.approvals| ==> s.approvals[row].status != Rows.AwaitingDecision)
    && (forall i :: 0 <= i < |s.steps| ==> s.steps[i].status != StepNeedsApproval)
  }

  lemma NothingWaitsAtTheEnd(s: State)
    requires Good(s) && Terminal(s.status)
    ensures NothingWaits(s)
  {
    forall i | 0 <= i < |s.steps| ensures s.steps[i].status != StepNeedsApproval {
      assert StepOk(s, i);
    }
    forall row | 0 <= row < |s.approvals| ensures s.approvals[row].status != Rows.AwaitingDecision {
      LatestApprovalOf(s.approvals, row);
      assert StepOk(s, s.approvals[row].key);
    }
  }

  lemma TerminalAdvance(s: State, env: nat -> ToolEnv)
    requires WellFormed(s) && Terminal(s.status)
    ensures Advance(s, env).0 == s
  {
  }

  lemma TerminalApply(s: State, e: Event)
    requires WellFormed(s) && NothingWaits(s) && Terminal(s.status)
    ensures Apply(s, e).(tasks := s.tasks) == s && |Apply(s, e).tasks| == |s.tasks|
  {
    if e.AdvanceRun? {
      TerminalAdvance(s, e.env);
    }
  }

  /** A completed or failed run is never left: no later event changes its status, steps or approvals. */
  lemma {:induction false} TerminalRunsStay(p: Program, before: seq<Event>, after: seq<Event>)
    requires p.Valid() && Terminal(Run(Start(p), before).status)
    ensures var s := Run(Start(p), before);
            var s' := Run(s, after);
            s'.(tasks := s.tasks) == s && |s'.tasks| == |s.tasks|
  {
    var s := Run(Start(p), before);
    StartInv(p);
    RunGood(Start(p), before);
    if after != [] {
      var earlier := after[..|after| - 1];
      TerminalRunsStay(p, before, earlier);
      RunGood(s, earlier);
      NothingWaitsAtTheEnd(Run(s, earlier));
      TerminalApply(Run(s, earlier), after[|after| - 1]);
    }
  }

  lemma TickSettles(s: State, env: nat -> ToolEnv, env': nat -> ToolEnv)
    requires Inv(s) && Tick(s, env).1 != Again
    ensures var (s', outcome) := Tick(s, env);
            && (outcome.Return? ==> Tick(s', env').0 == s' && Tick(s', env').1.Return?)
            && (outcome.Raised? ==> RaisesAgain(s', env))
  {
    if s.index < |s.steps| {
      assert StepOk(s, s.index);
    }
    if Tick(s, env).1.Raised? {
      TickRaisesAgain(s, env);
    }
  }

  lemma TickRaisesAgain(s: State, env: nat -> ToolEnv)
    requires Inv(s) && Tick(s, env).1.Raised?
    ensures RaisesAgain(Tick(s, env).0, env)
  {
    var i, s' := s.index, Tick(s, env).0;
    if s.program.defs[i].ToolCall? && env(i).attached {
      var why := WhyRun(ApprovalOf(s, i), env(i).gate);
      assert s' == ExecutedInVain(s, i, why);
      assert Tick(s', env) == (ExecutedInVain(s', i, why), Raised);
      assert LoggedKeys(ExecutedInVain(s', i, why).executed) == LoggedKeys(s'.executed) + [i];
    }
  }

  /** Under the same conditions the advance raises again: the rows stay, and an attached tool executes once more. */
  ghost predicate RaisesAgain(s: State, env: nat -> ToolEnv)
    requires WellFormed(s)
  {
    var (s', outcome) := Advance(s, env);
    && outcome == Raised
    && s'.(executed := s.executed, raised := s.raised) == s
    && s.index < |s.steps|
    && var ran := if s.program.defs[s.index].ToolCall? && env(s.index).attached then [s.index] else [];
       s'.raised == s.raised + ran && LoggedKeys(s'.executed) == LoggedKeys(s.executed) + ran
  }

  lemma {:induction false} AdvanceSettles(s: State, env: nat -> ToolEnv, env': nat -> ToolEnv)
    requires Good(s)
    ensures var (s', outcome) := Advance(s, env);
            && (outcome.Return? ==> Advance(s', env').0 == s')
            && (outcome.Raised? ==> RaisesAgain(s', env))
    decreases Unfinished(s), |s.steps| - s.index
  {
    if Tick(s, env).1 == Again {
      TickInv(s, env);
      TickTrace(s, env);
      TickProgress(s, env);
      AdvanceSettles(Tick(s, env).0, env, env');
    } else {
      TickSettles(s, env, env');
    }
  }

  /**
    After an advance that returned, advancing again with no outside event in between changes nothing,
    even if rules, profiles and tools have changed meanwhile. After one that raised, advancing again
    leaves every row alone, but a tool that is attached and raises again has executed again.
   */
  lemma SecondAdvanceChangesNothing(p: Program, events: seq<Event>, env: nat -> ToolEnv, env': nat -> ToolEnv)
    requires p.Valid()
    ensures var (s, outcome) := Advance(Run(Start(p), events), env);
            && (outcome.Return? ==> Advance(s, env').0 == s)
            && (outcome.Raised? ==> RaisesAgain(s, env))
  {
    StartInv(p);
    RunGood(Start(p), events);
    AdvanceSettles(Run(Start(p), events), env, env');
  }

  /** A workflow of one tool step whose tool raises after its effect: the next delivery executes the step again. */
  lemma RaisedStepRunsTwice(gate: Gates.GateInput)
    requires Gates.WorkflowVerdict(gate, false) == Gates.Execute
    ensures var p := Program([ToolCall("coworker", "send_mail")], [None]);
            var raising := (i: nat) => ToolEnv(true, gate, Raises);
            var returning := (i: nat) => ToolEnv(true, gate, Returns(false));
            var s := Run(Start(p), [AdvanceRun(raising), AdvanceRun(returning)]);
            p.Valid() && s.status == Completed && Runs(s, 0) == 2
  {
    var p := Program([ToolCall("coworker", "send_mail")], [None]);
    var raising, returning := (i: nat) => ToolEnv(true, gate, Raises), (i: nat) => ToolEnv(true, gate, Returns(false));
    var first, both := [AdvanceRun(raising)], [AdvanceRun(raising), AdvanceRun(returning)];
    assert first[..0] == [] && both[..1] == first;
    var s0 := Start(p);
    var s1 := ExecutedInVain(s0, 0, ByGate(gate));
    assert Run(s0, []) == s0 && Run(s0, first) == s1;
    ToolStepCompletes(s1, gate, returning);
    TwoRuns(Advance(s1, returning).0, ByGate(gate));
    assert Run(s0, both) == Advance(s1, returning).0;
  }

  lemma ToolStepCompletes(s: State, gate: Gates.GateInput, env: nat -> ToolEnv)
    requires WellFormed(s) && |s.steps| == 1 && s.index == 0 && s.status == Running && s.steps[0].status == StepPending
    requires s.program.defs[0].ToolCall? && s.approvals == [] && env(0) == ToolEnv(true, gate, Returns(false))
    requires Gates.WorkflowVerdict(gate, false) == Gates.Execute
    ensures Advance(s, env).0 == CompleteAndMove(Executed(s, 0, ByGate(gate)), 0, 1).(status := Completed)
  {
    var s' := Tick(s, env).0;
    assert s' == CompleteAndMove(Executed(s, 0, ByGate(gate)), 0, 1);
    assert Tick(s', env) == (s'.(status := Completed), Return(false));
  }

  lemma TwoRuns(s: State, why: Why)
    requires s.executed == [Execution(0, why)] + [Execution(0, why)]
    ensures Runs(s, 0) == 2
  {
    assert LoggedKeys(s.executed) == [0] + [0];
    CountAppend<nat>([0], 0, 0);
    CountAppend<nat>([], 0, 0);
    assert [] + [0] == [0];
  }

  // ---------------------------------------------------------------- the engine itself

  class WorkflowRun {
    const program: Program
    var status: RunStatus
    var currentStepIndex: nat
    var steps: seq<Step>
    var tasks: seq<TaskRow>
    var approvals: seq<ApprovalRow<nat>>
    ghost var executed: seq<Execution<nat>>
    ghost var raised: seq<nat>
    ghost var completed: seq<nat>
    ghost var moves: nat

    ghost function Snapshot(): State
      reads this
    {
      State(program, status, currentStepIndex, steps, tasks, approvals, executed, raised, completed, moves)
    }

    constructor StartWorkflowRun(p: Program)
      requires p.Valid()
      ensures Snapshot() == Start(p)
    {
      program := p;
      status, currentStepIndex, tasks, approvals := Running, 0, [], [];
      executed, raised, completed, moves := [], [], [], 0;
      steps := [];
      new;
      for index := 0 to |p.defs|
        invariant program == p && status == Running && currentStepIndex == 0 && tasks == [] && approvals == []
        invariant executed == [] && raised == [] && completed == [] && moves == 0
        invariant |steps| == index
        invariant forall j :: 0 <= j < index ==> steps[j] == Step(StepPending, None, false)
      {
        steps := steps + [Step(StepPending, None, false)];
      }
    }

    method SaveStep(i: nat, newStatus: StepStatus)
      requires i < |steps|
      modifies this`steps, this`completed
      ensures steps == old(steps)[i := old(steps)[i].(status := newStatus)]
      ensures completed == if newStatus == StepCompleted then old(completed) + [i] else old(completed)
    {
      steps := steps[i := steps[i].(status := newStatus)];
      if newStatus == StepCompleted {
        completed := completed + [i];
      }
    }

    method SaveIndex(target: nat)
      modifies this`currentStepIndex, this`moves
      ensures currentStepIndex == target && moves == old(moves) + 1
    {
      currentStepIndex, moves := target, moves + 1;
    }

    /** `_fail_workflow_run`: the guarded update of the row, then the in-memory copy. */
    method FailWorkflowRun() returns (changed: bool)
      modifies this`status
      ensures status == Failed
      ensures changed <==> old(status) in {Running, NeedsApproval}
    {
      changed := status in [Running, NeedsApproval];
      status := Failed;
    }

    /** One call equals one `Advance` of the rows, recursion included. */
    method AdvanceWorkflowRun(env: nat -> ToolEnv) returns (outcome: Outcome)
      requires WellFormed(Snapshot())
      modifies this
      ensures (Snapshot(), outcome) == Advance(old(Snapshot()), env)
      decreases Unfinished(Snapshot()), |steps| - currentStepIndex
    {
      ghost var before := Snapshot();
      if status !in [Running, NeedsApproval] {
        return Return(false);
      }
      if currentStepIndex >= |steps| {
        status := Completed;
        return Return(false);
      }
      var i := currentStepIndex;
      var step := steps[i];
      if step.status == StepNeedsApproval {
        return Return(false);
      }
      if step.status == StepCompleted {
        SaveIndex(i + 1);
      } else {
        match program.defs[i]
        case Condition(_, _, ifTrue, ifFalse) =>
          var matched := program.matched[i];
          if matched.None? {
            return Raised;
          }
          SaveStep(i, StepCompleted);
          SaveIndex(if matched.value then ifTrue else ifFalse);
        case HumanCheckpoint =>
          SaveStep(i, StepNeedsApproval);
          status := NeedsApproval;
          return Return(false);
        case CoworkerAction(_) =>
          var stop := RunActionStep();
          if stop != Again {
            return stop;
          }
        case ToolCall(_, _) =>
          var stop := RunToolStep(env(i));
          if stop != Again {
            return stop;
          }
      }
      assert Tick(before, env) == (Snapshot(), Again);
      TickProgress(before, env);
      outcome := AdvanceWorkflowRun(env);
    }

    method RunActionStep() returns (outcome: Outcome)
      requires WellFormed(Snapshot()) && currentStepIndex < |steps|
      modifies this
      ensures (Snapshot(), outcome) == TickAction(old(Snapshot()))
    {
      var i := currentStepIndex;
      var step := steps[i];
      if step.task.None? {
        tasks := tasks + [TaskRow(i, Rows.Pending)];
        steps := steps[i := Step(StepInProgress, Some(|tasks| - 1), false)];
        return Return(true);
      }
      var task := tasks[step.task.value];
      if task.status in [Rows.Failed, Rows.Blocked] {
        SaveStep(i, StepFailed);
        var _ := FailWorkflowRun();
        return Return(false);
      }
      if task.status != Rows.Completed {
        return Return(true);
      }
      SaveStep(i, StepCompleted);
      SaveIndex(i + 1);
      return Again;
    }

    method RunToolStep(env: ToolEnv) returns (outcome: Outcome)
      requires WellFormed(Snapshot()) && currentStepIndex < |steps|
      modifies this
      ensures (Snapshot(), outcome) == TickTool(old(Snapshot()), env)
    {
      var i := currentStepIndex;
      if !env.attached {
        return Raised;
      }
      var approval := LatestApproval(approvals, i);
      if env.gate.org == Gates.Deny {
        SaveStep(i, StepFailed);
        var _ := FailWorkflowRun();
        return Return(false);
      }
      var decision := Gates.ResolveToolPermission(env.gate.risk, env.gate.profile, env.gate.floor);
      if env.gate.org == Gates.RequireApproval {
        decision := Gates.Approval;
      }
      if decision == Gates.Approval && approval.None? {
        approvals := approvals + [ApprovalRow(i, Rows.AwaitingDecision)];
        SaveStep(i, StepNeedsApproval);
        status := NeedsApproval;
        return Return(false);
      }
      if approval == Some(Rows.AwaitingDecision) {
        return Return(false);
      }
      if approval.Some? && approval != Some(Rows.Approved) {
        var _ := FailWorkflowRun();
        return Return(false);
      }
      outcome := ExecuteWorkflowTool(env.run, WhyRun(approval, env.gate));
    }

    /** The execution itself; an exception leaves every row as it was. */
    method ExecuteWorkflowTool(run: ToolRun, ghost why: Why) returns (outcome: Outcome)
      requires currentStepIndex < |steps|
      modifies this
      ensures (Snapshot(), outcome) == AfterExecution(old(Snapshot()), old(currentStepIndex), run, why)
    {
      var i := currentStepIndex;
      executed := executed + [Execution(i, why)];
      if run.Raises? {
        raised := raised + [i];
        return Raised;
      }
      steps := steps[i := steps[i].(output := true)];
      if run.error {
        SaveStep(i, StepFailed);
        var _ := FailWorkflowRun();
        return Return(false);
      }
      SaveStep(i, StepCompleted);
      SaveIndex(i + 1);
      return Again;
    }

    /** The chat view's decision of a step's approval row; deciding it twice is refused. */
    method DecideApprovalRequest(row: nat, approve: bool) returns (decided: bool)
      requires WellFormed(Snapshot())
      requires row < |approvals| && approvals[row].key < |steps|
      modifies this
      ensures decided <==> old(approvals)[row].status == Rows.AwaitingDecision
      ensures Snapshot() == DecideToolStep(old(Snapshot()), row, approve)
    {
      if approvals[row].status != Rows.AwaitingDecision {
        return false;
      }
      approvals := approvals[row := approvals[row].(status := if approve then Rows.Approved else Rows.Denied)];
      SaveStep(approvals[row].key, if approve then StepInProgress else StepFailed);
      status := if approve then Running else Failed;
      return true;
    }

    /** The checkpoint view; anything but a waiting checkpoint of this run is not found. */
    method DecideCheckpoint(step: nat, approve: bool) returns (found: bool)
      requires WellFormed(Snapshot())
      modifies this
      ensures found <==> old(step < |steps| && program.defs[step].HumanCheckpoint?
                             && steps[step].status == StepNeedsApproval)
      ensures Snapshot() == DecideCheckpointStep(old(Snapshot()), step, approve)
      ensures !found ==> Snapshot() == old(Snapshot())
    {
      if step >= |steps| || !program.defs[step].HumanCheckpoint? || steps[step].status != StepNeedsApproval {
        return false;
      }
      SaveStep(step, if approve then StepCompleted else StepFailed);
      if approve {
        status := Running;
        SaveIndex(currentStepIndex + 1);
      } else {
        status := Failed;
      }
      return true;
    }
  }
}
