/**
  Overlapping advances of one workflow run: each reads the run and its current step, and acts on what it read
  later, without a lock; other advances, tasks and people may come in between.
 */
module WorkflowRace {
  import opened Approvals
  import opened Base
  import opened Executions
  import opened Workflow
  import Gates
  import Rows
  import WorkflowLaws

  /** `drafts` holds, for each advance under way, the run as it was when the advance read it. */
  datatype Shared = Shared(run: State, drafts: map<nat, State>)

  /** An advance `w` reads, then acts once: it writes, returns, raises or starts over. */
  datatype RaceEvent =
    | Outside(e: Event)
    | Read(w: nat)
    | Act(w: nat, env: nat -> ToolEnv)

  /** What an advance has in hand: the run and step rows it read; approvals and tasks it looks up when it acts. */
  ghost predicate DraftOk(s: State, d: State) {
    WellFormed(s) && WellFormed(d) && d.program == s.program && |d.tasks| <= |s.tasks|
  }

  function Seen(s: State, d: State): State
    requires |s.steps| == |d.steps|
  {
    s.(status := d.status, index := d.index,
       steps := if d.index < |s.steps| then s.steps[d.index := d.steps[d.index]] else s.steps)
  }

  /** The advance has made step `i` wait for a person, and the run with it. */
  predicate Asked(seen: State, done: State, i: nat)
    requires |seen.steps| == |done.steps|
  {
    i < |seen.steps| && seen.steps[i].status != StepNeedsApproval && done.steps[i].status == StepNeedsApproval
  }

  /** The fields an advance has changed are saved over the rows; failing a run leaves one that has ended alone. */
  function Saved(s: State, seen: State, done: State): State
    requires |s.steps| == |seen.steps| == |done.steps|
  {
    var i := seen.index;
    done.(
      status := if (done.status == seen.status && !Asked(seen, done, i))
                   || (done.status == Failed && s.status !in {Running, NeedsApproval})
                then s.status else done.status,
      index := if done.moves == seen.moves then s.index else done.index,
      steps := if i < |s.steps| && done.steps[i] != seen.steps[i] then s.steps[i := done.steps[i]] else s.steps)
  }

  lemma SeenIsWellFormed(s: State, d: State)
    requires DraftOk(s, d)
    ensures WellFormed(Seen(s, d))
  {
  }

  ghost function ActOn(s: State, d: State, env: nat -> ToolEnv): State
    requires DraftOk(s, d)
  {
    SeenIsWellFormed(s, d);
    Saved(s, Seen(s, d), Tick(Seen(s, d), env).0)
  }

  /** A tick writes no step but the current one, and rows are only ever added to. */
  lemma TickFrames(s: State, env: nat -> ToolEnv)
    requires WellFormed(s)
    ensures var s' := Tick(s, env).0;
            && (forall j :: 0 <= j < |s.steps| && j != s.index ==> s'.steps[j] == s.steps[j])
            && |s.tasks| <= |s'.tasks| && (s'.moves == s.moves ==> s'.index == s.index)
            && (s.status !in {Running, NeedsApproval} ==> s' == s)
  {
  }

  lemma ActIsWellFormed(s: State, d: State, env: nat -> ToolEnv)
    requires DraftOk(s, d)
    ensures var s' := ActOn(s, d, env); WellFormed(s') && s'.program == s.program && |s.tasks| <= |s'.tasks|
  {
    SeenIsWellFormed(s, d);
    TickFrames(Seen(s, d), env);
  }

  ghost predicate Valid(s: Shared) {
    WellFormed(s.run) && forall w :: w in s.drafts ==> DraftOk(s.run, s.drafts[w])
  }

  ghost function ApplyRace(s: Shared, e: RaceEvent): (s': Shared)
    requires Valid(s)
    ensures Valid(s') && s'.run.program == s.run.program
  {
    match e
    case Outside(e) =>
      if e.AdvanceRun? then s else OutsideKeepsTasks(s.run, e); s.(run := Apply(s.run, e))
    case Read(w) => if w in s.drafts then s else s.(drafts := s.drafts[w := s.run])
    case Act(w, env) =>
      if w in s.drafts then
        ActIsWellFormed(s.run, s.drafts[w], env);
        Shared(ActOn(s.run, s.drafts[w], env), s.drafts - {w})
      else s
  }

  lemma OutsideKeepsTasks(s: State, e: Event)
    requires WellFormed(s) && !e.AdvanceRun?
    ensures |Apply(s, e).tasks| == |s.tasks|
  {
  }

  ghost function RunRace(p: Program, events: seq<RaceEvent>): (s: Shared)
    requires p.Valid()
    ensures Valid(s) && s.run.program == p
  {
    if events == [] then Shared(Start(p), map[])
    else ApplyRace(RunRace(p, events[..|events| - 1]), events[|events| - 1])
  }

  // ---------------------------------------------------------------- when an act is a tick

  /** The run and step rows still are as the advance read them. */
  predicate StillAsRead(s: State, d: State) {
    && |s.steps| == |d.steps| && s.status == d.status && s.index == d.index
    && (d.index < |s.steps| ==> s.steps[d.index] == d.steps[d.index])
  }

  lemma FreshActIsTick(s: State, d: State, env: nat -> ToolEnv)
    requires DraftOk(s, d) && StillAsRead(s, d)
    ensures ActOn(s, d, env) == Tick(s, env).0
  {
    assert Seen(s, d) == s;
    TickFrames(s, env);
    var done := Tick(s, env).0;
    assert Saved(s, s, done).steps == done.steps;
  }

  /** Every act of the run finds its rows as it read them. */
  ghost predicate ActsAreFresh(p: Program, events: seq<RaceEvent>)
    requires p.Valid()
  {
    events != [] ==>
      && ActsAreFresh(p, events[..|events| - 1])
      && var s, e := RunRace(p, events[..|events| - 1]), events[|events| - 1];
         e.Act? && e.w in s.drafts ==> StillAsRead(s.run, s.drafts[e.w])
  }

  lemma {:induction false} FreshRunsAreGood(p: Program, events: seq<RaceEvent>)
    requires p.Valid() && ActsAreFresh(p, events)
    ensures Good(RunRace(p, events).run)
  {
    StartInv(p);
    if events != [] {
      var s, e := RunRace(p, events[..|events| - 1]), events[|events| - 1];
      FreshRunsAreGood(p, events[..|events| - 1]);
      if e.Act? && e.w in s.drafts {
        FreshActIsTick(s.run, s.drafts[e.w], e.env);
        TickInv(s.run, e.env);
        TickTrace(s.run, e.env);
      } else if e.Outside? && !e.e.AdvanceRun? {
        ApplyGood(s.run, e.e);
      }
    }
  }

  /**
    Advances that overlap without acting on stale rows keep every promise of a run: it stays on its route, and a step
    executes once for every time it raised, and once more if its row holds the output.
   */
  lemma FreshAdvancesAreSafe(p: Program, events: seq<RaceEvent>, i: nat)
    requires p.Valid() && ActsAreFresh(p, events) && i < |p.defs|
    ensures var s := RunRace(p, events).run;
            && Safe(s) && StartsOnce(s) && s.completed <= p.Route()
            && Runs(s, i) == RaisedRuns(s, i) + if s.steps[i].output then 1 else 0
  {
    FreshRunsAreGood(p, events);
    var s := RunRace(p, events).run;
    InvIsSafe(s);
    InvStartsOnce(s);
    RunsAreCounted(s, i);
  }

  // ---------------------------------------------------------------- exactly when a step executes twice

  /** In such a run every draft is a state the run was in. */
  lemma {:induction false} DraftsAreGood(p: Program, events: seq<RaceEvent>, w: nat)
    requires p.Valid() && ActsAreFresh(p, events) && w in RunRace(p, events).drafts
    ensures Good(RunRace(p, events).drafts[w])
  {
    var earlier, e := events[..|events| - 1], events[|events| - 1];
    DraftOrigin(RunRace(p, earlier), e, w);
    if w in RunRace(p, earlier).drafts {
      DraftsAreGood(p, earlier, w);
    } else {
      FreshRunsAreGood(p, earlier);
    }
  }

  lemma DraftOrigin(s: Shared, e: RaceEvent, w: nat)
    requires Valid(s) && w in ApplyRace(s, e).drafts
    ensures ApplyRace(s, e).drafts[w] == if w in s.drafts then s.drafts[w] else s.run
  {
  }

  ghost predicate Executes(s: State, d: State, env: nat -> ToolEnv)
    requires DraftOk(s, d)
  {
    ActOn(s, d, env).executed != s.executed
  }

  /** An act that executes does so for the step it read, which it found neither completed nor failed. */
  lemma ExecutesCurrent(s: State, d: State, env: nat -> ToolEnv)
    requires DraftOk(s, d) && Inv(d) && Executes(s, d, env)
    ensures d.index < |d.steps| && !d.steps[d.index].output
    ensures exists why :: ActOn(s, d, env).executed == s.executed + [Execution(d.index, why)]
    ensures ActOn(s, d, env).raised == if env(d.index).run.Raises? then s.raised + [d.index] else s.raised
  {
    SeenIsWellFormed(s, d);
    assert d.index < |d.steps|;
    assert StepOk(d, d.index);
    var i := d.index;
    assert ActOn(s, d, env).executed == s.executed + [Execution(i, WhyRun(ApprovalOf(s, i), env(i).gate))];
  }

  /**
    After acts on fresh rows only, an advance whose tool does not raise executes its step a second time exactly
    when the step's output was saved after the advance read the step.
   */
  lemma ExecutedTwiceIffOverlooked(p: Program, events: seq<RaceEvent>, w: nat, env: nat -> ToolEnv)
    requires p.Valid() && ActsAreFresh(p, events) && w in RunRace(p, events).drafts
    ensures var s, d := RunRace(p, events).run, RunRace(p, events).drafts[w];
            Executes(s, d, env) && !env(d.index).run.Raises? ==>
              && d.index < |s.steps| && !d.steps[d.index].output
              && Runs(ActOn(s, d, env), d.index) ==
                 RaisedRuns(ActOn(s, d, env), d.index) + if s.steps[d.index].output then 2 else 1
  {
    var s, d := RunRace(p, events).run, RunRace(p, events).drafts[w];
    FreshRunsAreGood(p, events);
    DraftsAreGood(p, events, w);
    if Executes(s, d, env) && !env(d.index).run.Raises? {
      ExecutesCurrent(s, d, env);
      RunsAreCounted(s, d.index);
      var why :| ActOn(s, d, env).executed == s.executed + [Execution(d.index, why)];
      OneMoreRun(s, ActOn(s, d, env), d.index, why);
    }
  }

  lemma OneMoreRun(s: State, s': State, i: nat, why: Why)
    requires s'.executed == s.executed + [Execution(i, why)] && s'.raised == s.raised
    ensures Runs(s', i) == Runs(s, i) + 1 && RaisedRuns(s', i) == RaisedRuns(s, i)
  {
    RunsAppend(s, s', i, why, i);
  }

  // ---------------------------------------------------------------- what an act on stale rows writes

  /**
    Whatever has happened since an advance read its rows: it writes no step but the one it read; it moves the index
    only past that step, when it completes it or has read it as completed; and it writes the run's status only to
    complete a run it has read at its end, to wait together with that step, or to fail a run that is still active.
   */
  ghost predicate WritesInPlace(s: State, d: State, s': State)
    requires s.program.Valid() && s'.program == s.program
    requires |s.steps| == |d.steps| == |s'.steps| == |s.program.defs|
  {
    var i := d.index;
    && (forall j :: 0 <= j < |s.steps| && j != i ==> s'.steps[j] == s.steps[j])
    && (s'.completed == s.completed || (i < |s.steps| && s'.completed == s.completed + [i]))
    && (if s'.completed != s.completed then
          WorkflowLaws.LeadsTo(s.program, i, s'.index) && s'.steps[i].status == StepCompleted
        else if i < |s.steps| && s'.moves > s.moves then d.steps[i].status == StepCompleted && s'.index == i + 1
        else s'.index == s.index)
    && (s'.status != s.status ==>
          || (s'.status == Completed && i >= |s.steps|)
          || (s'.status == NeedsApproval && i < |s.steps| && s'.steps[i].status == StepNeedsApproval)
          || (s'.status == Failed && s.status in {Running, NeedsApproval}))
  }

  /** One tick either completes the current step and moves on, or passes a completed one, or moves nothing. */
  lemma TickMoves(s: State, env: nat -> ToolEnv)
    requires WellFormed(s)
    ensures var s', i := Tick(s, env).0, s.index;
            && |s'.steps| == |s.steps|
            && (if s'.completed != s.completed then
                  && i < |s.steps| && s'.completed == s.completed + [i] && s'.moves == s.moves + 1
                  && WorkflowLaws.LeadsTo(s.program, i, s'.index)
                  && s.steps[i].status != StepCompleted && s'.steps[i].status == StepCompleted
                else if s'.moves != s.moves then
                  i < |s.steps| && s.steps[i].status == StepCompleted && s'.index == i + 1 && s'.moves == s.moves + 1
                else s'.index == s.index)
            && (s'.status != s.status ==>
                  || (s'.status == Completed && i >= |s.steps|)
                  || (s'.status == NeedsApproval && i < |s.steps| && s'.steps[i].status == StepNeedsApproval)
                  || s'.status == Failed)
  {
  }

  lemma StaleActWritesInPlace(s: State, d: State, env: nat -> ToolEnv)
    requires DraftOk(s, d)
    ensures WellFormed(ActOn(s, d, env)) && ActOn(s, d, env).program == s.program
    ensures WritesInPlace(s, d, ActOn(s, d, env))
  {
    ActIsWellFormed(s, d, env);
    TickFrames(Seen(s, d), env);
    TickMoves(Seen(s, d), env);
  }

  /** The advance makes the current step wait for a person. */
  ghost predicate AsksPerson(s: State, env: nat -> ToolEnv)
    requires WellFormed(s)
  {
    && s.status in {Running, NeedsApproval} && s.index < |s.steps|
    && s.steps[s.index].status != StepNeedsApproval && s.steps[s.index].status != StepCompleted
    && match s.program.defs[s.index]
       case HumanCheckpoint => true
       case ToolCall(_, _) =>
         && env(s.index).attached && LatestApproval(s.approvals, s.index).None?
         && env(s.index).gate.org != Gates.Deny && !Gates.Unattended(env(s.index).gate.(standing := false))
       case _ => false
  }

  /** The same of an advance that acts on `s` with the rows it read in `d`. */
  ghost predicate AsksWhenActing(s: State, d: State, env: nat -> ToolEnv)
    requires DraftOk(s, d)
  {
    SeenIsWellFormed(s, d);
    AsksPerson(Seen(s, d), env)
  }

  lemma ToolAsksIff(s: State, env: ToolEnv)
    requires WellFormed(s) && s.index < |s.steps| && s.steps[s.index].status != StepNeedsApproval
    ensures var s' := TickTool(s, env).0;
            var asks := && env.attached && LatestApproval(s.approvals, s.index).None?
                        && env.gate.org != Gates.Deny && !Gates.Unattended(env.gate.(standing := false));
            && |s'.steps| == |s.steps|
            && (s'.steps[s.index].status == StepNeedsApproval <==> asks)
            && (asks ==> s'.status == NeedsApproval)
  {
    Gates.UnattendedIffGatesExecute(env.gate);
  }

  lemma TickAsksIff(s: State, env: nat -> ToolEnv)
    requires WellFormed(s)
    ensures var s' := Tick(s, env).0;
            && |s'.steps| == |s.steps|
            && (Asked(s, s', s.index) <==> AsksPerson(s, env))
            && (AsksPerson(s, env) ==> s'.status == NeedsApproval)
            && (s.status in {Running, NeedsApproval} && s.index >= |s.steps| ==> s'.status == Completed)
  {
    if s.index < |s.steps| && s.steps[s.index].status != StepNeedsApproval {
      ToolAsksIff(s, env(s.index));
    }
  }

  /**
    A run that has failed or been cancelled stays so under an advance that read it earlier, except exactly when the
    advance finds a person to ask, or had read the run at its end.
   */
  lemma EndedRunReopensIff(s: State, d: State, env: nat -> ToolEnv)
    requires DraftOk(s, d) && s.status in {Failed, Cancelled}
    ensures ActOn(s, d, env).status != s.status <==>
            AsksWhenActing(s, d, env) || (d.status in {Running, NeedsApproval} && d.index >= |d.steps|)
    ensures AsksWhenActing(s, d, env) ==> ActOn(s, d, env).status == NeedsApproval
  {
    SeenIsWellFormed(s, d);
    var seen := Seen(s, d);
    TickMoves(seen, env);
    TickAsksIff(seen, env);
    StaleActWritesInPlace(s, d, env);
    assert s.status !in {Running, NeedsApproval};
  }

  // ---------------------------------------------------------------- how it happens

  const MAIL := Program([ToolCall("coworker", "send_mail")], [None])

  function Returning(gate: Gates.GateInput): nat -> ToolEnv {
    (i: nat) => ToolEnv(true, gate, Returns(false))
  }

  /** Two deliveries of one run overlap: both read the pending step before either has acted. */
  function Overlap(gate: Gates.GateInput): seq<RaceEvent> {
    [Read(0), Read(1), Act(0, Returning(gate)), Act(1, Returning(gate))]
  }

  function Sent(gate: Gates.GateInput, times: nat): State {
    State(MAIL, Running, 1, [Step(StepCompleted, None, true)], [], [],
          seq(times, _ => Execution(0, ByGate(gate))), [], seq(times, _ => 0), times)
  }

  lemma FirstActSends(gate: Gates.GateInput)
    requires Gates.WorkflowVerdict(gate, false) == Gates.Execute && MAIL.Valid()
    ensures DraftOk(Start(MAIL), Start(MAIL)) && ActOn(Start(MAIL), Start(MAIL), Returning(gate)) == Sent(gate, 1)
  {
    var s := Start(MAIL);
    assert s.steps == [Step(StepPending, None, false)];
    FreshActIsTick(s, s, Returning(gate));
    assert Tick(s, Returning(gate)).0.steps == [Step(StepCompleted, None, true)];
    assert Tick(s, Returning(gate)).0 == Sent(gate, 1);
  }

  lemma SecondActSends(gate: Gates.GateInput)
    requires Gates.WorkflowVerdict(gate, false) == Gates.Execute && MAIL.Valid()
    ensures DraftOk(Sent(gate, 1), Start(MAIL)) && ActOn(Sent(gate, 1), Start(MAIL), Returning(gate)) == Sent(gate, 2)
  {
    var s, d := Sent(gate, 1), Start(MAIL);
    var seen := Seen(s, d);
    assert seen.steps == [Step(StepPending, None, false)] && seen.index == 0;
    var done := Tick(seen, Returning(gate)).0;
    assert done.steps == [Step(StepCompleted, None, true)] && done.moves == 2;
    assert done.executed == Sent(gate, 2).executed && done.completed == Sent(gate, 2).completed;
    assert Saved(s, seen, done) == Sent(gate, 2);
  }

  lemma RaceStep(p: Program, events: seq<RaceEvent>, e: RaceEvent)
    requires p.Valid()
    ensures RunRace(p, events + [e]) == ApplyRace(RunRace(p, events), e)
  {
    assert (events + [e])[..|events|] == events;
  }

  lemma BothRead(s: State)
    requires WellFormed(s)
    ensures ApplyRace(ApplyRace(Shared(s, map[]), Read(0)), Read(1)) == Shared(s, map[0 := s, 1 := s])
  {
  }

  lemma BothAct(gate: Gates.GateInput)
    requires Gates.WorkflowVerdict(gate, false) == Gates.Execute && MAIL.Valid()
    ensures var s := Shared(Start(MAIL), map[0 := Start(MAIL), 1 := Start(MAIL)]);
            Valid(s) && ApplyRace(ApplyRace(s, Act(0, Returning(gate))), Act(1, Returning(gate))).run == Sent(gate, 2)
  {
    var s := Shared(Start(MAIL), map[0 := Start(MAIL), 1 := Start(MAIL)]);
    FirstActSends(gate);
    SecondActSends(gate);
    var s1 := ApplyRace(s, Act(0, Returning(gate)));
    assert s1.run == Sent(gate, 1) && s1.drafts == map[1 := Start(MAIL)];
  }

  /** So it does happen, with no exception anywhere: the tool of a single step executes twice. */
  lemma OverlappingAdvancesRunTwice(gate: Gates.GateInput)
    requires Gates.WorkflowVerdict(gate, false) == Gates.Execute
    ensures MAIL.Valid()
    ensures var s := RunRace(MAIL, Overlap(gate)).run; Runs(s, 0) == 2 && RaisedRuns(s, 0) == 0
  {
    assert MAIL.Valid();
    RaceFour(MAIL, Read(0), Read(1), Act(0, Returning(gate)), Act(1, Returning(gate)));
    BothRead(Start(MAIL));
    BothAct(gate);
    assert Sent(gate, 2).executed == [Execution(0, ByGate(gate))] + [Execution(0, ByGate(gate))];
    TwoRuns(Sent(gate, 2), ByGate(gate));
  }

  lemma RaceFour(p: Program, e0: RaceEvent, e1: RaceEvent, e2: RaceEvent, e3: RaceEvent)
    requires p.Valid()
    ensures RunRace(p, [e0, e1, e2, e3]) ==
            ApplyRace(ApplyRace(ApplyRace(ApplyRace(Shared(Start(p), map[]), e0), e1), e2), e3)
  {
    RaceTwo(p, [], e0, e1);
    RaceTwo(p, [e0, e1], e2, e3);
    assert [] + [e0, e1] == [e0, e1] && [e0, e1] + [e2, e3] == [e0, e1, e2, e3];
  }

  lemma RaceTwo(p: Program, events: seq<RaceEvent>, e: RaceEvent, f: RaceEvent)
    requires p.Valid()
    ensures RunRace(p, events + [e, f]) == ApplyRace(ApplyRace(RunRace(p, events), e), f)
  {
    RaceStep(p, events, e);
    RaceStep(p, events + [e], f);
    assert events + [e] + [f] == events + [e, f];
  }

  const GATED := Program([HumanCheckpoint], [None])

  function Waiting(status: RunStatus, step: StepStatus): State {
    State(GATED, status, 0, [Step(step, None, false)], [], [], [], [], [], 0)
  }

  /** Two deliveries read the pending checkpoint; a person turns it down after the first and before the second acts. */
  function Refused(env: nat -> ToolEnv): seq<RaceEvent> {
    [Read(0), Read(1), Act(0, env), Outside(DecideCheckpoint(0, false))]
  }

  lemma CheckpointAsks(s: State, env: nat -> ToolEnv)
    requires GATED.Valid() && s in {Start(GATED), Waiting(Failed, StepFailed)}
    ensures DraftOk(s, Start(GATED)) && ActOn(s, Start(GATED), env) == Waiting(NeedsApproval, StepNeedsApproval)
  {
    var d := Start(GATED);
    assert d.steps == [Step(StepPending, None, false)];
    var seen := Seen(s, d);
    assert seen.steps == [Step(StepPending, None, false)];
    var done := Tick(seen, env).0;
    assert done.steps == [Step(StepNeedsApproval, None, false)];
  }

  lemma RefusedRun(env: nat -> ToolEnv)
    requires GATED.Valid()
    ensures RunRace(GATED, Refused(env)) == Shared(Waiting(Failed, StepFailed), map[1 := Start(GATED)])
  {
    var e := DecideCheckpoint(0, false);
    RaceFour(GATED, Read(0), Read(1), Act(0, env), Outside(e));
    BothRead(Start(GATED));
    CheckpointAsks(Start(GATED), env);
    var s := ApplyRace(Shared(Start(GATED), map[0 := Start(GATED), 1 := Start(GATED)]), Act(0, env));
    assert s == Shared(Waiting(NeedsApproval, StepNeedsApproval), map[1 := Start(GATED)]);
    assert Apply(Waiting(NeedsApproval, StepNeedsApproval), e) == Waiting(Failed, StepFailed);
  }

  /** So it does happen: a run that a person has ended waits again for the same checkpoint. */
  lemma StaleAdvanceReopensRun(env: nat -> ToolEnv)
    ensures GATED.Valid()
    ensures RunRace(GATED, Refused(env)).run.status == Failed
    ensures RunRace(GATED, Refused(env) + [Act(1, env)]).run.status == NeedsApproval
  {
    assert GATED.Valid();
    RefusedRun(env);
    RaceStep(GATED, Refused(env), Act(1, env));
    CheckpointAsks(Waiting(Failed, StepFailed), env);
  }
}
