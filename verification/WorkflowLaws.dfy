/**
  What a workflow run does, said in the terms of its definition and of the events it has seen: where each step leads,
  why a step completed or executed, what a person's decision brings about, and why a run failed.
 */
module WorkflowLaws {
  import opened Approvals
  import opened Base
  import opened Executions
  import opened Workflow
  import Gates
  import Rows

  // ---------------------------------------------------------------- where each step leads

  ghost predicate Evaluable(p: Program, i: nat)
    requires p.Valid() && i < |p.defs|
  {
    p.defs[i].Condition? ==> p.matched[i].Some?
  }

  /** A met condition leads to its first target, an unmet one to its second, every other step to the one after it. */
  ghost predicate LeadsTo(p: Program, i: nat, target: nat)
    requires p.Valid() && i < |p.defs|
  {
    if p.defs[i].Condition? then
      || (p.matched[i] == Some(true) && target == p.defs[i].ifTrue)
      || (p.matched[i] == Some(false) && target == p.defs[i].ifFalse)
    else target == i + 1
  }

  /** Where control goes after the steps met so far; it starts at the first step. */
  ghost predicate HeadsFor(p: Program, met: seq<nat>, target: nat)
    requires p.Valid()
  {
    if met == [] then target == 0 else met[|met| - 1] < |p.defs| && LeadsTo(p, met[|met| - 1], target)
  }

  /** The least step at or after the target that has not been met. */
  ghost predicate FirstOpen(p: Program, met: seq<nat>, target: nat, j: nat) {
    target <= j < |p.defs| && j !in met && forall m: nat :: target <= m < j ==> m in met
  }

  ghost predicate ComesNext(p: Program, met: seq<nat>, j: nat)
    requires p.Valid()
  {
    exists target: nat :: HeadsFor(p, met, target) && FirstOpen(p, met, target, j)
  }

  /** Every step met is the one to come next, and can be evaluated. */
  ghost predicate Lawful(p: Program, met: seq<nat>)
    requires p.Valid()
  {
    forall k :: 0 <= k < |met| ==> LawfulAt(p, met, k)
  }

  ghost predicate LawfulAt(p: Program, met: seq<nat>, k: nat)
    requires p.Valid() && k < |met|
  {
    met[k] < |p.defs| && ComesNext(p, met[..k], met[k]) && Evaluable(p, met[k])
  }

  /** Nothing comes next, or a condition that can not be evaluated. */
  ghost predicate EndsThere(p: Program, met: seq<nat>)
    requires p.Valid()
  {
    forall j: nat :: ComesNext(p, met, j) ==> j < |p.defs| && !Evaluable(p, j)
  }

  lemma LawfulAppend(p: Program, met: seq<nat>, j: nat)
    requires p.Valid() && Lawful(p, met)
    requires j < |p.defs| && ComesNext(p, met, j) && Evaluable(p, j)
    ensures Lawful(p, met + [j])
  {
    var more := met + [j];
    forall k | 0 <= k < |more| ensures LawfulAt(p, more, k) {
      assert more[..k] == met[..k];
      if k == |met| {
        assert met[..k] == met;
      } else {
        assert LawfulAt(p, met, k);
      }
    }
  }

  /** The rest of the route, from step `i` with the steps `met` behind it. */
  lemma {:induction false} RestIsLawful(p: Program, met: seq<nat>, done: set<nat>, target: nat, i: nat)
    requires p.Valid() && Lawful(p, met) && HeadsFor(p, met, target) && forall m :: m in done <==> m in met
    requires target <= i && forall m: nat :: target <= m < i && m < |p.defs| ==> m in met
    ensures var whole := met + p.RouteFrom(i, done); Lawful(p, whole) && EndsThere(p, whole)
    decreases p.Open(done), |p.defs| - i
  {
    if i >= |p.defs| {
      assert met + p.RouteFrom(i, done) == met;
      NothingOpen(p, met, target);
    } else if i in done {
      RestIsLawful(p, met, done, target, i + 1);
    } else {
      assert FirstOpen(p, met, target, i);
      if p.Stuck(i) {
        assert met + p.RouteFrom(i, done) == met;
        OnlyOneComesNext(p, met, i);
      } else {
        StepIsLawful(p, met, done, target, i);
      }
    }
  }

  lemma {:induction false} StepIsLawful(p: Program, met: seq<nat>, done: set<nat>, target: nat, i: nat)
    requires p.Valid() && Lawful(p, met) && HeadsFor(p, met, target) && forall m :: m in done <==> m in met
    requires FirstOpen(p, met, target, i) && !p.Stuck(i)
    ensures var whole := met + p.RouteFrom(i, done); Lawful(p, whole) && EndsThere(p, whole)
    decreases p.Open(done), |p.defs| - i, 0
  {
    var next := p.Next(i);
    var more, rest := met + [i], p.RouteFrom(next, done + {i});
    assert met + p.RouteFrom(i, done) == more + rest by {
      assert p.RouteFrom(i, done) == [i] + rest;
    }
    LawfulAppend(p, met, i);
    assert i in p.Open(done) && i !in p.Open(done + {i});
    assert LeadsTo(p, i, next);
    RestIsLawful(p, more, done + {i}, next, next);
  }

  lemma NothingOpen(p: Program, met: seq<nat>, target: nat)
    requires p.Valid() && HeadsFor(p, met, target)
    requires forall m: nat :: target <= m < |p.defs| ==> m in met
    ensures EndsThere(p, met)
  {
  }

  lemma OnlyOneComesNext(p: Program, met: seq<nat>, i: nat)
    requires p.Valid() && ComesNext(p, met, i)
    ensures forall j: nat :: ComesNext(p, met, j) ==> j == i
  {
  }

  /** The interpreter's route obeys the law of the definition, from its first step to its end. */
  lemma RouteIsLawful(p: Program)
    requires p.Valid()
    ensures Lawful(p, p.Route()) && EndsThere(p, p.Route())
  {
    RestIsLawful(p, [], {}, 0, 0);
    assert [] + p.Route() == p.Route();
  }

  /** And the law leaves no choice: what obeys it to its end is the route. */
  lemma {:induction false} LawDeterminesRoute(p: Program, met: seq<nat>)
    requires p.Valid() && Lawful(p, met) && EndsThere(p, met)
    ensures met == p.Route()
  {
    RouteIsLawful(p);
    LawfulAgree(p, met, p.Route());
    LawfulAgree(p, p.Route(), met);
  }

  lemma NothingGoesOn(p: Program, ended: seq<nat>, met: seq<nat>)
    requires p.Valid() && EndsThere(p, ended) && met != [] && ended == met[..|met| - 1]
    ensures !Lawful(p, met)
  {
    assert LawfulAt(p, met, |met| - 1) ==> ComesNext(p, ended, met[|met| - 1]);
  }

  /** No lawful sequence goes on where another has ended, so the ended one contains it as a prefix. */
  lemma {:induction false} LawfulAgree(p: Program, met: seq<nat>, ended: seq<nat>)
    requires p.Valid() && Lawful(p, met) && Lawful(p, ended) && EndsThere(p, ended)
    ensures met <= ended
    decreases |met|
  {
    if met != [] {
      var n := |met| - 1;
      PrefixIsLawful(p, met, n);
      LawfulAgree(p, met[..n], ended);
      assert ended[..n] == met[..n] && LawfulAt(p, met, n);
      if n == |ended| {
        NothingGoesOn(p, ended, met);
      } else {
        assert LawfulAt(p, ended, n);
        OnlyOneComesNext(p, met[..n], met[n]);
      }
    }
  }

  // ---------------------------------------------------------------- the law in every run

  /** Between the step control heads for and the current index everything is completed. */
  ghost predicate OnItsWay(s: State)
    requires WellFormed(s)
  {
    exists target: nat :: HeadsFor(s.program, s.completed, target) && target <= s.index
                     && forall m: nat :: target <= m < s.index && m < |s.steps| ==> m in s.completed
  }

  lemma CompletingOnItsWay(s: State, s': State)
    requires WellFormed(s) && WellFormed(s') && s.index < |s.steps| && !s.program.Stuck(s.index)
    requires SameTrace(CompleteAndMove(s, s.index, s.program.Next(s.index)), s')
    ensures OnItsWay(s')
  {
    assert LeadsTo(s.program, s.index, s.program.Next(s.index));
    assert s'.completed[|s'.completed| - 1] == s.index;
    assert HeadsFor(s'.program, s'.completed, s.program.Next(s.index));
  }

  lemma PassingOnItsWay(s: State)
    requires WellFormed(s) && HistoryOk(s) && OnItsWay(s)
    requires s.index < |s.steps| && s.steps[s.index].status == StepCompleted
    ensures OnItsWay(s.(index := s.index + 1, moves := s.moves + 1))
  {
    var target: nat :| HeadsFor(s.program, s.completed, target) && target <= s.index
                  && forall m: nat :: target <= m < s.index && m < |s.steps| ==> m in s.completed;
    assert HeadsFor(s.program, s.completed, target) && target <= s.index + 1;
  }

  lemma TickOnItsWay(s: State, env: nat -> ToolEnv)
    requires WellFormed(s) && HistoryOk(s) && OnItsWay(s)
    ensures OnItsWay(Tick(s, env).0)
  {
    var s' := Tick(s, env).0;
    TickShape(s, env);
    if SameTrace(s, s') {
    } else if s'.completed == s.completed {
      PassingOnItsWay(s);
    } else {
      CompletingOnItsWay(s, s');
    }
  }

  lemma {:induction false} AdvanceOnItsWay(s: State, env: nat -> ToolEnv)
    requires Good(s) && OnItsWay(s)
    ensures OnItsWay(Advance(s, env).0)
    decreases Unfinished(s), |s.steps| - s.index
  {
    TickOnItsWay(s, env);
    if Tick(s, env).1 == Again {
      TickProgress(s, env);
      TickInv(s, env);
      TickTrace(s, env);
      AdvanceOnItsWay(Tick(s, env).0, env);
    }
  }

  lemma CheckpointOnItsWay(s: State, step: nat, approve: bool)
    requires Good(s) && OnItsWay(s)
    ensures OnItsWay(DecideCheckpointStep(s, step, approve))
  {
    if step < |s.steps| && s.program.defs[step].HumanCheckpoint? && s.steps[step].status == StepNeedsApproval {
      DecideCheckpointInv(s, step, approve);
      if approve {
        CompletingOnItsWay(s, DecideCheckpointStep(s, step, approve));
      }
    }
  }

  lemma EventOnItsWay(s: State, e: Event)
    requires Good(s) && OnItsWay(s)
    ensures OnItsWay(Apply(s, e))
  {
    if e.AdvanceRun? {
      AdvanceOnItsWay(s, e.env);
    } else if e.DecideCheckpoint? {
      CheckpointOnItsWay(s, e.step, e.approve);
    } else {
      assert SameTrace(s, Apply(s, e));
    }
  }

  lemma {:induction false} RunOnItsWay(p: Program, events: seq<Event>)
    requires p.Valid()
    ensures OnItsWay(Run(Start(p), events))
  {
    if events == [] {
      assert HeadsFor(p, [], 0);
    } else {
      RunOnItsWay(p, events[..|events| - 1]);
      StartInv(p);
      RunGood(Start(p), events[..|events| - 1]);
      EventOnItsWay(Run(Start(p), events[..|events| - 1]), events[|events| - 1]);
    }
  }

  lemma PrefixIsLawful(p: Program, met: seq<nat>, n: nat)
    requires p.Valid() && Lawful(p, met) && n <= |met|
    ensures Lawful(p, met[..n])
  {
    forall k | 0 <= k < n ensures LawfulAt(p, met[..n], k) {
      assert LawfulAt(p, met, k) && met[..n][..k] == met[..k];
    }
  }

  /**
    In every run the completed steps obey the law of the definition, the current step is reached from the last of
    them, and a completed run has left nothing to come next.
   */
  lemma CompletedIsLawful(p: Program, events: seq<Event>)
    requires p.Valid()
    ensures var s := Run(Start(p), events);
            && Lawful(p, s.completed)
            && (s.index < |p.defs| && s.index !in s.completed ==> ComesNext(p, s.completed, s.index))
            && (s.status == Completed ==> forall j: nat :: !ComesNext(p, s.completed, j))
  {
    var s := Run(Start(p), events);
    EngineRefinesRoute(p, events);
    RouteIsLawful(p);
    PrefixIsLawful(p, p.Route(), |s.completed|);
    assert p.Route()[..|s.completed|] == s.completed;
    RunOnItsWay(p, events);
    StartInv(p);
    RunGood(Start(p), events);
    WayLeadsToIndex(s);
  }

  lemma WayLeadsToIndex(s: State)
    requires WellFormed(s) && RunOk(s) && OnItsWay(s)
    ensures s.index < |s.steps| && s.index !in s.completed ==> ComesNext(s.program, s.completed, s.index)
    ensures s.status == Completed ==> forall j: nat :: !ComesNext(s.program, s.completed, j)
  {
    var target: nat :| HeadsFor(s.program, s.completed, target) && target <= s.index
                       && forall m: nat :: target <= m < s.index && m < |s.steps| ==> m in s.completed;
    if s.index < |s.steps| && s.index !in s.completed {
      assert FirstOpen(s.program, s.completed, target, s.index);
    }
  }

  // ---------------------------------------------------------------- why steps complete and execute

  /** The run before its event `k`. */
  ghost function Before(p: Program, events: seq<Event>, k: nat): (s: State)
    requires p.Valid() && k <= |events|
    ensures WellFormed(s) && s.program == p
  {
    Run(Start(p), events[..k])
  }

  /** The run after its last event, and before it. */
  lemma LastEvent(p: Program, events: seq<Event>)
    requires p.Valid() && events != []
    ensures var n := |events| - 1;
            && Before(p, events, n) == Run(Start(p), events[..n])
            && Run(Start(p), events) == Apply(Before(p, events, n), events[n])
  {
  }

  lemma BeforeSame(p: Program, events: seq<Event>, k: nat)
    requires p.Valid() && k < |events|
    ensures Before(p, events, k) == Before(p, events[..|events| - 1], k)
  {
    assert events[..|events| - 1][..k] == events[..k];
  }

  /** At event `k` a person approved the tool call of step `i`, which waited for that. */
  ghost predicate ApprovedAt(p: Program, events: seq<Event>, i: nat, k: nat)
    requires p.Valid() && k < |events|
  {
    && events[k].DecideTool? && events[k].approve && events[k].row < |Before(p, events, k).approvals|
    && Before(p, events, k).approvals[events[k].row] == ApprovalRow(i, Rows.AwaitingDecision)
  }

  /** At event `k` a person passed the checkpoint `i`, which waited for that. */
  ghost predicate PassedAt(p: Program, events: seq<Event>, i: nat, k: nat)
    requires p.Valid() && i < |p.defs| && k < |events|
  {
    events[k] == DecideCheckpoint(i, true) && Before(p, events, k).steps[i].status == StepNeedsApproval
  }

  /** At event `k` an advance found the tool of step `i` attached, and it returned without an error. */
  predicate ReturnedAt(events: seq<Event>, i: nat, k: nat)
    requires k < |events|
  {
    events[k].AdvanceRun? && events[k].env(i).attached && events[k].env(i).run == Returns(false)
  }

  ghost predicate CompletedForReason(p: Program, events: seq<Event>, i: nat)
    requires p.Valid() && i < |p.defs|
  {
    && (p.defs[i].HumanCheckpoint? ==> exists k :: 0 <= k < |events| && PassedAt(p, events, i, k))
    && (p.defs[i].ToolCall? ==> exists k :: 0 <= k < |events| && ReturnedAt(events, i, k))
  }

  /** What an advance completes are no checkpoints, and tools that it has found attached and that returned well. */
  lemma {:induction false} AdvanceCompletes(s: State, env: nat -> ToolEnv, i: nat)
    requires WellFormed(s) && i in Advance(s, env).0.completed && i !in s.completed
    ensures i < |s.program.defs| && !s.program.defs[i].HumanCheckpoint?
    ensures s.program.defs[i].ToolCall? ==> env(i).attached && env(i).run == Returns(false)
    decreases Unfinished(s), |s.steps| - s.index
  {
    var (s', outcome) := Tick(s, env);
    TickCompletes(s, env);
    if i !in s'.completed {
      TickProgress(s, env);
      AdvanceCompletes(s', env, i);
    }
  }

  lemma TickCompletes(s: State, env: nat -> ToolEnv)
    requires WellFormed(s)
    ensures var s' := Tick(s, env).0;
            || s'.completed == s.completed
            || (&& s.index < |s.steps| && s'.completed == s.completed + [s.index]
                && !s.program.defs[s.index].HumanCheckpoint?
                && (s.program.defs[s.index].ToolCall? ==>
                      env(s.index).attached && env(s.index).run == Returns(false)))
  {
  }

  lemma EventCompletes(s: State, e: Event, i: nat)
    requires WellFormed(s) && i in Apply(s, e).completed && i !in s.completed
    ensures i < |s.program.defs|
    ensures s.program.defs[i].HumanCheckpoint? ==>
              e == DecideCheckpoint(i, true) && s.steps[i].status == StepNeedsApproval
    ensures s.program.defs[i].ToolCall? ==>
              e.AdvanceRun? && e.env(i).attached && e.env(i).run == Returns(false)
  {
    if e.AdvanceRun? {
      AdvanceCompletes(s, e.env, i);
    }
  }

  /** A completed checkpoint was passed by a person, and a completed tool step's tool has returned without an error. */
  lemma {:induction false} CompletedHaveReasons(p: Program, events: seq<Event>, i: nat)
    requires p.Valid() && i in Run(Start(p), events).completed
    ensures i < |p.defs| && CompletedForReason(p, events, i)
  {
    if events != [] {
      var earlier, n := events[..|events| - 1], |events| - 1;
      LastEvent(p, events);
      if i in Run(Start(p), earlier).completed {
        CompletedHaveReasons(p, earlier, i);
        if p.defs[i].HumanCheckpoint? {
          var k :| 0 <= k < |earlier| && PassedAt(p, earlier, i, k);
          BeforeSame(p, events, k);
          assert PassedAt(p, events, i, k);
        }
        if p.defs[i].ToolCall? {
          var k :| 0 <= k < |earlier| && ReturnedAt(earlier, i, k);
          assert ReturnedAt(events, i, k);
        }
      } else {
        EventCompletes(Run(Start(p), earlier), events[n], i);
        assert p.defs[i].HumanCheckpoint? ==> PassedAt(p, events, i, n);
        assert p.defs[i].ToolCall? ==> ReturnedAt(events, i, n);
      }
    }
  }

  lemma ApprovedEarlier(p: Program, events: seq<Event>, i: nat, k: nat)
    requires p.Valid() && k < |events| - 1 && ApprovedAt(p, events[..|events| - 1], i, k)
    ensures ApprovedAt(p, events, i, k)
  {
    BeforeSame(p, events, k);
  }

  /** Rows whose status is not their first were decided, and each approved one at an event that approved it. */
  lemma {:induction false} ApprovedRowsWereApproved(p: Program, events: seq<Event>, r: nat)
    requires p.Valid() && r < |Run(Start(p), events).approvals|
    requires Run(Start(p), events).approvals[r].status == Rows.Approved
    ensures exists k :: 0 <= k < |events| && ApprovedAt(p, events, Run(Start(p), events).approvals[r].key, k)
  {
    if events != [] {
      var earlier, n := events[..|events| - 1], |events| - 1;
      var s, s' := Run(Start(p), earlier), Run(Start(p), events);
      LastEvent(p, events);
      EventApproves(s, events[n], r);
      if r < |s.approvals| && s.approvals[r] == s'.approvals[r] {
        ApprovedRowsWereApproved(p, earlier, r);
        var k :| 0 <= k < |earlier| && ApprovedAt(p, earlier, s.approvals[r].key, k);
        ApprovedEarlier(p, events, s'.approvals[r].key, k);
      } else {
        assert ApprovedAt(p, events, s'.approvals[r].key, n);
      }
    }
  }

  /** One event leaves a row alone, adds one that awaits its decision, or is the person's decision of it. */
  lemma EventApproves(s: State, e: Event, r: nat)
    requires WellFormed(s) && r < |Apply(s, e).approvals|
    ensures var s' := Apply(s, e);
            || (r < |s.approvals| && s'.approvals[r] == s.approvals[r])
            || s'.approvals[r].status == Rows.AwaitingDecision
            || (&& e.DecideTool? && e.row == r < |s.approvals| && s.approvals[r].status == Rows.AwaitingDecision
                && s'.approvals[r].key == s.approvals[r].key && (s'.approvals[r].status == Rows.Approved ==> e.approve))
  {
    if e.AdvanceRun? {
      AdvanceAsks(s, e.env);
    }
  }

  lemma {:induction false} AdvanceAsks(s: State, env: nat -> ToolEnv)
    requires WellFormed(s)
    ensures var s' := Advance(s, env).0;
            && s.approvals <= s'.approvals
            && forall r :: |s.approvals| <= r < |s'.approvals| ==> s'.approvals[r].status == Rows.AwaitingDecision
    decreases Unfinished(s), |s.steps| - s.index
  {
    var (s', outcome) := Tick(s, env);
    TickAsks(s, env);
    if outcome == Again {
      TickProgress(s, env);
      AdvanceAsks(s', env);
    }
  }

  lemma TickAsks(s: State, env: nat -> ToolEnv)
    requires WellFormed(s)
    ensures var s' := Tick(s, env).0;
            && s.approvals <= s'.approvals
            && forall r :: |s.approvals| <= r < |s'.approvals| ==> s'.approvals[r].status == Rows.AwaitingDecision
  {
  }

  /** Who is named as the reason of an execution has given it: a person has approved it at an earlier event. */
  lemma ExecutionsHaveReasons(p: Program, events: seq<Event>, e: nat)
    requires p.Valid() && e < |Run(Start(p), events).executed|
    ensures var run := Run(Start(p), events).executed[e];
            match run.why
            case ByApproval => exists k :: 0 <= k < |events| && ApprovedAt(p, events, run.key, k)
            case ByGate(gate) => Gates.WorkflowVerdict(gate, false) == Gates.Execute
  {
    var s := Run(Start(p), events);
    StartInv(p);
    RunGood(Start(p), events);
    assert Justified(s, s.executed[e]);
    if s.executed[e].why.ByApproval? {
      var r := LatestApprovalRow(s.approvals, s.executed[e].key, Rows.Approved);
      ApprovedRowsWereApproved(p, events, r);
    }
  }

  // ---------------------------------------------------------------- what a person's decision brings about

  /** A person turns down what a step waits for. */
  ghost predicate TurnsDown(s: State, e: Event)
    requires WellFormed(s)
  {
    || (&& e.DecideTool? && !e.approve && e.row < |s.approvals| && s.approvals[e.row].status == Rows.AwaitingDecision)
    || (&& e.DecideCheckpoint? && !e.approve && e.step < |s.steps| && s.program.defs[e.step].HumanCheckpoint?
        && s.steps[e.step].status == StepNeedsApproval)
  }

  lemma RunConcat(p: Program, before: seq<Event>, e: Event, after: seq<Event>)
    requires p.Valid()
    ensures Run(Start(p), before + [e]) == Apply(Run(Start(p), before), e)
    ensures Run(Start(p), before + [e] + after) == Run(Apply(Run(Start(p), before), e), after)
  {
    assert (before + [e])[..|before|] == before;
    RunFrom(Start(p), before + [e], after);
  }

  lemma {:induction false} RunFrom(s: State, first: seq<Event>, second: seq<Event>)
    requires WellFormed(s)
    ensures Run(s, first + second) == Run(Run(s, first), second)
  {
    if second == [] {
      assert first + second == first;
    } else {
      var all, earlier := first + second, second[..|second| - 1];
      assert all == first + earlier + [second[|second| - 1]] && second == earlier + [second[|second| - 1]];
      RunAppend(s, first + earlier, second[|second| - 1]);
      RunAppend(Run(s, first), earlier, second[|second| - 1]);
      RunFrom(s, first, earlier);
    }
  }

  lemma RunAppend(s: State, events: seq<Event>, e: Event)
    requires WellFormed(s)
    ensures Run(s, events + [e]) == Apply(Run(s, events), e)
  {
    assert (events + [e])[..|events|] == events;
  }

  /** From then on the run has failed, and no step executes or completes any more. */
  lemma RefusalIsFinal(p: Program, before: seq<Event>, e: Event, after: seq<Event>)
    requires p.Valid() && TurnsDown(Run(Start(p), before), e)
    ensures var s, s' := Run(Start(p), before), Run(Start(p), before + [e] + after);
            s'.status == Failed && s'.executed == s.executed && s'.completed == s.completed
  {
    var s := Run(Start(p), before);
    RunConcat(p, before, e, after);
    StartInv(p);
    RunGood(Start(p), before);
    RefusalFails(s, e);
    TerminalRunsStay(p, before + [e], after);
  }

  lemma RefusalFails(s: State, e: Event)
    requires Inv(s) && TurnsDown(s, e)
    ensures var s' := Apply(s, e);
            s'.status == Failed && s'.executed == s.executed && s'.completed == s.completed
  {
  }

  /** A person's approval completes a waiting checkpoint, and the run goes on. */
  lemma PassedCheckpointCompletes(p: Program, before: seq<Event>, i: nat)
    requires p.Valid() && i < |p.defs| && p.defs[i].HumanCheckpoint?
    requires Run(Start(p), before).steps[i].status == StepNeedsApproval
    ensures var s, s' := Run(Start(p), before), Run(Start(p), before + [DecideCheckpoint(i, true)]);
            s'.status == Running && s'.completed == s.completed + [i] && s'.steps[i].status == StepCompleted
  {
    RunConcat(p, before, DecideCheckpoint(i, true), []);
  }

  /** What an advance finds for the tool of step `i`: it is attached, no rule denies it, and it returns. */
  predicate WillReturn(env: ToolEnv, error: bool) {
    env.attached && env.gate.org != Gates.Deny && env.run == Returns(error)
  }

  /**
    A person's approval of a tool step has the next advance execute it: without an error the step is completed, with
    one the run fails.
   */
  lemma ApprovedToolExecutes(p: Program, before: seq<Event>, row: nat, env: nat -> ToolEnv, error: bool)
    requires p.Valid() && row < |Run(Start(p), before).approvals|
    requires Run(Start(p), before).approvals[row].status == Rows.AwaitingDecision
    requires WillReturn(env(Run(Start(p), before).approvals[row].key), error)
    ensures var s := Run(Start(p), before);
            var i, s' := s.approvals[row].key, Run(Start(p), before + [DecideTool(row, true)] + [AdvanceRun(env)]);
            && i < |p.defs| && Runs(s', i) > Runs(s, i)
            && (if error then s'.status == Failed && i !in s'.completed else i in s'.completed)
  {
    var s := Run(Start(p), before);
    StartInv(p);
    RunGood(Start(p), before);
    RunConcat(p, before, DecideTool(row, true), [AdvanceRun(env)]);
    DecideToolInv(s, row, true);
    var decided := Apply(s, DecideTool(row, true));
    assert Run(decided, [AdvanceRun(env)]) == Advance(decided, env).0 by {
      assert [AdvanceRun(env)][..0] == [];
      assert Run(decided, []) == decided;
    }
    ApprovedIsCurrent(s, row);
    ReturningToolRuns(decided, env, error);
  }

  lemma ApprovedIsCurrent(s: State, row: nat)
    requires Inv(s) && row < |s.approvals| && s.approvals[row].status == Rows.AwaitingDecision
    ensures var decided := Apply(s, DecideTool(row, true));
            && decided.status == Running && decided.index == s.index == s.approvals[row].key < |s.steps|
            && decided.steps[s.index].status == StepInProgress && s.program.defs[s.index].ToolCall?
            && ApprovalOf(decided, s.index) == Some(Rows.Approved)
            && decided.executed == s.executed && decided.completed == s.completed
  {
    LatestApprovalOf(s.approvals, row);
    LatestApprovalUpdate(s.approvals, row, Rows.Approved, s.approvals[row].key);
    assert StepOk(s, s.approvals[row].key);
  }

  /** An approved tool step that is the current one runs, and its outcome decides about step and run. */
  lemma ReturningToolRuns(s: State, env: nat -> ToolEnv, error: bool)
    requires Inv(s) && s.status == Running && s.index < |s.steps| && s.program.defs[s.index].ToolCall?
    requires s.steps[s.index].status == StepInProgress && ApprovalOf(s, s.index) == Some(Rows.Approved)
    requires WillReturn(env(s.index), error)
    ensures var s' := Advance(s, env).0;
            && Runs(s', s.index) > Runs(s, s.index)
            && (if error then s'.status == Failed && s.index !in s'.completed else s.index in s'.completed)
  {
    var (t, o) := Tick(s, env);
    var (s', o') := Advance(s, env);
    ReturningToolTicks(s, env, error);
    AdvanceFollows(s, env, s.index);
    assert StepOk(s, s.index);
    ReturningToolEnds(s, t, o, s', o', error);
  }

  lemma ReturningToolEnds(s: State, t: State, o: Outcome, s': State, o': Outcome, error: bool)
    requires WellFormed(s) && HistoryOk(s) && s.index < |s.steps| && s.steps[s.index].status == StepInProgress
    requires t.executed == s.executed + [Execution(s.index, ByApproval)]
    requires if error then o == Return(false) && t.status == Failed && t.completed == s.completed
             else o == Again && t.completed == s.completed + [s.index]
    requires Follows(t, o, s', o', s.index)
    ensures Runs(s', s.index) > Runs(s, s.index)
    ensures if error then s'.status == Failed && s.index !in s'.completed else s.index in s'.completed
  {
    RunsAppend(s, t, s.index, ByApproval, s.index);
    if !error { assert s.index in t.completed; }
  }

  /** What comes after the first tick of an advance: nothing, or more ticks that keep what it has done. */
  ghost predicate Follows(t: State, o: Outcome, s': State, o': Outcome, i: nat) {
    if o == Again then Runs(s', i) >= Runs(t, i) && t.completed <= s'.completed else s' == t && o' == o
  }

  lemma AdvanceFollows(s: State, env: nat -> ToolEnv, i: nat)
    requires WellFormed(s)
    ensures Follows(Tick(s, env).0, Tick(s, env).1, Advance(s, env).0, Advance(s, env).1, i)
  {
    if Tick(s, env).1 == Again {
      TickProgress(s, env);
      AdvanceKeeps(Tick(s, env).0, env, i);
    }
  }

  lemma ReturningToolTicks(s: State, env: nat -> ToolEnv, error: bool)
    requires WellFormed(s) && s.status == Running && s.index < |s.steps| && s.program.defs[s.index].ToolCall?
    requires s.steps[s.index].status == StepInProgress && ApprovalOf(s, s.index) == Some(Rows.Approved)
    requires WillReturn(env(s.index), error)
    ensures var (t, outcome) := Tick(s, env);
            && t.executed == s.executed + [Execution(s.index, ByApproval)]
            && (if error then outcome == Return(false) && t.status == Failed && t.completed == s.completed
                else outcome == Again && t.completed == s.completed + [s.index])
  {
    Gates.RefusedIffRuleDenies(env(s.index).gate, true);
  }


  /** Later steps of an advance keep what has executed and completed. */
  lemma {:induction false} AdvanceKeeps(s: State, env: nat -> ToolEnv, i: nat)
    requires WellFormed(s)
    ensures var s' := Advance(s, env).0; Runs(s', i) >= Runs(s, i) && s.completed <= s'.completed
    decreases Unfinished(s), |s.steps| - s.index
  {
    TickKeeps(s, env, i);
    if Tick(s, env).1 == Again {
      TickProgress(s, env);
      AdvanceKeeps(Tick(s, env).0, env, i);
    }
  }

  lemma TickKeeps(s: State, env: nat -> ToolEnv, i: nat)
    requires WellFormed(s)
    ensures var s' := Tick(s, env).0; Runs(s', i) >= Runs(s, i) && s.completed <= s'.completed
  {
    var s' := Tick(s, env).0;
    if s'.executed != s.executed {
      RunsAppend(s, s', s.index, s'.executed[|s.executed|].why, i);
    }
  }

  // ---------------------------------------------------------------- what a coworker's task brings about

  /** The current step is a coworker action that has started task `t`. */
  predicate AwaitsTask(s: State, t: nat) {
    && s.status == Running && s.index < |s.steps| && |s.steps| == |s.program.defs|
    && s.program.defs[s.index].CoworkerAction? && s.steps[s.index].status == StepInProgress
    && s.steps[s.index].task == Some(t) && t < |s.tasks|
  }

  /** An advance fails the run when the task has failed or is blocked, completes the step when it has completed, and
      else changes nothing and asks to be called again. */
  lemma TaskDecidesAction(s: State, t: nat, env: nat -> ToolEnv)
    requires WellFormed(s) && AwaitsTask(s, t)
    ensures var (s', outcome) := Advance(s, env);
            match s.tasks[t].status
            case Completed => s.index in s'.completed
            case Failed => s'.status == Failed && outcome == Return(false)
            case Blocked => s'.status == Failed && outcome == Return(false)
            case _ => s' == s && outcome == Return(true)
  {
    TaskDecidesTick(s, t, env);
    AdvanceFollows(s, env, 0);
    var (t', o) := Tick(s, env);
    if s.tasks[t].status == Rows.Completed { assert s.index in t'.completed; }
  }

  lemma TaskDecidesTick(s: State, t: nat, env: nat -> ToolEnv)
    requires WellFormed(s) && AwaitsTask(s, t)
    ensures var (s', outcome) := Tick(s, env);
            match s.tasks[t].status
            case Completed => s'.completed == s.completed + [s.index] && outcome == Again
            case Failed => s'.status == Failed && outcome == Return(false)
            case Blocked => s'.status == Failed && outcome == Return(false)
            case _ => s' == s && outcome == Return(true)
  {
  }

  /** An advance asks to be called again exactly when it leaves the run waiting for a task that has not ended. */
  lemma {:induction false} PollsIffTaskRuns(s: State, env: nat -> ToolEnv)
    requires Inv(s)
    ensures var (s', outcome) := Advance(s, env);
            outcome == Return(true) <==>
              !outcome.Raised? && exists t: nat :: AwaitsTask(s', t) && !Rows.Ended(s'.tasks[t].status)
    decreases Unfinished(s), |s.steps| - s.index
  {
    TickPolls(s, env);
    if Tick(s, env).1 == Again {
      TickProgress(s, env);
      TickInv(s, env);
      PollsIffTaskRuns(Tick(s, env).0, env);
    }
  }

  lemma TickPolls(s: State, env: nat -> ToolEnv)
    requires Inv(s)
    ensures var (s', outcome) := Tick(s, env);
            outcome.Return? ==>
              (outcome.poll <==> exists t: nat :: AwaitsTask(s', t) && !Rows.Ended(s'.tasks[t].status))
  {
    var (s', outcome) := Tick(s, env);
    if s.index < |s.steps| {
      assert StepOk(s, s.index);
    }
    if outcome == Return(true) {
      assert AwaitsTask(s', s'.steps[s.index].task.value);
    }
  }

  // ---------------------------------------------------------------- why a run fails

  /** A rule denies the tool of step `i`, or it is executed and returns an error. */
  predicate ToolGivesReason(p: Program, env: nat -> ToolEnv, i: nat)
    requires i < |p.defs|
  {
    p.defs[i].ToolCall? && env(i).attached && (env(i).gate.org == Gates.Deny || env(i).run == Returns(true))
  }

  /** What lets an advance fail a run: a step's tool, or a task that has failed or is blocked. */
  ghost predicate AdvanceHasReason(s: State, env: nat -> ToolEnv) {
    || (exists i :: 0 <= i < |s.program.defs| && ToolGivesReason(s.program, env, i))
    || (exists t :: 0 <= t < |s.tasks| && s.tasks[t].status in {Rows.Failed, Rows.Blocked})
  }

  ghost predicate FailsAt(p: Program, events: seq<Event>, k: nat)
    requires p.Valid() && k < |events|
  {
    || TurnsDown(Before(p, events, k), events[k])
    || (events[k].AdvanceRun? && AdvanceHasReason(Before(p, events, k), events[k].env))
  }

  lemma TickHasReason(s: State, env: nat -> ToolEnv)
    requires Inv(s) && s.status != Failed
    ensures var (s', outcome) := Tick(s, env);
            && (s'.status == Failed ==> AdvanceHasReason(s, env) && outcome != Again)
            && (outcome == Again ==> s'.tasks == s.tasks)
  {
    if s.index < |s.steps| {
      var i := s.index;
      assert StepOk(s, i);
      if s.program.defs[i].ToolCall? {
        Gates.RefusedIffRuleDenies(env(i).gate, ApprovalOf(s, i).Some?);
        assert Tick(s, env).0.status == Failed ==> ToolGivesReason(s.program, env, i);
      }
    }
  }

  lemma {:induction false} AdvanceFailsForReason(s: State, env: nat -> ToolEnv)
    requires Inv(s) && s.status != Failed && Advance(s, env).0.status == Failed
    ensures AdvanceHasReason(s, env)
    decreases Unfinished(s), |s.steps| - s.index
  {
    TickHasReason(s, env);
    if Tick(s, env).1 == Again {
      TickProgress(s, env);
      TickInv(s, env);
      AdvanceFailsForReason(Tick(s, env).0, env);
    }
  }

  lemma FailsEarlier(p: Program, events: seq<Event>, k: nat)
    requires p.Valid() && k < |events| - 1 && FailsAt(p, events[..|events| - 1], k)
    ensures FailsAt(p, events, k)
  {
    BeforeSame(p, events, k);
  }

  lemma RunIsInv(p: Program, events: seq<Event>)
    requires p.Valid()
    ensures Inv(Run(Start(p), events))
  {
    StartInv(p);
    RunGood(Start(p), events);
  }

  /** A run fails only when a person turns a step down, a rule denies a tool, a tool returns an error, or a task
      fails. */
  lemma {:induction false} FailedHasReason(p: Program, events: seq<Event>)
    requires p.Valid() && Run(Start(p), events).status == Failed
    ensures exists k :: 0 <= k < |events| && FailsAt(p, events, k)
  {
    if events != [] {
      var earlier, n := events[..|events| - 1], |events| - 1;
      LastEvent(p, events);
      var s := Run(Start(p), earlier);
      if s.status == Failed {
        FailedHasReason(p, earlier);
        var k :| 0 <= k < |earlier| && FailsAt(p, earlier, k);
        FailsEarlier(p, events, k);
      } else {
        RunIsInv(p, earlier);
        EventFailsForReason(s, events[n]);
        assert FailsAt(p, events, n);
      }
    }
  }

  lemma EventFailsForReason(s: State, e: Event)
    requires Inv(s) && s.status != Failed && Apply(s, e).status == Failed
    ensures TurnsDown(s, e) || (e.AdvanceRun? && AdvanceHasReason(s, e.env))
  {
    if e.AdvanceRun? {
      AdvanceFailsForReason(s, e.env);
    }
  }

  // ---------------------------------------------------------------- how far an advance goes

  /** Where an advance may leave a run: ended, in front of a person, or in front of a task that has not ended. */
  ghost predicate NothingToDo(s: State) {
    || s.status in {Completed, Failed, Cancelled}
    || (s.status == NeedsApproval && s.index < |s.steps| && s.steps[s.index].status == StepNeedsApproval)
    || exists t: nat :: AwaitsTask(s, t) && !Rows.Ended(s.tasks[t].status)
  }

  /** What raises is a condition that can not be evaluated, a tool that is gone, or the tool itself. */
  ghost predicate CanRaise(s: State, env: nat -> ToolEnv)
    requires WellFormed(s)
  {
    && s.status == Running && s.index < |s.steps|
    && (|| !Evaluable(s.program, s.index)
        || (s.program.defs[s.index].ToolCall? && (!env(s.index).attached || env(s.index).run.Raises?)))
  }

  lemma TickGoesOn(s: State, env: nat -> ToolEnv)
    requires Inv(s)
    ensures var (s', outcome) := Tick(s, env);
            && (outcome.Return? ==> NothingToDo(s'))
            && (outcome.Raised? ==> CanRaise(s', env))
  {
    var (s', outcome) := Tick(s, env);
    if s.index < |s.steps| {
      assert StepOk(s, s.index);
      if outcome == Return(true) { assert AwaitsTask(s', s'.steps[s.index].task.value); }
    }
  }

  /** An advance that returns leaves nothing to do for another one; one that raises stands where it must. */
  lemma {:induction false} AdvanceGoesAsFarAsItCan(s: State, env: nat -> ToolEnv)
    requires Inv(s)
    ensures var (s', outcome) := Advance(s, env);
            if outcome.Raised? then CanRaise(s', env) else NothingToDo(s')
    decreases Unfinished(s), |s.steps| - s.index
  {
    TickGoesOn(s, env);
    if Tick(s, env).1 == Again {
      TickProgress(s, env);
      TickInv(s, env);
      AdvanceGoesAsFarAsItCan(Tick(s, env).0, env);
    }
  }
}
