/**
  Agent-team runs: `advance_agent_team_run` derives what to do next from the collaboration pattern
  and the tasks the run has created so far.
 */
module Teams {
  import opened Base
  import Rows

  datatype Pattern = Sequential | ManagerDelegate | ParallelMerge

  /** `position` order is the order of the sequence. */
  datatype Member = Member(id: string, role: string)

  datatype TeamError = NoMembers | InactiveCoworker | NotOneManager | UnsupportedRole | DuplicateCoworker

  const MANAGER := "manager"

  const ROLES := {
    "manager", "researcher", "writer", "reviewer", "developer", "tester",
    "security_reviewer", "architect", "planner", "product_manager", "custom"}

  function Managers(members: seq<Member>): nat {
    if members == [] then 0
    else Managers(members[..|members| - 1]) + if members[|members| - 1].role == MANAGER then 1 else 0
  }

  ghost predicate DistinctMembers(members: seq<Member>) {
    forall i, j :: 0 <= i < j < |members| ==> members[i].id != members[j].id
  }

  /** What the engine may rely on for a stored team version. */
  ghost predicate ValidTeam(pattern: Pattern, members: seq<Member>) {
    && members != []
    && DistinctMembers(members)
    && (pattern == ManagerDelegate ==> Managers(members) == 1)
  }

  /** `create_agent_team`; the last error is the membership table's unique constraint. */
  method CreateAgentTeam(pattern: Pattern, payload: seq<Member>, active: set<string>)
      returns (r: Result<seq<Member>, TeamError>)
    ensures r.Ok? <==> && ValidTeam(pattern, payload)
                       && forall i :: 0 <= i < |payload| ==> payload[i].role in ROLES && payload[i].id in active
    ensures r.Ok? ==> r.value == payload
    ensures match r
            case Ok(_) => true
            case Err(NoMembers) => payload == []
            case Err(InactiveCoworker) => exists i :: 0 <= i < |payload| && payload[i].id !in active
            case Err(NotOneManager) => pattern == ManagerDelegate && Managers(payload) != 1
            case Err(UnsupportedRole) => exists i :: 0 <= i < |payload| && payload[i].role !in ROLES
            case Err(DuplicateCoworker) => !DistinctMembers(payload)
  {
    if payload == [] {
      return Err(NoMembers);
    }
    if exists i :: 0 <= i < |payload| && payload[i].id !in active {
      return Err(InactiveCoworker);
    }
    if pattern == ManagerDelegate && Managers(payload) != 1 {
      return Err(NotOneManager);
    }
    var rows := [];
    for position := 0 to |payload|
      invariant rows == payload[..position]
      invariant DistinctMembers(rows)
      invariant forall i :: 0 <= i < position ==> payload[i].role in ROLES
    {
      var member := payload[position];
      if member.role !in ROLES {
        return Err(UnsupportedRole);
      }
      if exists i :: 0 <= i < |rows| && rows[i].id == member.id {
        return Err(DuplicateCoworker);
      }
      rows := rows + [member];
    }
    return Ok(rows);
  }

  // ---------------------------------------------------------------- rows

  datatype RunStatus = Running | Completed | Failed

  datatype TaskRow = TaskRow(title: string, member: nat, status: Rows.TaskStatus)

  /** What a run takes from its team: pattern, member list and objective stay fixed. */
  datatype Team = Team(pattern: Pattern, members: seq<Member>, objective: string)

  datatype Run = Run(team: Team, status: RunStatus, tasks: seq<TaskRow>)

  function Clip(s: string, limit: nat): string {
    if |s| <= limit then s else s[..limit]
  }

  function PlanTitle(t: Team): string { "[plan] " + Clip(t.objective, 180) }

  function DelegateTitle(t: Team, m: Member): string { "[delegate:" + m.role + "] " + Clip(t.objective, 160) }

  function SynthesisTitle(t: Team): string { "[synthesis] " + Clip(t.objective, 180) }

  predicate IsPlan(t: TaskRow) { "[plan]" <= t.title }

  predicate IsDelegate(t: TaskRow) { "[delegate:" <= t.title }

  predicate IsSynthesis(t: TaskRow) { "[synthesis]" <= t.title }

  function NewTask(title: string, member: nat): TaskRow {
    TaskRow(title, member, Rows.Pending)
  }

  /** The first manager, as the engine's `next(...)` finds it. */
  function FirstManager(members: seq<Member>): (i: nat)
    requires Managers(members) >= 1
    ensures i < |members| && members[i].role == MANAGER
    ensures forall j :: 0 <= j < i ==> members[j].role != MANAGER
  {
    if Managers(members[..|members| - 1]) >= 1 then FirstManager(members[..|members| - 1])
    else
      NoManagers(members[..|members| - 1]);
      |members| - 1
  }

  lemma {:induction false} NoManagers(members: seq<Member>)
    requires Managers(members) == 0
    ensures forall j :: 0 <= j < |members| ==> members[j].role != MANAGER
  {
    if members != [] {
      NoManagers(members[..|members| - 1]);
      assert members == members[..|members| - 1] + [members[|members| - 1]];
    }
  }

  /** Delegate tasks for the members from `i` on, skipping the manager. */
  function Delegates(t: Team, manager: nat, i: nat): seq<TaskRow>
    requires manager < |t.members|
    decreases |t.members| - i
  {
    if i >= |t.members| then []
    else if t.members[i].id == t.members[manager].id then Delegates(t, manager, i + 1)
    else [NewTask(DelegateTitle(t, t.members[i]), i)] + Delegates(t, manager, i + 1)
  }

  function Contribution(t: Team, i: nat): TaskRow
    requires i < |t.members|
  {
    NewTask("[" + t.members[i].role + "] " + Clip(t.objective, 180), i)
  }

  function Contributions(t: Team): seq<TaskRow> {
    seq(|t.members|, i requires 0 <= i < |t.members| => Contribution(t, i))
  }

  predicate AnyFailed(tasks: seq<TaskRow>) { exists i :: 0 <= i < |tasks| && tasks[i].status == Rows.Failed }

  predicate AllEnded(tasks: seq<TaskRow>) { forall i :: 0 <= i < |tasks| ==> Rows.Ended(tasks[i].status) }

  predicate AnyPlan(tasks: seq<TaskRow>) { exists i :: 0 <= i < |tasks| && IsPlan(tasks[i]) }

  predicate AnyDelegate(tasks: seq<TaskRow>) { exists i :: 0 <= i < |tasks| && IsDelegate(tasks[i]) }

  predicate AnySynthesis(tasks: seq<TaskRow>) { exists i :: 0 <= i < |tasks| && IsSynthesis(tasks[i]) }

  // ---------------------------------------------------------------- one advance, as a function

  /** Enough for the engine never to fail looking up a member. */
  ghost predicate Runnable(t: Team) {
    t.members != [] && DistinctMembers(t.members) && (t.pattern == ManagerDelegate ==> Managers(t.members) >= 1)
  }

  /** `advance_agent_team_run`; the boolean asks to poll again. */
  ghost function Advance(r: Run): (Run, bool)
    requires Runnable(r.team)
  {
    if r.status != Running then (r, false)
    else if AnyFailed(r.tasks) then (r.(status := Failed), false)
    else if !AllEnded(r.tasks) then (r, true)
    else
      var more := NextTasks(r.team, r.tasks);
      if more == [] then (r.(status := Completed), false) else (r.(tasks := r.tasks + more), true)
  }

  /** The tasks to create once all those created so far have ended well; none means that the run is complete. */
  ghost function NextTasks(t: Team, tasks: seq<TaskRow>): seq<TaskRow>
    requires Runnable(t)
  {
    match t.pattern
    case Sequential => if |tasks| < |t.members| then [NewTask(Clip(t.objective, 255), |tasks|)] else []
    case ParallelMerge => if tasks == [] then Contributions(t) else []
    case ManagerDelegate =>
      var manager := FirstManager(t.members);
      if tasks == [] then [NewTask(PlanTitle(t), manager)]
      else if AnyPlan(tasks) && !AnyDelegate(tasks) && !AnySynthesis(tasks) then
        Delegates(t, manager, 0) + if |t.members| == 1 then [NewTask(SynthesisTitle(t), manager)] else []
      else if AnyDelegate(tasks) && !AnySynthesis(tasks) then [NewTask(SynthesisTitle(t), manager)]
      else []
  }

  // ---------------------------------------------------------------- events

  datatype Event = AdvanceRun | TaskChanges(task: nat, status: Rows.TaskStatus)

  /** Ended tasks stay as they are (Tasks.EndedTasksStay). */
  ghost function Apply(r: Run, e: Event): Run
    requires Runnable(r.team)
  {
    match e
    case AdvanceRun => Advance(r).0
    case TaskChanges(t, status) =>
      if t < |r.tasks| && !Rows.Ended(r.tasks[t].status) then r.(tasks := r.tasks[t := r.tasks[t].(status := status)])
      else r
  }

  ghost function RunEvents(r: Run, events: seq<Event>): (r': Run)
    requires Runnable(r.team)
    ensures r'.team == r.team
  {
    if events == [] then r
    else Apply(RunEvents(r, events[..|events| - 1]), events[|events| - 1])
  }

  /** `start_agent_team_run`. */
  function Start(t: Team): Run {
    Run(t, Running, [])
  }

  // ---------------------------------------------------------------- the blueprint

  /** Everything a completed run creates, in order of creation. */
  ghost function Blueprint(t: Team): seq<TaskRow>
    requires ValidTeam(t.pattern, t.members)
  {
    match t.pattern
    case Sequential => seq(|t.members|, i requires 0 <= i < |t.members| => NewTask(Clip(t.objective, 255), i))
    case ParallelMerge => Contributions(t)
    case ManagerDelegate =>
      var manager := FirstManager(t.members);
      [NewTask(PlanTitle(t), manager)] + Delegates(t, manager, 0) + [NewTask(SynthesisTitle(t), manager)]
  }

  /** The stage of a blueprint entry; an entry may start only once every earlier stage has ended. */
  function Stage(t: Team, i: nat): nat {
    match t.pattern
    case Sequential => i
    case ParallelMerge => 0
    case ManagerDelegate => if i == 0 then 0 else if i >= |t.members| then 2 else 1
  }

  /** The run has created a prefix of the blueprint, whole stages only. */
  ghost predicate FollowsBlueprint(t: Team, tasks: seq<TaskRow>)
    requires ValidTeam(t.pattern, t.members)
  {
    && |tasks| <= |Blueprint(t)|
    && (forall i :: 0 <= i < |tasks| ==> tasks[i].(status := Rows.Pending) == Blueprint(t)[i])
    && (0 < |tasks| < |Blueprint(t)| ==> Stage(t, |tasks| - 1) < Stage(t, |tasks|))
  }

  ghost predicate StagesInOrder(t: Team, tasks: seq<TaskRow>) {
    forall i, j :: 0 <= i < j < |tasks| && Stage(t, i) < Stage(t, j) ==> Rows.Ended(tasks[i].status)
  }

  ghost predicate Inv(r: Run) {
    && ValidTeam(r.team.pattern, r.team.members)
    && FollowsBlueprint(r.team, r.tasks)
    && StagesInOrder(r.team, r.tasks)
    && (r.status == Completed ==> |r.tasks| == |Blueprint(r.team)| && AllEnded(r.tasks))
  }

  /** Everyone but the manager gets exactly one delegate task, in member order. */
  lemma {:induction false} DelegatesCount(t: Team, manager: nat, i: nat)
    requires manager < |t.members| && i <= |t.members| && DistinctMembers(t.members)
    ensures |Delegates(t, manager, i)| == |t.members| - i - if i <= manager then 1 else 0
    ensures forall k :: 0 <= k < |Delegates(t, manager, i)| ==>
              && IsDelegate(Delegates(t, manager, i)[k])
              && Delegates(t, manager, i)[k].status == Rows.Pending
              && Delegates(t, manager, i)[k].member == if i <= manager <= i + k then i + k + 1 else i + k
    decreases |t.members| - i
  {
    if i < |t.members| {
      DelegatesCount(t, manager, i + 1);
      if i != manager {
        var title := DelegateTitle(t, t.members[i]);
        assert title == "[delegate:" + (t.members[i].role + "] " + Clip(t.objective, 160));
      }
    }
  }

  lemma PlanTitleKind(t: Team)
    ensures "[plan]" <= PlanTitle(t)
  {
    assert PlanTitle(t) == "[plan]" + (" " + Clip(t.objective, 180));
  }

  lemma SynthesisTitleKind(t: Team)
    ensures "[synthesis]" <= SynthesisTitle(t)
  {
    assert SynthesisTitle(t) == "[synthesis]" + (" " + Clip(t.objective, 180));
  }

  /** A title has at most one of the three kinds. */
  lemma KindsExclude(task: TaskRow)
    ensures !(IsPlan(task) && IsDelegate(task)) && !(IsPlan(task) && IsSynthesis(task))
    ensures !(IsDelegate(task) && IsSynthesis(task))
  {
    assert IsPlan(task) ==> task.title[1] == "[plan]"[1] == 'p';
    assert IsDelegate(task) ==> task.title[1] == "[delegate:"[1] == 'd';
    assert IsSynthesis(task) ==> task.title[1] == "[synthesis]"[1] == 's';
  }

  /** The sizes promised for each pattern. */
  lemma BlueprintSize(t: Team)
    requires ValidTeam(t.pattern, t.members)
    ensures |Blueprint(t)| == |t.members| + if t.pattern == ManagerDelegate then 1 else 0
  {
    if t.pattern == ManagerDelegate {
      DelegatesCount(t, FirstManager(t.members), 0);
    }
  }

  /** Which kinds of task a manager-led run has created, from their number alone. */
  lemma KindsCreated(t: Team, tasks: seq<TaskRow>)
    requires ValidTeam(t.pattern, t.members) && t.pattern == ManagerDelegate
    requires FollowsBlueprint(t, tasks) && tasks != []
    ensures AnyPlan(tasks)
    ensures AnyDelegate(tasks) <==> |t.members| >= 2 && |tasks| >= 2
    ensures AnySynthesis(tasks) <==> |tasks| == |t.members| + 1
  {
    var n := |t.members|;
    BlueprintSize(t);
    forall i | 0 <= i < |tasks|
      ensures IsPlan(tasks[i]) <==> i == 0
      ensures IsDelegate(tasks[i]) <==> 0 < i < n
      ensures IsSynthesis(tasks[i]) <==> i == n
    {
      KindPosition(t, tasks, i);
    }
    assert IsPlan(tasks[0]);
    assert |tasks| >= 2 && n >= 2 ==> IsDelegate(tasks[1]);
    assert |tasks| == n + 1 ==> IsSynthesis(tasks[n]);
  }

  lemma BlueprintIsPending(t: Team)
    requires ValidTeam(t.pattern, t.members)
    ensures forall i :: 0 <= i < |Blueprint(t)| ==> Blueprint(t)[i].status == Rows.Pending
  {
    if t.pattern == ManagerDelegate {
      DelegatesCount(t, FirstManager(t.members), 0);
    }
  }

  /** The blueprint of a manager-led team, entry by entry. */
  lemma ManagerBlueprint(t: Team)
    requires ValidTeam(t.pattern, t.members) && t.pattern == ManagerDelegate
    ensures var manager, n := FirstManager(t.members), |t.members|;
            && |Blueprint(t)| == n + 1 && |Delegates(t, manager, 0)| == n - 1
            && Blueprint(t)[0] == NewTask(PlanTitle(t), manager)
            && Blueprint(t)[n] == NewTask(SynthesisTitle(t), manager)
            && forall i :: 0 <= i < n - 1 ==> Blueprint(t)[1 + i] == Delegates(t, manager, 0)[i]
  {
    DelegatesCount(t, FirstManager(t.members), 0);
  }

  lemma WholeStages(t: Team, tasks: seq<TaskRow>)
    requires ValidTeam(t.pattern, t.members) && t.pattern == ManagerDelegate && FollowsBlueprint(t, tasks)
    ensures |tasks| in {0, 1, |t.members|, |t.members| + 1}
  {
    BlueprintSize(t);
    assert forall i :: 0 < i < |t.members| ==> Stage(t, i) == 1;
  }

  /** How many tasks a manager-led team creates next: the plan, all delegates, or the synthesis. */
  function ManagerStageSize(t: Team, created: nat): nat {
    if created == |t.members| + 1 then 0
    else if created == 1 && |t.members| >= 2 then |t.members| - 1
    else 1
  }

  /** A manager-led run creates the plan, then all delegates (for one member, the synthesis), then the synthesis. */
  lemma ManagerNextTasks(t: Team, tasks: seq<TaskRow>)
    requires ValidTeam(t.pattern, t.members) && t.pattern == ManagerDelegate && FollowsBlueprint(t, tasks)
    ensures var k := ManagerStageSize(t, |tasks|);
            |tasks| + k <= |Blueprint(t)| && NextTasks(t, tasks) == Blueprint(t)[|tasks|..|tasks| + k]
  {
    var n := |t.members|;
    ManagerBlueprint(t);
    WholeStages(t, tasks);
    if tasks == [] {
      assert NextTasks(t, tasks) == Blueprint(t)[0..1];
    } else {
      KindsCreated(t, tasks);
      ManagerCreates(t, tasks);
    }
  }

  /** The same from the kinds of task created so far. */
  lemma ManagerCreates(t: Team, tasks: seq<TaskRow>)
    requires ValidTeam(t.pattern, t.members) && t.pattern == ManagerDelegate && tasks != []
    requires |tasks| in {1, |t.members|, |t.members| + 1} && |Blueprint(t)| == |t.members| + 1
    requires AnyPlan(tasks)
    requires AnyDelegate(tasks) <==> |t.members| >= 2 && |tasks| >= 2
    requires AnySynthesis(tasks) <==> |tasks| == |t.members| + 1
    ensures NextTasks(t, tasks) == Blueprint(t)[|tasks|..|tasks| + ManagerStageSize(t, |tasks|)]
  {
    var manager, n := FirstManager(t.members), |t.members|;
    ManagerBlueprint(t);
    if |tasks| == n {
      assert NextTasks(t, tasks) == [NewTask(SynthesisTitle(t), manager)];
      assert Blueprint(t)[n..n + 1] == [Blueprint(t)[n]];
    } else if |tasks| == 1 {
      assert NextTasks(t, tasks) == Delegates(t, manager, 0);
      assert Blueprint(t)[1..n] == Delegates(t, manager, 0);
    }
  }

  lemma NextTasksAreSlice(t: Team, tasks: seq<TaskRow>)
    requires ValidTeam(t.pattern, t.members) && FollowsBlueprint(t, tasks)
    ensures var more, plan := NextTasks(t, tasks), Blueprint(t);
            && |more| == StageSize(t, |tasks|)
            && |tasks| + |more| <= |plan| && more == plan[|tasks|..|tasks| + |more|]
  {
    BlueprintSize(t);
    if t.pattern == ManagerDelegate {
      ManagerNextTasks(t, tasks);
    }
  }

  /** How many tasks an advance creates in each pattern. */
  function StageSize(t: Team, created: nat): nat {
    match t.pattern
    case Sequential => if created < |t.members| then 1 else 0
    case ParallelMerge => if created == 0 then |t.members| else 0
    case ManagerDelegate => ManagerStageSize(t, created)
  }

  lemma StageSizeIsWhole(t: Team, tasks: seq<TaskRow>)
    requires ValidTeam(t.pattern, t.members) && FollowsBlueprint(t, tasks)
    ensures var created, k, all := |tasks|, StageSize(t, |tasks|), |Blueprint(t)|;
            && (k == 0 <==> created == all)
            && (created + k < all ==> Stage(t, created + k - 1) < Stage(t, created + k))
            && forall j :: created <= j < created + k ==> Stage(t, j) == Stage(t, created)
  {
    BlueprintSize(t);
    if t.pattern == ManagerDelegate {
      WholeStages(t, tasks);
    }
  }

  /** What an advance creates is the next whole stage of the blueprint, and nothing only at its end. */
  lemma NextTasksAreNextStage(t: Team, tasks: seq<TaskRow>)
    requires ValidTeam(t.pattern, t.members) && FollowsBlueprint(t, tasks)
    ensures var more, plan := NextTasks(t, tasks), Blueprint(t);
            && (more == [] <==> |tasks| == |plan|)
            && |tasks| + |more| <= |plan|
            && more == plan[|tasks|..|tasks| + |more|]
            && (|tasks| + |more| < |plan| ==> Stage(t, |tasks| + |more| - 1) < Stage(t, |tasks| + |more|))
            && forall j :: |tasks| <= j < |tasks| + |more| ==> Stage(t, j) == Stage(t, |tasks|)
  {
    NextTasksAreSlice(t, tasks);
    StageSizeIsWhole(t, tasks);
  }

  lemma CreatingKeepsInv(r: Run, more: seq<TaskRow>)
    requires Inv(r) && r.status == Running && AllEnded(r.tasks) && more == NextTasks(r.team, r.tasks) && more != []
    ensures Inv(r.(tasks := r.tasks + more))
  {
    var t, tasks' := r.team, r.tasks + more;
    NextTasksAreNextStage(t, r.tasks);
    BlueprintIsPending(t);
    forall i | 0 <= i < |tasks'| ensures tasks'[i].(status := Rows.Pending) == Blueprint(t)[i] {
      if i >= |r.tasks| {
        assert tasks'[i] == more[i - |r.tasks|] == Blueprint(t)[i];
      }
    }
  }

  lemma AdvanceInv(r: Run)
    requires Inv(r)
    ensures Inv(Advance(r).0)
  {
    if r.status == Running && !AnyFailed(r.tasks) && AllEnded(r.tasks) {
      NextTasksAreNextStage(r.team, r.tasks);
      if NextTasks(r.team, r.tasks) != [] {
        CreatingKeepsInv(r, NextTasks(r.team, r.tasks));
      }
    }
  }

  lemma {:induction false} RunInv(t: Team, events: seq<Event>)
    requires ValidTeam(t.pattern, t.members)
    ensures Inv(RunEvents(Start(t), events))
  {
    if events != [] {
      var r := RunEvents(Start(t), events[..|events| - 1]);
      RunInv(t, events[..|events| - 1]);
      if events[|events| - 1].AdvanceRun? {
        AdvanceInv(r);
      }
    }
  }

  // ---------------------------------------------------------------- main results

  /**
    Under any schedule of advances and task changes a run has created a prefix of its blueprint,
    stage by stage: n tasks in all for sequential (one at a time, in member order) and parallel
    teams, n + 1 for a manager-led one, never more; a completed run has created every one of them
    and each has ended.
   */
  lemma RunFollowsBlueprint(t: Team, events: seq<Event>)
    requires ValidTeam(t.pattern, t.members)
    ensures var r := RunEvents(Start(t), events);
            && FollowsBlueprint(t, r.tasks) && StagesInOrder(t, r.tasks)
            && |r.tasks| <= |Blueprint(t)| == |t.members| + (if t.pattern == ManagerDelegate then 1 else 0)
            && (r.status == Completed ==> |r.tasks| == |Blueprint(t)| && AllEnded(r.tasks))
  {
    RunInv(t, events);
    BlueprintSize(t);
  }

  /** No delegate starts before the plan has ended, and no synthesis before every delegate has. */
  lemma ManagerWaits(t: Team, events: seq<Event>, i: nat, j: nat)
    requires ValidTeam(t.pattern, t.members) && t.pattern == ManagerDelegate
    requires var tasks := RunEvents(Start(t), events).tasks;
             && i < |tasks| && j < |tasks|
             && ((IsPlan(tasks[i]) && IsDelegate(tasks[j])) || (IsDelegate(tasks[i]) && IsSynthesis(tasks[j])))
    ensures Rows.Ended(RunEvents(Start(t), events).tasks[i].status)
  {
    RunInv(t, events);
    LaterKindWaits(t, RunEvents(Start(t), events).tasks, i, j);
  }

  lemma LaterKindWaits(t: Team, tasks: seq<TaskRow>, i: nat, j: nat)
    requires ValidTeam(t.pattern, t.members) && t.pattern == ManagerDelegate
    requires FollowsBlueprint(t, tasks) && StagesInOrder(t, tasks)
    requires i < |tasks| && j < |tasks|
    requires (IsPlan(tasks[i]) && IsDelegate(tasks[j])) || (IsDelegate(tasks[i]) && IsSynthesis(tasks[j]))
    ensures Rows.Ended(tasks[i].status)
  {
    KindPosition(t, tasks, i);
    KindPosition(t, tasks, j);
    assert i < j && Stage(t, i) < Stage(t, j);
  }

  lemma KindPosition(t: Team, tasks: seq<TaskRow>, i: nat)
    requires ValidTeam(t.pattern, t.members) && t.pattern == ManagerDelegate
    requires FollowsBlueprint(t, tasks) && i < |tasks|
    ensures IsPlan(tasks[i]) <==> i == 0
    ensures IsDelegate(tasks[i]) <==> 0 < i < |t.members|
    ensures IsSynthesis(tasks[i]) <==> i == |t.members|
  {
    BlueprintSize(t);
    DelegatesCount(t, FirstManager(t.members), 0);
    PlanTitleKind(t);
    SynthesisTitleKind(t);
    KindsExclude(tasks[i]);
    assert tasks[i].title == Blueprint(t)[i].title;
    assert 0 < i < |t.members| ==> Blueprint(t)[i] == Delegates(t, FirstManager(t.members), 0)[i - 1];
  }

  /** An advance that sees a failed task fails the run, and a failed run creates nothing more. */
  lemma {:induction false} FailureIsFinal(t: Team, before: seq<Event>, after: seq<Event>)
    requires ValidTeam(t.pattern, t.members)
    requires RunEvents(Start(t), before).status == Running && AnyFailed(RunEvents(Start(t), before).tasks)
    ensures var r := RunEvents(Start(t), before);
            var r' := RunEvents(Apply(r, AdvanceRun), after);
            r'.status == Failed && |r'.tasks| == |r.tasks|
  {
    if after != [] {
      FailureIsFinal(t, before, after[..|after| - 1]);
    }
  }

  // ---------------------------------------------------------------- the engine itself

  class AgentTeamRun {
    const team: Team
    var status: RunStatus
    var tasks: seq<TaskRow>

    ghost function Snapshot(): Run
      reads this
    {
      Run(team, status, tasks)
    }

    constructor StartAgentTeamRun(t: Team)
      ensures Snapshot() == Start(t)
    {
      team, status, tasks := t, Running, [];
    }

    method CreateTask(title: string, member: nat)
      modifies this`tasks
      ensures tasks == old(tasks) + [NewTask(title, member)]
    {
      tasks := tasks + [NewTask(title, member)];
    }

    method AdvanceAgentTeamRun() returns (poll: bool)
      requires Runnable(team)
      modifies this
      ensures (Snapshot(), poll) == Advance(old(Snapshot()))
    {
      if status != Running {
        return false;
      }
      if AnyFailed(tasks) {
        status := Failed;
        return false;
      }
      if !AllEnded(tasks) {
        return true;
      }
      if tasks == [] {
        match team.pattern {
          case ManagerDelegate => CreateTask(PlanTitle(team), FirstManager(team.members));
          case Sequential => CreateTask(Clip(team.objective, 255), 0);
          case ParallelMerge => CreateContributions();
        }
        return true;
      }
      if team.pattern == ManagerDelegate {
        var manager := FirstManager(team.members);
        if AnyPlan(tasks) && !AnyDelegate(tasks) && !AnySynthesis(tasks) {
          ghost var more := NextTasks(team, tasks);
          DelegatesCount(team, manager, 0);
          assert more != [];
          CreateDelegates(manager);
          if |team.members| == 1 {
            CreateTask(SynthesisTitle(team), manager);
          }
          assert tasks == old(tasks) + more;
          return true;
        }
        if AnyDelegate(tasks) && !AnySynthesis(tasks) {
          CreateTask(SynthesisTitle(team), manager);
          return true;
        }
      } else if team.pattern == Sequential && |tasks| < |team.members| {
        CreateTask(Clip(team.objective, 255), |tasks|);
        return true;
      }
      status := Completed;
      return false;
    }

    method CreateContributions()
      modifies this`tasks
      ensures tasks == old(tasks) + Contributions(team)
    {
      for i := 0 to |team.members|
        invariant tasks == old(tasks) + Contributions(team)[..i]
      {
        CreateTask("[" + team.members[i].role + "] " + Clip(team.objective, 180), i);
      }
    }

    method CreateDelegates(manager: nat)
      requires manager < |team.members|
      modifies this`tasks
      ensures tasks == old(tasks) + Delegates(team, manager, 0)
    {
      for i := 0 to |team.members|
        invariant tasks + Delegates(team, manager, i) == old(tasks) + Delegates(team, manager, 0)
      {
        if team.members[i].id != team.members[manager].id {
          CreateTask(DelegateTitle(team, team.members[i]), i);
        }
      }
    }
  }
}
