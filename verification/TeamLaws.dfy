/**
  What an agent-team run does, said in the terms of its tasks: who gets which, under which title, how many at a time,
  and how the run ends.
 */
module TeamLaws {
  import opened Base
  import opened Teams
  import Rows

  /** The beginning of a text, all of it when it is short enough. */
  predicate Heads(head: string, text: string, limit: nat) {
    head <= text && |head| == if |text| < limit then |text| else limit
  }

  ghost predicate Titled(title: string, before: string, text: string, limit: nat) {
    exists head :: title == before + head && Heads(head, text, limit)
  }

  /** The first member whose role is manager. */
  ghost predicate Leads(members: seq<Member>, i: nat) {
    i < |members| && members[i].role == "manager" && forall j :: 0 <= j < i ==> members[j].role != "manager"
  }

  function ManagerPlaces(members: seq<Member>): set<nat> {
    set i: nat | i < |members| && members[i].role == "manager"
  }

  /** A valid manager-led team has exactly one manager. */
  lemma {:induction false} ManagersAreCounted(members: seq<Member>)
    ensures Managers(members) == |ManagerPlaces(members)|
  {
    if members != [] {
      var n := |members| - 1;
      ManagersAreCounted(members[..n]);
      var last: set<nat> := if members[n].role == "manager" then {n} else {};
      assert ManagerPlaces(members) == ManagerPlaces(members[..n]) + last && n !in ManagerPlaces(members[..n]);
    }
  }

  /** Who does task `i` of a run, and what it is called: a manager-led team plans, delegates to everyone else in member
      order, and sums up. */
  ghost predicate RightTask(t: Team, i: nat, task: TaskRow) {
    && task.member < |t.members|
    && match t.pattern
       case Sequential => task.member == i && Titled(task.title, "", t.objective, 255)
       case ParallelMerge =>
         task.member == i && Titled(task.title, "[" + t.members[i].role + "] ", t.objective, 180)
       case ManagerDelegate =>
         exists manager: nat :: Leads(t.members, manager) &&
           (if i == 0 then task.member == manager && Titled(task.title, "[plan] ", t.objective, 180)
            else if i == |t.members| then task.member == manager && Titled(task.title, "[synthesis] ", t.objective, 180)
            else && task.member == (if i <= manager then i - 1 else i)
                 && Titled(task.title, "[delegate:" + t.members[task.member].role + "] ", t.objective, 160))
  }

  lemma ClipHeads(text: string, before: string, limit: nat)
    ensures Titled(before + Clip(text, limit), before, text, limit)
  {
    assert Heads(Clip(text, limit), text, limit);
  }

  lemma {:induction false} DelegateIsTitled(t: Team, manager: nat, i: nat, k: nat)
    requires manager < |t.members| && i <= |t.members| && k < |Delegates(t, manager, i)|
    ensures var task := Delegates(t, manager, i)[k];
            && task.member < |t.members|
            && Titled(task.title, "[delegate:" + t.members[task.member].role + "] ", t.objective, 160)
    decreases |t.members| - i
  {
    if t.members[i].id == t.members[manager].id {
      DelegateIsTitled(t, manager, i + 1, k);
    } else if k > 0 {
      DelegateIsTitled(t, manager, i + 1, k - 1);
    } else {
      ClipHeads(t.objective, "[delegate:" + t.members[i].role + "] ", 160);
    }
  }

  lemma EntryIsRight(t: Team, i: nat)
    requires ValidTeam(t.pattern, t.members) && i < |Blueprint(t)|
    ensures RightTask(t, i, Blueprint(t)[i])
  {
    match t.pattern
    case Sequential =>
      ClipHeads(t.objective, "", 255);
      assert "" + Clip(t.objective, 255) == Clip(t.objective, 255);
    case ParallelMerge => ClipHeads(t.objective, "[" + t.members[i].role + "] ", 180);
    case ManagerDelegate => ManagerEntryIsRight(t, i);
  }

  lemma ManagerEntryIsRight(t: Team, i: nat)
    requires ValidTeam(t.pattern, t.members) && t.pattern == ManagerDelegate && i < |Blueprint(t)|
    ensures RightTask(t, i, Blueprint(t)[i])
  {
    var manager := FirstManager(t.members);
    assert Leads(t.members, manager);
    ManagerBlueprint(t);
    ClipHeads(t.objective, "[plan] ", 180);
    ClipHeads(t.objective, "[synthesis] ", 180);
    if 0 < i < |t.members| {
      DelegatesCount(t, manager, 0);
      DelegateIsTitled(t, manager, 0, i - 1);
    }
  }

  /** Every task a run has created is the right one for its place. */
  lemma TasksAreRight(t: Team, events: seq<Event>, i: nat)
    requires ValidTeam(t.pattern, t.members) && i < |RunEvents(Start(t), events).tasks|
    ensures RightTask(t, i, RunEvents(Start(t), events).tasks[i])
  {
    RunFollowsBlueprint(t, events);
    EntryIsRight(t, i);
    var task := RunEvents(Start(t), events).tasks[i];
    assert task.(status := Rows.Pending) == Blueprint(t)[i];
  }

  // ---------------------------------------------------------------- how a run goes on and ends

  ghost predicate EndedWell(task: TaskRow) {
    task.status == Rows.Completed || task.status == Rows.Blocked
  }

  /** How many tasks a team creates when it has created `n` and they have ended well. */
  function NextNumber(t: Team, n: nat): int {
    match t.pattern
    case Sequential => if n == |t.members| then 0 else 1
    case ParallelMerge => if n == |t.members| then 0 else |t.members|
    case ManagerDelegate => if n == |t.members| + 1 then 0 else if n == 1 && |t.members| > 1 then |t.members| - 1 else 1
  }

  /** What an advance of a running run does: a failed task fails it, a task under way makes it wait, and otherwise it
      creates the next tasks, or is complete when there are none. */
  ghost predicate Advances(r: Run, r': Run, poll: bool) {
    && r'.team == r.team
    && (if exists i :: 0 <= i < |r.tasks| && r.tasks[i].status == Rows.Failed then
          r'.status == Failed && r'.tasks == r.tasks && !poll
        else if exists i :: 0 <= i < |r.tasks| && !EndedWell(r.tasks[i]) then r' == r && poll
        else if NextNumber(r.team, |r.tasks|) == 0 then r'.status == Completed && r'.tasks == r.tasks && !poll
        else
          && r'.status == Running && poll && r.tasks <= r'.tasks
          && |r'.tasks| == |r.tasks| + NextNumber(r.team, |r.tasks|)
          && forall i :: |r.tasks| <= i < |r'.tasks| ==> r'.tasks[i].status == Rows.Pending)
  }

  lemma AdvanceIsLawful(t: Team, events: seq<Event>)
    requires ValidTeam(t.pattern, t.members) && RunEvents(Start(t), events).status == Running
    ensures var r := RunEvents(Start(t), events); var (r', poll) := Advance(r); Advances(r, r', poll)
  {
    var r := RunEvents(Start(t), events);
    var r' := Advance(r).0;
    RunFollowsBlueprint(t, events);
    NextTasksAreSlice(t, r.tasks);
    BlueprintSize(t);
    BlueprintIsPending(t);
    if AllEnded(r.tasks) && !AnyFailed(r.tasks) {
      var more := NextTasks(t, r.tasks);
      assert |more| == StageSize(t, |r.tasks|) == NextNumber(t, |r.tasks|) by {
        NextIsStage(t, r.tasks);
      }
      assert forall i :: 0 <= i < |r.tasks| ==> EndedWell(r.tasks[i]);
    }
  }

  lemma NextIsStage(t: Team, tasks: seq<TaskRow>)
    requires ValidTeam(t.pattern, t.members) && FollowsBlueprint(t, tasks)
    ensures StageSize(t, |tasks|) == NextNumber(t, |tasks|)
  {
    BlueprintSize(t);
    if t.pattern == ManagerDelegate {
      WholeStages(t, tasks);
    }
  }

  /** A run is complete only with all of its tasks ended well, and stays so. */
  lemma {:induction false} CompletedRunEndedWell(t: Team, events: seq<Event>)
    requires ValidTeam(t.pattern, t.members)
    ensures var r := RunEvents(Start(t), events);
            r.status == Completed ==> r.tasks != [] && forall i :: 0 <= i < |r.tasks| ==> EndedWell(r.tasks[i])
  {
    RunFollowsBlueprint(t, events);
    if events != [] {
      var earlier := events[..|events| - 1];
      CompletedRunEndedWell(t, earlier);
      if RunEvents(Start(t), earlier).status == Running && events[|events| - 1].AdvanceRun? {
        AdvanceIsLawful(t, earlier);
      }
    }
  }

  /** Once a task has failed in a running run, the next advance fails it, for good and without another task. */
  lemma FailedTaskFailsRun(t: Team, before: seq<Event>, after: seq<Event>, i: nat)
    requires ValidTeam(t.pattern, t.members)
    requires var r := RunEvents(Start(t), before);
             r.status == Running && i < |r.tasks| && r.tasks[i].status == Rows.Failed
    ensures var r := RunEvents(Start(t), before);
            var r' := RunEvents(Apply(r, AdvanceRun), after);
            r'.status == Failed && |r'.tasks| == |r.tasks|
  {
    FailureIsFinal(t, before, after);
  }

  /** A run fails only over a failed task. */
  lemma {:induction false} FailedRunHasFailedTask(t: Team, events: seq<Event>)
    requires ValidTeam(t.pattern, t.members) && RunEvents(Start(t), events).status == Failed
    ensures exists i :: 0 <= i < |RunEvents(Start(t), events).tasks|
                        && RunEvents(Start(t), events).tasks[i].status == Rows.Failed
  {
    var earlier, e := events[..|events| - 1], events[|events| - 1];
    var r := RunEvents(Start(t), earlier);
    var r' := RunEvents(Start(t), events);
    if r.status == Failed {
      FailedRunHasFailedTask(t, earlier);
      var i :| 0 <= i < |r.tasks| && r.tasks[i].status == Rows.Failed;
      assert r'.tasks[i].status == Rows.Failed;
    } else {
      AdvanceIsLawful(t, earlier);
    }
  }
}
