/**
  Answers to a background task's question: the respond view reads the row, checks it, and later writes
  status and transcript back without a lock, so other answers and workers may come in between.
 */
module AnswerRace {
  import opened Base
  import opened Executions
  import opened Tasks
  import opened Transcript
  import Rows

  /** The transcript and the question a view has read, and the answer it is about to write. */
  datatype Draft = Draft(stored: seq<RawMessage>, question: string, content: string)

  datatype Shared = Shared(tasks: Protocol, drafts: map<nat, Draft>)

  /** Everything but answers happens as in `Tasks`; a view `v` reads and writes in two steps. */
  datatype ViewEvent =
    | Step(e: Event)
    | Read(v: nat, content: string)
    | Write(v: nat)

  predicate AwaitsAnswer(row: Row) {
    row.status == Rows.NeedsInput && row.pending.Some? && row.pending.value != ""
  }

  function DraftOf(row: Row, content: string): Draft
    requires AwaitsAnswer(row)
  {
    Draft(row.stored, row.pending.value, content)
  }

  /** The view's update: status and state as computed from what it read. */
  function Written(row: Row, d: Draft): Row {
    row.(status := Rows.Pending, pending := None,
         stored := d.stored + [RawAnswer(d.question, d.content)])
  }

  ghost function ApplyView(s: Shared, e: ViewEvent): Shared {
    match e
    case Step(step) => if step.Answer? then s else s.(tasks := Apply(s.tasks, step))
    case Read(v, content) =>
      if AwaitsAnswer(s.tasks.row) && v !in s.drafts then
        s.(drafts := s.drafts[v := DraftOf(s.tasks.row, content)])
      else s
    case Write(v) =>
      if v in s.drafts then
        Shared(s.tasks.(row := Written(s.tasks.row, s.drafts[v])), s.drafts - {v})
      else s
  }

  ghost function RunViews(s: Shared, events: seq<ViewEvent>): Shared {
    Fold(ApplyView, s, events)
  }

  ghost function Begin(opening: seq<ChatMessage>): Shared {
    Shared(Fresh(opening), map[])
  }

  /** A view goes on exactly from a task that waits for input with a question of its own, and keeps what it read. */
  lemma ViewReadsQuestion(s: Shared, v: nat, content: string)
    requires v !in s.drafts
    ensures var row, s' := s.tasks.row, ApplyView(s, Read(v, content));
            && s'.tasks == s.tasks && s'.drafts - {v} == s.drafts
            && (v in s'.drafts <==> row.status == Rows.NeedsInput && row.pending.Some? && row.pending != Some(""))
            && (v in s'.drafts ==> s'.drafts[v] == Draft(row.stored, row.pending.value, content))
  {
    assert s.drafts - {v} == s.drafts;
  }

  // ---------------------------------------------------------------- when a write is an atomic answer

  /** The row still is as the view read it, its approvals aside. */
  ghost predicate StillAsRead(s: Shared, v: nat) {
    && v in s.drafts
    && var d := s.drafts[v];
       s.tasks.row.status == Rows.NeedsInput && s.tasks.row.stored == d.stored
       && s.tasks.row.pending == Some(d.question)
  }

  ghost predicate DraftsOk(s: Shared) {
    forall v :: v in s.drafts ==> s.drafts[v].question != ""
  }

  /** Every write of the run finds the row as it was read. */
  ghost predicate WritesAreFresh(opening: seq<ChatMessage>, events: seq<ViewEvent>) {
    events != [] ==>
      && WritesAreFresh(opening, events[..|events| - 1])
      && var s, e := RunViews(Begin(opening), events[..|events| - 1]), events[|events| - 1];
         e.Write? && e.v in s.drafts ==> StillAsRead(s, e.v)
  }

  lemma {:induction false} DraftsStayOk(opening: seq<ChatMessage>, events: seq<ViewEvent>)
    ensures DraftsOk(RunViews(Begin(opening), events))
  {
    if events != [] {
      DraftsStayOk(opening, events[..|events| - 1]);
    }
  }

  /**
    A write has the effect of the one-step answer that `Tasks` and all its results speak of exactly when it is fresh,
    or the row awaits no answer and already is what the write makes of it.
   */
  lemma WriteIsAnswerIff(s: Shared, v: nat)
    requires DraftsOk(s) && v in s.drafts
    ensures ApplyView(s, Write(v)).tasks == Apply(s.tasks, Answer(s.drafts[v].content)) <==>
            StillAsRead(s, v) || (!AwaitsAnswer(s.tasks.row) && Written(s.tasks.row, s.drafts[v]) == s.tasks.row)
  {
    var row, d := s.tasks.row, s.drafts[v];
    if AwaitsAnswer(row) {
      var theirs, ours := row.stored + [RawAnswer(row.pending.value, d.content)],
                          d.stored + [RawAnswer(d.question, d.content)];
      if theirs == ours {
        assert theirs[..|theirs| - 1] == row.stored && ours[..|ours| - 1] == d.stored;
        assert theirs[|theirs| - 1] == ours[|ours| - 1];
      }
    }
  }

  /** With fresh writes only, the run is a run of `Tasks`: exclusivity, single execution and the rest hold of it. */
  lemma {:induction false} FreshRunsAreAtomic(opening: seq<ChatMessage>, events: seq<ViewEvent>)
    returns (steps: seq<Event>)
    requires WritesAreFresh(opening, events)
    ensures Run(Fresh(opening), steps) == RunViews(Begin(opening), events).tasks
  {
    if events == [] {
      steps := [];
    } else {
      var s, e := RunViews(Begin(opening), events[..|events| - 1]), events[|events| - 1];
      var earlier := FreshRunsAreAtomic(opening, events[..|events| - 1]);
      DraftsStayOk(opening, events[..|events| - 1]);
      if e.Step? && !e.e.Answer? {
        FoldAppend(Apply, Fresh(opening), earlier, e.e);
        steps := earlier + [e.e];
      } else if e.Write? && e.v in s.drafts {
        WriteIsAnswerIff(s, e.v);
        FoldAppend(Apply, Fresh(opening), earlier, Answer(s.drafts[e.v].content));
        steps := earlier + [Answer(s.drafts[e.v].content)];
      } else {
        steps := earlier;
      }
    }
  }

  lemma FreshAnswersAreSafe(opening: seq<ChatMessage>, events: seq<ViewEvent>)
    requires ValidOpening(opening) && WritesAreFresh(opening, events)
    ensures Inv(RunViews(Begin(opening), events).tasks)
  {
    var steps := FreshRunsAreAtomic(opening, events);
    RunInv(opening, steps);
  }

  // ---------------------------------------------------------------- exactly when two workers meet

  ghost predicate OneWorker(s: Protocol) {
    forall w, v :: IsActive(s, w) && IsActive(s, v) ==> w == v
  }

  ghost predicate OneWorkerThroughout(opening: seq<ChatMessage>, events: seq<ViewEvent>) {
    && OneWorker(RunViews(Begin(opening), events).tasks)
    && (events != [] ==> OneWorkerThroughout(opening, events[..|events| - 1]))
  }

  /** A view writes over a task that a worker holds. */
  ghost predicate WritesOver(s: Shared, e: ViewEvent) {
    e.Write? && e.v in s.drafts && s.tasks.row.status == Rows.InProgress
  }

  /** Acts that set the status of the row. */
  predicate SetsStatus(act: Act) {
    !(act.BeginPass? || act.SkipCall? || act.ReplyUnattached? || act.CreateApproval? || act.ExecuteTool?)
  }

  /** A worker reports: it acts and sets the status of the row. */
  ghost predicate Reports(s: Shared, e: ViewEvent) {
    && e.Step? && e.e.Work? && SetsStatus(e.e.act) && IsActive(s.tasks, e.e.w)
    && WorkerStep(s.tasks.row, s.tasks.workers[e.e.w], e.e.act).Some?
  }

  ghost predicate Claims(s: Shared, e: ViewEvent) {
    e.Step? && e.e.Deliver? && Claimable(s.tasks.row) && !IsActive(s.tasks, e.e.w)
  }

  /** An answer was written over the held task, and nobody has reported since. */
  ghost predicate Exposed(opening: seq<ChatMessage>, events: seq<ViewEvent>) {
    events != [] &&
      var s, e := RunViews(Begin(opening), events[..|events| - 1]), events[|events| - 1];
      WritesOver(s, e) || (Exposed(opening, events[..|events| - 1]) && !Reports(s, e))
  }

  /** A delivery was claimed while the task was exposed. */
  ghost predicate Overtaken(opening: seq<ChatMessage>, events: seq<ViewEvent>) {
    events != [] &&
      (|| Overtaken(opening, events[..|events| - 1])
       || (Exposed(opening, events[..|events| - 1])
           && Claims(RunViews(Begin(opening), events[..|events| - 1]), events[|events| - 1])))
  }

  ghost predicate SomeoneActive(s: Protocol) {
    exists w :: IsActive(s, w)
  }

  /** While at most one worker is active, a task in progress has one, and an active one can only be written over. */
  ghost predicate HeldOk(s: Protocol) {
    && (s.row.status == Rows.InProgress ==> SomeoneActive(s))
    && (SomeoneActive(s) ==> s.row.status in {Rows.InProgress, Rows.Pending})
  }

  /** What an act of the only active worker does to who is active and to the status. */
  lemma WorkHolds(s: Protocol, w: nat, act: Act)
    requires OneWorker(s) && HeldOk(s) && IsActive(s, w) && WorkerStep(s.row, s.workers[w], act).Some?
    ensures var s' := Apply(s, Work(w, act));
            && OneWorker(s') && HeldOk(s')
            && (if SetsStatus(act) then s'.row.status == Rows.InProgress || !SomeoneActive(s')
                else SomeoneActive(s') && s'.row.status == s.row.status)
  {
    var s' := Apply(s, Work(w, act));
    var (row', wk') := WorkerStep(s.row, s.workers[w], act).value;
    forall v | IsActive(s', v) ensures v == w {
      if v != w { assert IsActive(s, v); }
    }
    assert IsActive(s', w) <==> wk'.Active?;
  }

  /** One step in a run that has kept to one worker: two of them meet exactly by a claim of an exposed task. */
  lemma StepMeets(s: Shared, e: ViewEvent)
    requires OneWorker(s.tasks) && HeldOk(s.tasks)
    ensures var s' := ApplyView(s, e).tasks;
            var exposed := SomeoneActive(s.tasks) && s.tasks.row.status == Rows.Pending;
            && (OneWorker(s') <==> !(exposed && Claims(s, e)))
            && (OneWorker(s') ==> HeldOk(s'))
            && (OneWorker(s') ==>
                  (SomeoneActive(s') && s'.row.status == Rows.Pending <==>
                     WritesOver(s, e) || (exposed && !Reports(s, e))))
  {
    var s' := ApplyView(s, e).tasks;
    if e.Step? && e.e.Work? && IsActive(s.tasks, e.e.w)
       && WorkerStep(s.tasks.row, s.tasks.workers[e.e.w], e.e.act).Some? {
      WorkHolds(s.tasks, e.e.w, e.e.act);
    } else if Claims(s, e) {
      ClaimMeets(s, e);
    } else {
      assert forall v :: IsActive(s', v) <==> IsActive(s.tasks, v);
    }
  }

  lemma ClaimMeets(s: Shared, e: ViewEvent)
    requires Claims(s, e)
    ensures var s' := ApplyView(s, e).tasks;
            && s'.row.status == Rows.InProgress && SomeoneActive(s')
            && (OneWorker(s') <==> !SomeoneActive(s.tasks))
  {
    var s' := ApplyView(s, e).tasks;
    assert IsActive(s', e.e.w);
    assert forall v :: v != e.e.w ==> (IsActive(s', v) <==> IsActive(s.tasks, v));
  }

  /** In a run of one worker the task is exposed exactly while its holder is active and its row says pending. */
  lemma {:induction false} ExposedIff(opening: seq<ChatMessage>, events: seq<ViewEvent>)
    requires OneWorkerThroughout(opening, events)
    ensures var s := RunViews(Begin(opening), events).tasks;
            HeldOk(s) && (Exposed(opening, events) <==> SomeoneActive(s) && s.row.status == Rows.Pending)
  {
    if events != [] {
      ExposedIff(opening, events[..|events| - 1]);
      StepMeets(RunViews(Begin(opening), events[..|events| - 1]), events[|events| - 1]);
    }
  }

  /**
    Over any run: at most one worker holds the task throughout, exactly when no delivery is claimed between an answer
    written over the held task and its holder's next report.
   */
  lemma {:induction false} OneWorkerIffNotOvertaken(opening: seq<ChatMessage>, events: seq<ViewEvent>)
    ensures OneWorkerThroughout(opening, events) <==> !Overtaken(opening, events)
  {
    if events != [] {
      var earlier := events[..|events| - 1];
      OneWorkerIffNotOvertaken(opening, earlier);
      if OneWorkerThroughout(opening, earlier) {
        ExposedIff(opening, earlier);
        StepMeets(RunViews(Begin(opening), earlier), events[|events| - 1]);
      }
    }
  }

  // ---------------------------------------------------------------- exactly when an ended task reopens

  ghost predicate WritesOverEnded(s: Shared, e: ViewEvent) {
    e.Write? && e.v in s.drafts && Rows.Ended(s.tasks.row.status)
  }

  ghost predicate NeverWritesOverEnded(opening: seq<ChatMessage>, events: seq<ViewEvent>) {
    events != [] ==>
      && NeverWritesOverEnded(opening, events[..|events| - 1])
      && !WritesOverEnded(RunViews(Begin(opening), events[..|events| - 1]), events[|events| - 1])
  }

  /** An ended row keeps everything but its approvals. */
  ghost predicate EndKept(s: Shared, s': Shared) {
    Rows.Ended(s.tasks.row.status) ==> s'.tasks.row == s.tasks.row.(approvals := s'.tasks.row.approvals)
  }

  ghost predicate EndedStays(opening: seq<ChatMessage>, events: seq<ViewEvent>) {
    events != [] ==>
      && EndedStays(opening, events[..|events| - 1])
      && EndKept(RunViews(Begin(opening), events[..|events| - 1]), RunViews(Begin(opening), events))
  }

  lemma EndKeptIff(s: Shared, e: ViewEvent)
    requires HeldOk(s.tasks)
    ensures EndKept(s, ApplyView(s, e)) <==> !WritesOverEnded(s, e)
  {
    if Rows.Ended(s.tasks.row.status) {
      assert forall w :: !IsActive(s.tasks, w);
    }
  }

  /** In a run of one worker, ended tasks stay ended exactly when no answer is written over an ended one. */
  lemma {:induction false} EndedStaysIff(opening: seq<ChatMessage>, events: seq<ViewEvent>)
    requires OneWorkerThroughout(opening, events)
    ensures EndedStays(opening, events) <==> NeverWritesOverEnded(opening, events)
  {
    if events != [] {
      var earlier := events[..|events| - 1];
      EndedStaysIff(opening, earlier);
      ExposedIff(opening, earlier);
      EndKeptIff(RunViews(Begin(opening), earlier), events[|events| - 1]);
    }
  }

  // ---------------------------------------------------------------- exactly when a call executes twice

  /** An answer is written while nobody works, from a transcript without the reply of the executed call `id`. */
  ghost predicate Forgets(s: Shared, e: ViewEvent, id: string) {
    && e.Write? && e.v in s.drafts && !SomeoneActive(s.tasks) && id in LoggedKeys(s.tasks.row.log)
    && !HasReply(Loaded(Written(s.tasks.row, s.drafts[e.v]), s.tasks.opening), id)
  }

  ghost predicate Forgotten(opening: seq<ChatMessage>, events: seq<ViewEvent>, id: string) {
    events != [] &&
      (|| Forgotten(opening, events[..|events| - 1], id)
       || Forgets(RunViews(Begin(opening), events[..|events| - 1]), events[|events| - 1], id))
  }

  /** A worker executes the call `id`, successfully or not. */
  ghost predicate Executes(s: Shared, e: ViewEvent, id: string) {
    && e.Step? && e.e.Work? && (e.e.act.ExecuteTool? || e.e.act.ExecuteRaises?) && IsActive(s.tasks, e.e.w)
    && WorkerStep(s.tasks.row, s.tasks.workers[e.e.w], e.e.act).Some?
    && AtCall(s.tasks.workers[e.e.w]).value.id == id
  }

  ghost predicate Reruns(opening: seq<ChatMessage>, earlier: seq<ViewEvent>, e: ViewEvent) {
    exists id :: Forgotten(opening, earlier, id) && Executes(RunViews(Begin(opening), earlier), e, id)
  }

  /** A call was executed after an answer had forgotten it. */
  ghost predicate Reran(opening: seq<ChatMessage>, events: seq<ViewEvent>) {
    events != [] &&
      (Reran(opening, events[..|events| - 1]) || Reruns(opening, events[..|events| - 1], events[|events| - 1]))
  }

  lemma ReloadKeepsReplies(ms: seq<ChatMessage>, id: string)
    ensures HasReply(DeserializeAll(SerializeAll(ms)), id) <==> HasReply(ms, id)
  {
    var back := DeserializeAll(SerializeAll(ms));
    assert forall i :: 0 <= i < |ms| ==> (IsReplyTo(back[i], id) <==> IsReplyTo(ms[i], id));
  }

  /** The call's reply is where the next worker to execute will look for it. */
  ghost predicate Remembered(s: Protocol, id: string) {
    && (forall w :: IsActive(s, w) ==> HasReply(s.workers[w].messages, id))
    && (!SomeoneActive(s) && !Rows.Ended(s.row.status) ==> HasReply(Loaded(s.row, s.opening), id))
  }

  /** Only an execution adds to the history. */
  lemma LogGrows(s: Shared, e: ViewEvent)
    ensures var log, log' := s.tasks.row.log, ApplyView(s, e).tasks.row.log;
            && (forall id :: Executes(s, e, id) ==> LoggedKeys(log') == LoggedKeys(log) + [id])
            && ((forall id :: !Executes(s, e, id)) ==> log' == log)
  {
    if e.Step? && e.e.Work? && IsActive(s.tasks, e.e.w)
       && WorkerStep(s.tasks.row, s.tasks.workers[e.e.w], e.e.act).Some? {
      assert (e.e.act.ExecuteTool? || e.e.act.ExecuteRaises?) ==>
               Executes(s, e, AtCall(s.tasks.workers[e.e.w]).value.id);
    }
  }

  /** The worker's act keeps a reply, or adds that of the call it executes. */
  lemma WorkRemembers(s: Protocol, w: nat, act: Act, id: string)
    requires OneWorker(s) && IsActive(s, w) && WorkerStep(s.row, s.workers[w], act).Some?
    requires Remembered(s, id) || (act.ExecuteTool? && AtCall(s.workers[w]).value.id == id)
             || act.ExecuteRaises?
    ensures Remembered(Apply(s, Work(w, act)), id)
  {
    var s' := Apply(s, Work(w, act));
    var (row', wk') := WorkerStep(s.row, s.workers[w], act).value;
    var ms := s.workers[w].messages;
    forall v | IsActive(s', v) ensures v == w {
      if v != w { assert IsActive(s, v); }
    }
    assert IsActive(s', w) <==> wk'.Active?;
    if wk'.Active? {
      KeepsReplies(s.row, s.workers[w], act, id);
    } else {
      StoresReplies(s.row, s.workers[w], act, s.opening, id);
    }
  }

  lemma KeepsReplies(row: Row, wk: Worker, act: Act, id: string)
    requires wk.Active? && WorkerStep(row, wk, act).Some? && WorkerStep(row, wk, act).value.1.Active?
    requires HasReply(wk.messages, id) || (act.ExecuteTool? && AtCall(wk).value.id == id)
    ensures HasReply(WorkerStep(row, wk, act).value.1.messages, id)
  {
    var ms' := WorkerStep(row, wk, act).value.1.messages;
    if |ms'| > |wk.messages| {
      HasReplyAppend(wk.messages, ms'[|wk.messages|], id);
      assert ms' == wk.messages + [ms'[|wk.messages|]];
    }
  }

  lemma StoresReplies(row: Row, wk: Worker, act: Act, opening: seq<ChatMessage>, id: string)
    requires wk.Active? && WorkerStep(row, wk, act).Some? && WorkerStep(row, wk, act).value.1.Idle?
    requires HasReply(wk.messages, id) || act.ExecuteRaises?
    ensures var row' := WorkerStep(row, wk, act).value.0;
            Rows.Ended(row'.status) || HasReply(Loaded(row', opening), id)
  {
    ReloadKeepsReplies(wk.messages, id);
  }

  /** Every executed call is remembered, or an answer has forgotten it. */
  lemma {:induction false} RememberedOrForgotten(opening: seq<ChatMessage>, events: seq<ViewEvent>, id: string)
    requires OneWorkerThroughout(opening, events)
    ensures var s := RunViews(Begin(opening), events).tasks;
            id in LoggedKeys(s.row.log) ==> Remembered(s, id) || Forgotten(opening, events, id)
  {
    if events != [] {
      var earlier, e := events[..|events| - 1], events[|events| - 1];
      RememberedOrForgotten(opening, earlier, id);
      ExposedIff(opening, earlier);
      if !Forgotten(opening, events, id) {
        StepRemembers(RunViews(Begin(opening), earlier), e, id);
      }
    }
  }

  lemma StepRemembers(s: Shared, e: ViewEvent, id: string)
    requires OneWorker(s.tasks) && OneWorker(ApplyView(s, e).tasks) && !Forgets(s, e, id)
    requires id in LoggedKeys(s.tasks.row.log) ==> Remembered(s.tasks, id)
    ensures var s' := ApplyView(s, e).tasks; id in LoggedKeys(s'.row.log) ==> Remembered(s', id)
  {
    var s' := ApplyView(s, e).tasks;
    LogGrows(s, e);
    if id in LoggedKeys(s'.row.log) {
      if e.Step? && e.e.Work? && IsActive(s.tasks, e.e.w)
         && WorkerStep(s.tasks.row, s.tasks.workers[e.e.w], e.e.act).Some? {
        WorkRemembers(s.tasks, e.e.w, e.e.act, id);
      } else if Claims(s, e) {
        ClaimMeets(s, e);
        assert IsActive(s', e.e.w);
      } else {
        assert forall v :: IsActive(s', v) <==> IsActive(s.tasks, v);
      }
    }
  }

  lemma {:induction false} ForgottenRan(opening: seq<ChatMessage>, events: seq<ViewEvent>, id: string)
    requires Forgotten(opening, events, id)
    ensures id in LoggedKeys(RunViews(Begin(opening), events).tasks.row.log)
  {
    var earlier, e := events[..|events| - 1], events[|events| - 1];
    var s := RunViews(Begin(opening), earlier);
    if Forgotten(opening, earlier, id) {
      ForgottenRan(opening, earlier, id);
    }
    LogGrows(s, e);
    if other :| Executes(s, e, other) {
      assert LoggedKeys(ApplyView(s, e).tasks.row.log) == LoggedKeys(s.tasks.row.log) + [other];
    }
  }

  /**
    In a run of one worker, no call executes twice exactly when no call executes again after an answer was written
    from a transcript without its reply.
   */
  lemma {:induction false} ExecutedOnceIff(opening: seq<ChatMessage>, events: seq<ViewEvent>)
    requires OneWorkerThroughout(opening, events)
    ensures Distinct(LoggedKeys(RunViews(Begin(opening), events).tasks.row.log)) <==> !Reran(opening, events)
  {
    if events != [] {
      var earlier, e := events[..|events| - 1], events[|events| - 1];
      var s := RunViews(Begin(opening), earlier);
      ExecutedOnceIff(opening, earlier);
      LogGrows(s, e);
      if id :| Executes(s, e, id) {
        RememberedOrForgotten(opening, earlier, id);
        if Forgotten(opening, earlier, id) { ForgottenRan(opening, earlier, id); }
        OneMoreDistinct(LoggedKeys(s.tasks.row.log), id);
        assert forall other :: Executes(s, e, other) ==> other == id;
      }
    }
  }

  lemma OneMoreDistinct(ids: seq<string>, id: string)
    ensures Distinct(ids + [id]) <==> Distinct(ids) && id !in ids
  {
    var all := ids + [id];
    assert all[|ids|] == id && forall i :: 0 <= i < |ids| ==> all[i] == ids[i];
    if Distinct(all) {
      forall i | 0 <= i < |ids| ensures ids[i] != id { assert all[i] != all[|ids|]; }
      forall i, j | 0 <= i < j < |ids| ensures ids[i] != ids[j] { assert all[i] != all[j]; }
    }
  }
}
