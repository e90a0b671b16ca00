/**
  Concrete runs of two people who answer the same question of a task: they end with two workers on it, or
  reopen it after its end and make a call execute a second time.
 */
module AnswerRuns {
  import opened AnswerRace
  import opened Approvals
  import opened Base
  import opened Executions
  import opened Tasks
  import opened Transcript
  import Gates
  import Rows

  // ---------------------------------------------------------------- the question

  const QUESTION := ToolCall("q", ASK_USER, "")
  const SEND := ToolCall("a", "send", "")
  const CALLS := [QUESTION, SEND]

  /** The model asks the person and names another call in the same message. */
  function Asks(): seq<Event> {
    [Deliver(0, 2), Work(0, CallModel(Response("", CALLS))), Work(0, BeginPass), Work(0, AskUser)]
  }

  function AskedTranscript(opening: seq<ChatMessage>): seq<ChatMessage> {
    opening + [AssistantMessage(Response("", CALLS))]
  }

  /** The transcript once the question is answered, and once the other call has its reply too. */
  function AnsweredTranscript(opening: seq<ChatMessage>, content: string): seq<ChatMessage> {
    AskedTranscript(opening) + [Reply("q", content)]
  }

  function SentTranscript(opening: seq<ChatMessage>, content: string, output: string): seq<ChatMessage> {
    AnsweredTranscript(opening, content) + [Reply("a", output)]
  }

  lemma {:induction false} NoCallsNothingOpen(ms: seq<ChatMessage>, n: nat)
    requires n <= |ms| && forall i :: 0 <= i < n ==> Calls(ms[i]) == []
    ensures UnresolvedBelow(ms, n).None?
  {
    if n > 0 {
      NoCallsNothingOpen(ms, n - 1);
    }
  }

  /** Above the message with the calls there are only replies, so its calls are the only ones that can be open. */
  lemma {:induction false} OnlyItsCallsOpen(opening: seq<ChatMessage>, ms: seq<ChatMessage>, n: nat)
    requires ValidOpening(opening) && AskedTranscript(opening) <= ms && |opening| < n <= |ms|
    requires forall i :: |opening| < i < n ==> Calls(ms[i]) == []
    ensures UnresolvedBelow(ms, n) == if Unanswered(ms, CALLS) then Some(CALLS) else None
  {
    assert ms[|opening|] == AskedTranscript(opening)[|opening|];
    if n == |opening| + 1 {
      assert forall i :: 0 <= i < |opening| ==> ms[i] == AskedTranscript(opening)[i] == opening[i];
      NoCallsNothingOpen(ms, |opening|);
    } else {
      OnlyItsCallsOpen(opening, ms, n - 1);
    }
  }

  lemma WhatIsOpen(opening: seq<ChatMessage>, content: string, output: string)
    requires ValidOpening(opening)
    ensures Unresolved(opening).None?
    ensures var ms := AskedTranscript(opening);
            Unresolved(ms) == Some(CALLS) && !HasReply(ms, "q") && !HasReply(ms, "a")
    ensures var ms := AnsweredTranscript(opening, content);
            Unresolved(ms) == Some(CALLS) && HasReply(ms, "q") && !HasReply(ms, "a")
    ensures Unresolved(SentTranscript(opening, content, output)).None?
  {
    var asked, answered := AskedTranscript(opening), AnsweredTranscript(opening, content);
    var sent := SentTranscript(opening, content, output);
    NoCallsNothingOpen(opening, |opening|);
    OpenIffUnanswered(opening, content, output);
    WhatIsReplied(opening, content, output);
    assert CALLS[0].id == "q" && CALLS[1].id == "a";
    assert !HasReply(asked, CALLS[0].id) && !HasReply(answered, CALLS[1].id);
    assert forall i :: 0 <= i < |CALLS| ==> HasReply(sent, CALLS[i].id);
  }

  lemma WhatIsReplied(opening: seq<ChatMessage>, content: string, output: string)
    requires ValidOpening(opening)
    ensures forall id :: HasReply(AskedTranscript(opening), id) ==> id != "q" && id != "a"
    ensures forall id :: HasReply(AnsweredTranscript(opening, content), id) ==> id != "a"
    ensures HasReply(AnsweredTranscript(opening, content), "q")
    ensures HasReply(SentTranscript(opening, content, output), "q")
    ensures HasReply(SentTranscript(opening, content, output), "a")
  {
    forall id: string { HasReplyAppend(opening, AssistantMessage(Response("", CALLS)), id); }
    forall id: string { HasReplyAppend(AskedTranscript(opening), Reply("q", content), id); }
    forall id: string { HasReplyAppend(AnsweredTranscript(opening, content), Reply("a", output), id); }
  }

  lemma OpenIffUnanswered(opening: seq<ChatMessage>, content: string, output: string)
    requires ValidOpening(opening)
    ensures var ms := AskedTranscript(opening); Unresolved(ms) == if Unanswered(ms, CALLS) then Some(CALLS) else None
    ensures var ms := AnsweredTranscript(opening, content);
            Unresolved(ms) == if Unanswered(ms, CALLS) then Some(CALLS) else None
    ensures var ms := SentTranscript(opening, content, output);
            Unresolved(ms) == if Unanswered(ms, CALLS) then Some(CALLS) else None
  {
    OnlyItsCallsOpen(opening, AskedTranscript(opening), |opening| + 1);
    OnlyItsCallsOpen(opening, AnsweredTranscript(opening, content), |opening| + 2);
    OnlyItsCallsOpen(opening, SentTranscript(opening, content, output), |opening| + 3);
  }

  /** The task then awaits an answer, and nobody works on it. */
  function Awaiting(opening: seq<ChatMessage>): Protocol {
    Protocol(opening, Row(Rows.NeedsInput, SerializeAll(AskedTranscript(opening)), Some("q"), [], []), map[0 := Idle])
  }

  lemma AsksReachesQuestion(opening: seq<ChatMessage>)
    requires ValidOpening(opening)
    ensures Run(Fresh(opening), Asks()) == Awaiting(opening)
  {
    var es, ms := Asks(), AskedTranscript(opening);
    WhatIsOpen(opening, "", "");
    FoldFour(Apply, Fresh(opening), es[0], es[1], es[2], es[3]);
    AskSteps(opening, ms);
  }

  lemma AskSteps(opening: seq<ChatMessage>, ms: seq<ChatMessage>)
    requires Unresolved(opening).None? && ms == AskedTranscript(opening)
    requires Unresolved(ms) == Some(CALLS) && !HasReply(ms, "q")
    ensures Apply(Apply(Apply(Apply(Fresh(opening), Asks()[0]), Asks()[1]), Asks()[2]), Asks()[3]) == Awaiting(opening)
  {
    var row := Claimed(Fresh(opening).row);
    var stored := Report(row, Rows.InProgress, ms);
    assert CALLS[0] == QUESTION;
    assert map[][0 := Active(opening, 2, Top)] == map[0 := Active(opening, 2, Top)];
    WorkMoves(opening, row, map[], 0, Active(opening, 2, Top), Work(0, CallModel(Response("", CALLS))),
              stored, Active(ms, 1, Top));
    WorkMoves(opening, stored, map[], 0, Active(ms, 1, Top), Work(0, BeginPass),
              stored, Active(ms, 0, InPass(CALLS, 0)));
    WorkMoves(opening, stored, map[], 0, Active(ms, 0, InPass(CALLS, 0)), Work(0, AskUser),
              Awaiting(opening).row, Idle);
    assert map[][0 := Idle] == map[0 := Idle];
  }

  /** One act of worker `w`, from its own state to its next. */
  lemma WorkMoves(opening: seq<ChatMessage>, row: Row, workers: map<nat, Worker>, w: nat, wk: Worker, e: Event,
                  row': Row, wk': Worker)
    requires wk.Active? && e.Work? && e.w == w && WorkerStep(row, wk, e.act) == Some((row', wk'))
    ensures Apply(Protocol(opening, row, workers[w := wk]), e) == Protocol(opening, row', workers[w := wk'])
  {
    assert workers[w := wk][w := wk'] == workers[w := wk'];
  }

  function Stepped(es: seq<Event>): seq<ViewEvent> {
    if es == [] then [] else Stepped(es[..|es| - 1]) + [Step(es[|es| - 1])]
  }

  lemma {:induction false} SteppedRuns(s: Shared, es: seq<Event>)
    requires forall k :: 0 <= k < |es| ==> !es[k].Answer?
    ensures RunViews(s, Stepped(es)) == s.(tasks := Run(s.tasks, es))
  {
    if es != [] {
      var earlier, last := es[..|es| - 1], es[|es| - 1];
      SteppedRuns(s, earlier);
      FoldAppend(ApplyView, s, Stepped(earlier), Step(last));
      FoldAppend(Apply, s.tasks, earlier, last);
      assert earlier + [last] == es;
    }
  }

  lemma QuestionIsAsked(opening: seq<ChatMessage>)
    requires ValidOpening(opening)
    ensures RunViews(Begin(opening), Stepped(Asks())) == Shared(Awaiting(opening), map[])
  {
    SteppedRuns(Begin(opening), Asks());
    AsksReachesQuestion(opening);
  }

  // ---------------------------------------------------------------- two workers

  /** Two people answer the same question; between their writes a worker resumes the task,
      and after them another does. */
  function Race(one: string, other: string): seq<ViewEvent> {
    [Read(0, one), Read(1, other), Write(0), Step(Deliver(1, 1)), Write(1), Step(Deliver(2, 1))]
  }

  lemma BothRead(s: Shared, one: string, other: string)
    requires s.drafts == map[] && AwaitsAnswer(s.tasks.row)
    ensures ApplyView(ApplyView(s, Read(0, one)), Read(1, other)) ==
            Shared(s.tasks, map[0 := DraftOf(s.tasks.row, one), 1 := DraftOf(s.tasks.row, other)])
  {
  }

  /** A write followed by a delivery to an idle worker: whoever held the task, that worker now does too. */
  lemma WriteThenDeliver(s: Shared, v: nat, w: nat)
    requires v in s.drafts && !IsActive(s.tasks, w)
    ensures var s' := ApplyView(ApplyView(s, Write(v)), Step(Deliver(w, 1)));
            && IsActive(s'.tasks, w) && s'.drafts == s.drafts - {v}
            && forall u :: u != w ==> (IsActive(s'.tasks, u) <==> IsActive(s.tasks, u))
  {
  }

  lemma RaceFromQuestion(s: Shared, one: string, other: string)
    requires s.drafts == map[] && AwaitsAnswer(s.tasks.row) && forall w :: !IsActive(s.tasks, w)
    ensures var s' := RunViews(s, Race(one, other)).tasks; IsActive(s', 1) && IsActive(s', 2)
  {
    var es := Race(one, other);
    assert es[..0] == [] && es[..6] == es;
    FoldTwo(ApplyView, s, es, 0);
    BothRead(s, one, other);
    FoldTwo(ApplyView, s, es, 2);
    WriteThenDeliver(RunViews(s, es[..2]), 0, 1);
    FoldTwo(ApplyView, s, es, 4);
    WriteThenDeliver(RunViews(s, es[..4]), 1, 2);
  }

  /** So it does happen: two people answer one question, and two workers end up with the task. */
  lemma RacingAnswersShareATask(opening: seq<ChatMessage>, one: string, other: string)
    requires ValidOpening(opening)
    ensures !OneWorker(RunViews(Begin(opening), Stepped(Asks()) + Race(one, other)).tasks)
  {
    QuestionIsAsked(opening);
    RaceFromQuestion(Shared(Awaiting(opening), map[]), one, other);
    FoldConcat(ApplyView, Begin(opening), Stepped(Asks()), Race(one, other));
  }

  // ---------------------------------------------------------------- a second life, a second execution

  function BothAnswer(one: string, other: string): seq<ViewEvent> {
    [Read(0, one), Read(1, other)]
  }

  /** What the row becomes when view `v`, which read the question, writes its answer over it. */
  function Reopened(opening: seq<ChatMessage>, row: Row, content: string): Row {
    row.(status := Rows.Pending, pending := None,
         stored := SerializeAll(AskedTranscript(opening)) + [RawAnswer("q", content)])
  }

  function DraftFor(opening: seq<ChatMessage>, content: string): Draft {
    Draft(SerializeAll(AskedTranscript(opening)), "q", content)
  }

  lemma ReopenedLoads(opening: seq<ChatMessage>, row: Row, content: string)
    requires ValidOpening(opening)
    ensures Loaded(Reopened(opening, row, content), opening) == AnsweredTranscript(opening, content)
  {
    var ms := AskedTranscript(opening);
    assert Generated(opening, ms) by {
      WhatIsOpen(opening, "", "");
      GeneratedAppend(opening, opening, AssistantMessage(Response("", CALLS)));
    }
    GeneratedIsPlain(opening, ms);
    ReloadUndoesStore(ms);
    AnswerReadsBackAsReply(SerializeAll(ms), "q", content);
  }

  /** Worker `w` claims the task and executes the call that has no reply. */
  function Sends(w: nat, gate: Gates.GateInput, output: string): seq<Event> {
    [Deliver(w, 3), Work(w, BeginPass), Work(w, SkipCall), Work(w, ExecuteTool(gate, output))]
  }

  /** The protocol after that, for a row that was reopened. */
  function Sending(opening: seq<ChatMessage>, row: Row, workers: map<nat, Worker>, w: nat, content: string,
                   gate: Gates.GateInput, output: string): Protocol
  {
    Protocol(opening,
             Reopened(opening, row, content).(status := Rows.InProgress,
                                              log := row.log + [Execution("a", ByGate(gate))]),
             workers[w := Active(SentTranscript(opening, content, output), 2, InPass(CALLS, 2))])
  }

  lemma SendsOnce(opening: seq<ChatMessage>, row: Row, workers: map<nat, Worker>, w: nat, content: string,
                  gate: Gates.GateInput, output: string)
    requires ValidOpening(opening) && row.approvals == [] && (w in workers ==> workers[w].Idle?)
    requires Gates.TaskVerdict(gate, false) == Gates.Execute
    ensures Run(Protocol(opening, Reopened(opening, row, content), workers), Sends(w, gate, output)) ==
            Sending(opening, row, workers, w, content, gate, output)
  {
    var es := Sends(w, gate, output);
    var s := Protocol(opening, Reopened(opening, row, content), workers);
    ReopenedLoads(opening, row, content);
    WhatIsOpen(opening, content, output);
    FoldFour(Apply, s, es[0], es[1], es[2], es[3]);
    SendSteps(opening, row, workers, w, content, gate, output);
  }

  lemma SendSteps(opening: seq<ChatMessage>, row: Row, workers: map<nat, Worker>, w: nat, content: string,
                  gate: Gates.GateInput, output: string)
    requires row.approvals == [] && (w in workers ==> workers[w].Idle?)
    requires Gates.TaskVerdict(gate, false) == Gates.Execute
    requires var ms := AnsweredTranscript(opening, content);
             && Loaded(Reopened(opening, row, content), opening) == ms
             && Unresolved(ms) == Some(CALLS) && HasReply(ms, "q") && !HasReply(ms, "a")
    ensures var es := Sends(w, gate, output);
            Apply(Apply(Apply(Apply(Protocol(opening, Reopened(opening, row, content), workers), es[0]), es[1]), es[2]),
                  es[3]) == Sending(opening, row, workers, w, content, gate, output)
  {
    var ms, es := AnsweredTranscript(opening, content), Sends(w, gate, output);
    var held := Reopened(opening, row, content).(status := Rows.InProgress);
    assert CALLS[0].id == "q" && CALLS[1] == SEND;
    WorkMoves(opening, held, workers, w, Active(ms, 3, Top), es[1], held, Active(ms, 2, InPass(CALLS, 0)));
    WorkMoves(opening, held, workers, w, Active(ms, 2, InPass(CALLS, 0)), es[2],
              held, Active(ms, 2, InPass(CALLS, 1)));
    WorkMoves(opening, held, workers, w, Active(ms, 2, InPass(CALLS, 1)), es[3],
              held.(log := row.log + [Execution("a", ByGate(gate))]),
              Active(SentTranscript(opening, content, output), 2, InPass(CALLS, 2)));
  }

  /** Then it ends the task with a final answer. */
  function Ends(w: nat): seq<Event> {
    [Work(w, EndPass), Work(w, CallModel(Response("", [])))]
  }

  lemma EndsAfterSending(opening: seq<ChatMessage>, row: Row, workers: map<nat, Worker>, w: nat, content: string,
                         gate: Gates.GateInput, output: string)
    requires ValidOpening(opening)
    ensures var s := Run(Sending(opening, row, workers, w, content, gate, output), Ends(w));
            && s.opening == opening && s.row.status == Rows.Completed && s.row.approvals == row.approvals
            && s.row.log == row.log + [Execution("a", ByGate(gate))] && s.workers == workers[w := Idle]
  {
    WhatIsOpen(opening, content, output);
    PassEnds(opening, Sending(opening, row, workers, w, content, gate, output).row, workers, w,
             SentTranscript(opening, content, output));
  }

  lemma PassEnds(opening: seq<ChatMessage>, row: Row, workers: map<nat, Worker>, w: nat, ms: seq<ChatMessage>)
    requires Unresolved(ms).None?
    ensures Run(Protocol(opening, row, workers[w := Active(ms, 2, InPass(CALLS, 2))]), Ends(w)) ==
            Protocol(opening, Report(row, Rows.Completed, ms + [AssistantMessage(Response("", []))]),
                     workers[w := Idle])
  {
    var s, es := Protocol(opening, row, workers[w := Active(ms, 2, InPass(CALLS, 2))]), Ends(w);
    assert es[..0] == [] && es[..2] == es;
    FoldTwo(Apply, s, es, 0);
    LastActs(row, ms);
    var row1 := Report(row, Rows.InProgress, ms);
    WorkMoves(opening, row, workers, w, Active(ms, 2, InPass(CALLS, 2)), es[0], row1, Active(ms, 2, Top));
    WorkMoves(opening, row1, workers, w, Active(ms, 2, Top), es[1],
              Report(row, Rows.Completed, ms + [AssistantMessage(Response("", []))]), Idle);
  }

  lemma LastActs(row: Row, ms: seq<ChatMessage>)
    requires Unresolved(ms).None?
    ensures var row1 := Report(row, Rows.InProgress, ms);
            && WorkerStep(row, Active(ms, 2, InPass(CALLS, 2)), EndPass) == Some((row1, Active(ms, 2, Top)))
            && WorkerStep(row1, Active(ms, 2, Top), CallModel(Response("", []))) ==
               Some((Report(row, Rows.Completed, ms + [AssistantMessage(Response("", []))]), Idle))
  {
  }

  /** The first answer, and a worker that executes the call and completes the task. */
  function FirstLife(one: string, gate: Gates.GateInput, output: string): seq<ViewEvent> {
    [Write(0)] + Stepped(Sends(1, gate, output)) + Stepped(Ends(1))
  }

  /** The late answer, and another worker. */
  function SecondLife(gate: Gates.GateInput, output: string): seq<ViewEvent> {
    [Write(1)] + Stepped(Sends(2, gate, output))
  }

  function AnswersTwice(one: string, other: string, gate: Gates.GateInput, output: string): seq<ViewEvent> {
    Stepped(Asks()) + BothAnswer(one, other) + FirstLife(one, gate, output) + SecondLife(gate, output)
  }

  lemma RunOneView(s: Shared, e: ViewEvent)
    ensures RunViews(s, [e]) == ApplyView(s, e)
  {
    assert [] + [e] == [e];
    FoldAppend(ApplyView, s, [], e);
  }

  lemma BothReadQuestion(opening: seq<ChatMessage>, one: string, other: string)
    ensures RunViews(Shared(Awaiting(opening), map[]), BothAnswer(one, other)) ==
            Shared(Awaiting(opening), map[0 := DraftFor(opening, one), 1 := DraftFor(opening, other)])
  {
    var s, es := Shared(Awaiting(opening), map[]), BothAnswer(one, other);
    assert es[..0] == [] && es[..2] == es;
    FoldTwo(ApplyView, s, es, 0);
    BothRead(s, one, other);
  }

  lemma FirstLifeEnds(opening: seq<ChatMessage>, one: string, other: string, gate: Gates.GateInput, output: string)
    requires ValidOpening(opening) && Gates.TaskVerdict(gate, false) == Gates.Execute
    ensures var s := Shared(Awaiting(opening), map[0 := DraftFor(opening, one), 1 := DraftFor(opening, other)]);
            var s' := RunViews(s, FirstLife(one, gate, output));
            && s'.drafts == map[1 := DraftFor(opening, other)] && s'.tasks.opening == opening
            && s'.tasks.row.status == Rows.Completed && s'.tasks.row.approvals == []
            && s'.tasks.row.log == [Execution("a", ByGate(gate))] && s'.tasks.workers == map[0 := Idle, 1 := Idle]
  {
    var s := Shared(Awaiting(opening), map[0 := DraftFor(opening, one), 1 := DraftFor(opening, other)]);
    var row := Awaiting(opening).row;
    var s1 := ApplyView(s, Write(0));
    assert s1.drafts == map[1 := DraftFor(opening, other)];
    assert s1.tasks == Protocol(opening, Reopened(opening, row, one), map[0 := Idle]);
    RunOneView(s, Write(0));
    SteppedRuns(s1, Sends(1, gate, output));
    SendsOnce(opening, row, map[0 := Idle], 1, one, gate, output);
    SteppedRuns(RunViews(s1, Stepped(Sends(1, gate, output))), Ends(1));
    EndsAfterSending(opening, row, map[0 := Idle], 1, one, gate, output);
    FoldConcat(ApplyView, s, [Write(0)], Stepped(Sends(1, gate, output)));
    FoldConcat(ApplyView, s, [Write(0)] + Stepped(Sends(1, gate, output)), Stepped(Ends(1)));
  }

  lemma SecondLifeSends(s: Shared, opening: seq<ChatMessage>, other: string, gate: Gates.GateInput, output: string)
    requires ValidOpening(opening) && Gates.TaskVerdict(gate, false) == Gates.Execute
    requires s.drafts == map[1 := DraftFor(opening, other)] && s.tasks.opening == opening
    requires s.tasks.row.approvals == [] && s.tasks.workers == map[0 := Idle, 1 := Idle]
    ensures RunViews(s, SecondLife(gate, output)).tasks.row.log == s.tasks.row.log + [Execution("a", ByGate(gate))]
  {
    var row := s.tasks.row;
    var s1 := ApplyView(s, Write(1));
    assert s1.tasks == Protocol(opening, Reopened(opening, row, other), map[0 := Idle, 1 := Idle]);
    RunOneView(s, Write(1));
    SteppedRuns(s1, Sends(2, gate, output));
    SendsOnce(opening, row, map[0 := Idle, 1 := Idle], 2, other, gate, output);
    FoldConcat(ApplyView, s, [Write(1)], Stepped(Sends(2, gate, output)));
  }

  /**
    So this happens too: the second of two answers arrives when the task is completed. It makes the task pending
    again, without the reply of a call that was executed meanwhile, and the call executes a second time.
   */
  lemma LateAnswerReopensTask(opening: seq<ChatMessage>, one: string, other: string, gate: Gates.GateInput,
                              output: string)
    requires ValidOpening(opening) && Gates.TaskVerdict(gate, false) == Gates.Execute
    ensures var first := Stepped(Asks()) + BothAnswer(one, other) + FirstLife(one, gate, output);
            var s := RunViews(Begin(opening), first);
            s.tasks.row.status == Rows.Completed && ApplyView(s, Write(1)).tasks.row.status == Rows.Pending
    ensures LoggedKeys(RunViews(Begin(opening), AnswersTwice(one, other, gate, output)).tasks.row.log) == ["a", "a"]
  {
    var first := Stepped(Asks()) + BothAnswer(one, other) + FirstLife(one, gate, output);
    FirstLifeFromStart(opening, one, other, gate, output);
    SecondLifeSends(RunViews(Begin(opening), first), opening, other, gate, output);
    FoldConcat(ApplyView, Begin(opening), first, SecondLife(gate, output));
  }

  lemma FirstLifeFromStart(opening: seq<ChatMessage>, one: string, other: string, gate: Gates.GateInput,
                           output: string)
    requires ValidOpening(opening) && Gates.TaskVerdict(gate, false) == Gates.Execute
    ensures var s := RunViews(Begin(opening), Stepped(Asks()) + BothAnswer(one, other) + FirstLife(one, gate, output));
            && s.drafts == map[1 := DraftFor(opening, other)] && s.tasks.opening == opening
            && s.tasks.row.status == Rows.Completed && s.tasks.row.approvals == []
            && s.tasks.row.log == [Execution("a", ByGate(gate))] && s.tasks.workers == map[0 := Idle, 1 := Idle]
  {
    QuestionIsAsked(opening);
    BothReadQuestion(opening, one, other);
    FirstLifeEnds(opening, one, other, gate, output);
    FoldConcat(ApplyView, Begin(opening), Stepped(Asks()), BothAnswer(one, other));
    FoldConcat(ApplyView, Begin(opening), Stepped(Asks()) + BothAnswer(one, other), FirstLife(one, gate, output));
  }
}
