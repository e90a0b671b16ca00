/**
  What people's decisions and one activation bring about in a background task, said in the terms of the events, of the
  rows and of what the activation finds outside: the model, the attached tools and their results.
 */
module TaskLaws {
  import opened Approvals
  import opened Base
  import opened Executions
  import opened Tasks
  import opened Transcript
  import Gates
  import Rows

  // ---------------------------------------------------------------- decisions, over all events

  /** The task before its event `k`. */
  ghost function Before(opening: seq<ChatMessage>, events: seq<Event>, k: nat): Protocol
    requires k <= |events|
  {
    Run(Fresh(opening), events[..k])
  }

  /** A person decides row `r`, the one about call `id`, which awaits that. */
  ghost predicate Decides(s: Protocol, e: Event, id: string, approve: bool) {
    && e.Decision? && e.approve == approve && e.r < |s.row.approvals|
    && s.row.approvals[e.r] == ApprovalRow(id, Rows.AwaitingDecision)
  }

  ghost predicate ApprovedAt(opening: seq<ChatMessage>, events: seq<Event>, id: string, k: nat)
    requires k < |events|
  {
    Decides(Before(opening, events, k), events[k], id, true)
  }

  lemma ApprovedEarlier(opening: seq<ChatMessage>, events: seq<Event>, id: string, k: nat)
    requires k < |events| - 1 && ApprovedAt(opening, events[..|events| - 1], id, k)
    ensures ApprovedAt(opening, events, id, k)
  {
    assert events[..|events| - 1][..k] == events[..k];
  }

  /** One event leaves a row alone, adds one that awaits its decision, or is the person's decision of it. */
  lemma EventApproves(s: Protocol, e: Event, r: nat)
    requires r < |Apply(s, e).row.approvals|
    ensures var row := Apply(s, e).row.approvals[r];
            || (r < |s.row.approvals| && row == s.row.approvals[r])
            || row.status == Rows.AwaitingDecision
            || exists approve :: Decides(s, e, row.key, approve) && (row.status == Rows.Approved ==> approve)
  {
    if e.Decision? && r == e.r && r < |s.row.approvals| && s.row.approvals[r].status == Rows.AwaitingDecision {
      assert Decides(s, e, s.row.approvals[r].key, e.approve);
    }
  }

  lemma {:induction false} ApprovedRowsWereApproved(opening: seq<ChatMessage>, events: seq<Event>, r: nat)
    requires r < |Run(Fresh(opening), events).row.approvals|
    requires Run(Fresh(opening), events).row.approvals[r].status == Rows.Approved
    ensures var id := Run(Fresh(opening), events).row.approvals[r].key;
            exists k :: 0 <= k < |events| && ApprovedAt(opening, events, id, k)
  {
    if events != [] {
      var earlier, n := events[..|events| - 1], |events| - 1;
      var s := Run(Fresh(opening), earlier);
      var row := Run(Fresh(opening), events).row.approvals[r];
      EventApproves(s, events[n], r);
      if r < |s.row.approvals| && row == s.row.approvals[r] {
        ApprovedRowsWereApproved(opening, earlier, r);
        var k :| 0 <= k < |earlier| && ApprovedAt(opening, earlier, row.key, k);
        ApprovedEarlier(opening, events, row.key, k);
      } else {
        assert ApprovedAt(opening, events, row.key, n);
      }
    }
  }

  /** A call whose row awaits a decision has not run. */
  lemma PendingHasNotRun(s: Protocol, e: Event, id: string, approve: bool)
    requires Inv(s) && Decides(s, e, id, approve)
    ensures id !in LoggedKeys(s.row.log)
  {
    LatestApprovalOf(s.row.approvals, e.r);
    forall k | 0 <= k < |s.row.log| ensures s.row.log[k].key != id {
      assert Justified(s.row, s.row.log[k]);
    }
  }

  /** A call that executed by a person's approval was approved at an event before, when it had not run yet. */
  lemma ExecutionsWereApproved(opening: seq<ChatMessage>, events: seq<Event>, e: nat)
    requires ValidOpening(opening) && e < |Run(Fresh(opening), events).row.log|
    requires Run(Fresh(opening), events).row.log[e].why.ByApproval?
    ensures var id := Run(Fresh(opening), events).row.log[e].key;
            exists k :: && 0 <= k < |events| && ApprovedAt(opening, events, id, k)
                        && id !in LoggedKeys(Before(opening, events, k).row.log)
  {
    var s := Run(Fresh(opening), events);
    var id := s.row.log[e].key;
    RunInv(opening, events);
    assert Justified(s.row, s.row.log[e]);
    var r := LatestApprovalRow(s.row.approvals, id, Rows.Approved);
    ApprovedRowsWereApproved(opening, events, r);
    var k :| 0 <= k < |events| && ApprovedAt(opening, events, id, k);
    RunInv(opening, events[..k]);
    PendingHasNotRun(Before(opening, events, k), events[k], id, true);
  }

  /** A call that a person has turned down never executes, whatever happens before and after. */
  lemma TurnedDownNeverExecutes(opening: seq<ChatMessage>, before: seq<Event>, e: Event, after: seq<Event>, id: string)
    requires ValidOpening(opening) && Decides(Run(Fresh(opening), before), e, id, false)
    ensures id !in LoggedKeys(Run(Fresh(opening), before + [e] + after).row.log)
  {
    var s := Run(Fresh(opening), before);
    RunInv(opening, before);
    FoldAppend(Apply, Fresh(opening), before, e);
    LatestApprovalUpdate(s.row.approvals, e.r, Rows.Denied, id);
    DeniedNeverExecutes(opening, before + [e], after, id);
    FoldConcat(Apply, Fresh(opening), before + [e], after);
  }

  /** A task that waits for approval, or that nobody works on yet, is claimed by the next delivery. */
  lemma DeliveryClaims(opening: seq<ChatMessage>, events: seq<Event>, w: nat, iterations: nat)
    requires ValidOpening(opening)
    ensures var s := Run(Fresh(opening), events);
            var s' := Run(Fresh(opening), events + [Deliver(w, iterations)]);
            if s.row.status == Rows.Pending || s.row.status == Rows.NeedsApproval then
              && s'.row == s.row.(status := Rows.InProgress) && IsActive(s', w)
              && s'.workers[w].messages == (if s.row.stored == [] then opening else DeserializeAll(s.row.stored))
            else s' == s
  {
    var s := Run(Fresh(opening), events);
    FoldAppend(Apply, Fresh(opening), events, Deliver(w, iterations));
    RunInv(opening, events);
  }

  /** An answer to the pending question is stored as that call's reply, and the task can be claimed again; an answer
      to anything else changes nothing. */
  lemma AnswerIsStored(s: Protocol, content: string)
    ensures var s' := Apply(s, Answer(content));
            if s.row.status == Rows.NeedsInput && s.row.pending !in {None, Some("")} then
              && s'.row == s.row.(status := Rows.Pending, pending := None, stored := s'.row.stored)
              && DeserializeAll(s'.row.stored) == DeserializeAll(s.row.stored) + [Reply(s.row.pending.value, content)]
              && s'.workers == s.workers
            else s' == s
  {
    if s.row.pending.Some? {
      AnswerReadsBackAsReply(s.row.stored, s.row.pending.value, content);
    }
  }

  /** A decision of a row that awaits one is recorded there, and any other changes nothing. */
  lemma DecisionIsRecorded(s: Protocol, r: nat, approve: bool)
    ensures var s', rows := Apply(s, Decision(r, approve)), s.row.approvals;
            if r < |rows| && rows[r].status == Rows.AwaitingDecision then
              && |s'.row.approvals| == |rows| && s'.row.(approvals := rows) == s.row && s'.workers == s.workers
              && s'.row.approvals[r] == ApprovalRow(rows[r].key, if approve then Rows.Approved else Rows.Denied)
              && forall q :: 0 <= q < |rows| && q != r ==> s'.row.approvals[q] == rows[q]
            else s' == s
  {
  }

  // ---------------------------------------------------------------- what one activation does

  /** An attached call may run: no rule denies it, and a person approved it or nobody needs to. */
  ghost predicate MayRun(approvals: seq<ApprovalRow<string>>, id: string, gate: Gates.GateInput) {
    && gate.org != Gates.Deny
    && (|| LatestApproval(approvals, id) == Some(Rows.Approved)
        || (LatestApproval(approvals, id).None? && Gates.Unattended(gate)))
  }

  /** A message of an activation is the model's response, when no call is owed a reply, or the owed call's reply: the
      error of a tool that is not attached, or the output of one that may run. */
  ghost predicate HasSource(env: Env, approvals: seq<ApprovalRow<string>>, before: seq<ChatMessage>, m: ChatMessage) {
    match Owed(before)
    case None => env.model(before).Some? && m == AssistantMessage(env.model(before).value)
    case Some(call) =>
      && call.name != ASK_USER
      && match env.attached(call)
         case None => m == Reply(call.id, env.notAttached(call))
         case Some(gate) =>
           MayRun(approvals, call.id, gate) && env.tool(call).Output? && m == Reply(call.id, env.tool(call).text)
  }

  ghost predicate AllHaveSources(env: Env, approvals: seq<ApprovalRow<string>>, start: seq<ChatMessage>,
                                 ms: seq<ChatMessage>) {
    start <= ms && forall j: nat :: |start| <= j < |ms| ==> HasSource(env, approvals, ms[..j], ms[j])
  }

  /** The execution behind the reply to an attached call. */
  ghost function RunOf(approvals: seq<ApprovalRow<string>>, id: string, gate: Gates.GateInput): Execution<string> {
    Execution(id, if LatestApproval(approvals, id) == Some(Rows.Approved) then ByApproval else ByGate(gate))
  }

  /** The executions behind the messages from `start` on, in order. */
  ghost function RunsOf(env: Env, approvals: seq<ApprovalRow<string>>, start: nat, ms: seq<ChatMessage>)
    : seq<Execution<string>>
    requires start <= |ms|
  {
    if |ms| == start then []
    else
      var before := ms[..|ms| - 1];
      RunsOf(env, approvals, start, before) +
        match Owed(before)
        case None => []
        case Some(call) =>
          if env.attached(call).Some? then [RunOf(approvals, call.id, env.attached(call).value)] else []
  }

  ghost function Responses(start: nat, ms: seq<ChatMessage>): nat
    requires start <= |ms|
  {
    if |ms| == start then 0
    else Responses(start, ms[..|ms| - 1]) + if ms[|ms| - 1].role == Assistant then 1 else 0
  }

  /**
    An activation of `was` stopped with the transcript `ms` in its hands, `runs` executed and `added` messages more
    than it started with: the row it leaves says why. Where it pauses or completes, it stores that transcript.
   */
  ghost predicate StopsForReason(env: Env, iterations: nat, was: Row, ms: seq<ChatMessage>, added: int,
                                 runs: seq<Execution<string>>, row: Row)
  {
    var keeps := row.approvals == was.approvals && row.log == runs;
    var stores := DeserializeAll(row.stored) == ms;
    match row.status
    case Completed => Finished(ms) && stores && keeps
    case NeedsInput =>
      Owed(ms).Some? && Owed(ms).value.name == ASK_USER && row.pending == Some(Owed(ms).value.id) && stores && keeps
    case NeedsApproval =>
      && OwesAttached(env, ms) && stores && row.log == runs
      && (|| AsksFor(env, was, ms, row.approvals)
          || (row.approvals == was.approvals
              && LatestApproval(was.approvals, Owed(ms).value.id) == Some(Rows.AwaitingDecision)))
    case Blocked =>
      && OwesAttached(env, ms) && keeps
      && (var approval := LatestApproval(was.approvals, Owed(ms).value.id);
          if TurnedDown(approval) then stores
          else env.attached(Owed(ms).value).value.org == Gates.Deny && approval != Some(Rows.AwaitingDecision))
    case Failed =>
      || (keeps && iterations <= added)
      || (keeps && Owed(ms).None? && env.model(ms).None?)
      || (&& OwesAttached(env, ms) && row.approvals == was.approvals && env.tool(Owed(ms).value).Raises?
          && MayRun(was.approvals, Owed(ms).value.id, env.attached(Owed(ms).value).value)
          && row.log == runs + [RunOf(was.approvals, Owed(ms).value.id, env.attached(Owed(ms).value).value)])
    case _ => false
  }

  ghost predicate OwesAttached(env: Env, ms: seq<ChatMessage>) {
    Owed(ms).Some? && Owed(ms).value.name != ASK_USER && env.attached(Owed(ms).value).Some?
  }

  /** The owed call has no approval row, needs one, and gets one that awaits a decision. */
  ghost predicate AsksFor(env: Env, was: Row, ms: seq<ChatMessage>, approvals: seq<ApprovalRow<string>>) {
    && OwesAttached(env, ms)
    && LatestApproval(was.approvals, Owed(ms).value.id).None?
    && env.attached(Owed(ms).value).value.org != Gates.Deny && !Gates.Unattended(env.attached(Owed(ms).value).value)
    && approvals == was.approvals + [ApprovalRow(Owed(ms).value.id, Rows.AwaitingDecision)]
  }

  ghost predicate StopsWith(env: Env, iterations: nat, was: Row, start: seq<ChatMessage>, ms: seq<ChatMessage>,
                            row: Row) {
    && AllHaveSources(env, was.approvals, start, ms)
    && Responses(|start|, ms) <= iterations
    && StopsForReason(env, iterations, was, ms, |ms| - |start|, was.log + RunsOf(env, was.approvals, |start|, ms), row)
  }

  ghost predicate Stops(env: Env, iterations: nat, was: Row, start: seq<ChatMessage>, row: Row) {
    exists ms :: StopsWith(env, iterations, was, start, ms, row)
  }

  /** A call of the pass still lacks its reply, so the pass will add a message. */
  ghost predicate PassOwes(wk: Worker) {
    wk.Active? && wk.pc.InPass? && exists j :: wk.pc.i <= j < |wk.pc.calls| && !HasReply(wk.messages, wk.pc.calls[j].id)
  }

  /** Where an activation of `was` has got to: `added` messages, `responses` of them from the model, and `runs`. */
  ghost predicate UnderWay(env: Env, iterations: nat, was: Row, added: int, responses: nat,
                           runs: seq<Execution<string>>, row: Row, wk: Worker) {
    && wk.Active?
    && responses + wk.left <= iterations
    && iterations - wk.left <= added + (if PassOwes(wk) || wk.pc.Asked? then 1 else 0)
    && row.log == runs
    && (if wk.pc.Asked? then AsksFor(env, was, wk.messages, row.approvals) else row.approvals == was.approvals)
  }

  ghost predicate Grounded(env: Env, iterations: nat, was: Row, start: seq<ChatMessage>, row: Row, wk: Worker) {
    && wk.Active?
    && AllHaveSources(env, was.approvals, start, wk.messages)
    && UnderWay(env, iterations, was, |wk.messages| - |start|, Responses(|start|, wk.messages),
                was.log + RunsOf(env, was.approvals, |start|, wk.messages), row, wk)
  }

  /** The execution behind one message, if there is one. */
  ghost function RunBehind(env: Env, approvals: seq<ApprovalRow<string>>, before: seq<ChatMessage>)
    : seq<Execution<string>>
  {
    match Owed(before)
    case None => []
    case Some(call) =>
      if env.attached(call).Some? then [RunOf(approvals, call.id, env.attached(call).value)] else []
  }

  lemma MessageIsGrounded(env: Env, approvals: seq<ApprovalRow<string>>, start: seq<ChatMessage>,
                          ms: seq<ChatMessage>, m: ChatMessage)
    requires AllHaveSources(env, approvals, start, ms) && HasSource(env, approvals, ms, m)
    ensures AllHaveSources(env, approvals, start, ms + [m])
    ensures Responses(|start|, ms + [m]) == Responses(|start|, ms) + if m.role == Assistant then 1 else 0
    ensures RunsOf(env, approvals, |start|, ms + [m]) ==
            RunsOf(env, approvals, |start|, ms) + RunBehind(env, approvals, ms)
  {
    assert (ms + [m])[..|ms|] == ms;
    forall j: nat | |start| <= j < |ms + [m]| ensures HasSource(env, approvals, (ms + [m])[..j], (ms + [m])[j]) {
      if j < |ms| {
        assert (ms + [m])[..j] == ms[..j];
        assert HasSource(env, approvals, ms[..j], ms[j]);
      }
    }
  }

  /** A step that adds no message goes on, or stops for a reason. */
  ghost predicate StepStands(env: Env, iterations: nat, was: Row, ms: seq<ChatMessage>, added: int, responses: nat,
                             runs: seq<Execution<string>>, row: Row, wk: Worker) {
    && responses <= iterations
    && if wk.Active? then wk.messages == ms && UnderWay(env, iterations, was, added, responses, runs, row, wk)
       else StopsForReason(env, iterations, was, ms, added, runs, row)
  }

  /** A step that adds a message adds one with a source. */
  ghost predicate StepAdds(env: Env, iterations: nat, was: Row, ms: seq<ChatMessage>, m: ChatMessage, added: int,
                           responses: nat, runs: seq<Execution<string>>, row: Row, wk: Worker) {
    && HasSource(env, was.approvals, ms, m)
    && StepStands(env, iterations, was, ms + [m], added + 1, responses + (if m.role == Assistant then 1 else 0),
                  runs + RunBehind(env, was.approvals, ms), row, wk)
  }

  /** A call of a tool that is not attached, or of one that may run and returns. */
  lemma AnswerStepIsGrounded(env: Env, iterations: nat, was: Row, opening: seq<ChatMessage>, row: Row, wk: Worker,
                             call: ToolCall, added: int, responses: nat, runs: seq<Execution<string>>)
    requires UnderWay(env, iterations, was, added, responses, runs, row, wk) && Tasks.Before(opening, row, wk)
    requires AtCall(wk) == Some(call)
    requires ChooseAtCall(env, row, wk, call).ReplyUnattached? || ChooseAtCall(env, row, wk, call).ExecuteTool?
    ensures var (row', wk') := CallStep(row, wk, call, ChooseAtCall(env, row, wk, call)).value;
            && wk'.Active? && wk'.messages != []
            && StepAdds(env, iterations, was, wk.messages, wk'.messages[|wk.messages|], added, responses, runs, row',
                        wk')
  {
    AtCallFacts(opening, row, wk, call);
    if env.attached(call).Some? {
      Gates.UnattendedIffGatesExecute(env.attached(call).value);
    }
  }

  /** A call at which the activation stops, or asks for approval. */
  lemma StopStepIsGrounded(env: Env, iterations: nat, was: Row, opening: seq<ChatMessage>, row: Row, wk: Worker,
                           call: ToolCall, added: int, responses: nat, runs: seq<Execution<string>>)
    requires UnderWay(env, iterations, was, added, responses, runs, row, wk) && Tasks.Before(opening, row, wk)
    requires AtCall(wk) == Some(call)
    requires !ChooseAtCall(env, row, wk, call).ReplyUnattached? && !ChooseAtCall(env, row, wk, call).ExecuteTool?
    ensures var (row', wk') := CallStep(row, wk, call, ChooseAtCall(env, row, wk, call)).value;
            StepStands(env, iterations, was, wk.messages, added, responses, runs, row', wk')
  {
    var act := ChooseAtCall(env, row, wk, call);
    AtCallFacts(opening, row, wk, call);
    if act.AskUser? || act.WaitForApproval? || act.StopDenied? {
      ReloadsAsHeld(opening, row, wk, Rows.Blocked);
      assert DeserializeAll(Report(row, Rows.Blocked, wk.messages).stored) == wk.messages;
    } else {
      Gates.UnattendedIffGatesExecute(env.attached(call).value);
    }
  }

  lemma PassStepIsGrounded(env: Env, iterations: nat, was: Row, row: Row, wk: Worker, added: int, responses: nat,
                           runs: seq<Execution<string>>)
    requires UnderWay(env, iterations, was, added, responses, runs, row, wk)
    requires Choose(env, row, wk) in {BeginPass, SkipCall, EndPass}
    ensures var (row', wk') := WorkerStep(row, wk, Choose(env, row, wk)).value;
            wk'.Active? && StepStands(env, iterations, was, wk.messages, added, responses, runs, row', wk')
  {
    var wk' := WorkerStep(row, wk, Choose(env, row, wk)).value.1;
    if Choose(env, row, wk).BeginPass? {
      UnresolvedIsUnanswered(wk.messages, |wk.messages|);
      assert PassOwes(wk');
    } else if Choose(env, row, wk).SkipCall? && PassOwes(wk) {
      var j :| wk.pc.i <= j < |wk.pc.calls| && !HasReply(wk.messages, wk.pc.calls[j].id);
      assert PassOwes(wk') by { assert wk'.pc.i <= j; }
    }
  }

  lemma ModelStepIsGrounded(env: Env, iterations: nat, was: Row, opening: seq<ChatMessage>, row: Row, wk: Worker,
                            added: int, responses: nat, runs: seq<Execution<string>>, response: Response)
    requires UnderWay(env, iterations, was, added, responses, runs, row, wk) && Tasks.Before(opening, row, wk)
    requires Choose(env, row, wk) == CallModel(response)
    ensures var (row', wk') := WorkerStep(row, wk, CallModel(response)).value;
            && (wk'.Active? ==> wk'.messages == wk.messages + [AssistantMessage(response)])
            && StepAdds(env, iterations, was, wk.messages, AssistantMessage(response), added, responses, runs, row',
                        wk')
  {
    ResponseFacts(opening, row, wk.messages, response);
  }

  lemma LastStepIsGrounded(env: Env, iterations: nat, was: Row, opening: seq<ChatMessage>, row: Row, wk: Worker,
                           added: int, responses: nat, runs: seq<Execution<string>>)
    requires UnderWay(env, iterations, was, added, responses, runs, row, wk) && Tasks.Before(opening, row, wk)
    requires Choose(env, row, wk) in {ReportApproval, Fail}
    ensures var (row', wk') := WorkerStep(row, wk, Choose(env, row, wk)).value;
            wk'.Idle? && StepStands(env, iterations, was, wk.messages, added, responses, runs, row', wk')
  {
    ReloadsAsHeld(opening, row, wk, Rows.NeedsApproval);
  }

  /** Every step the engine chooses adds a message with a source, or none. */
  lemma StepIsGrounded(env: Env, iterations: nat, was: Row, opening: seq<ChatMessage>, row: Row, wk: Worker,
                       added: int, responses: nat, runs: seq<Execution<string>>) returns (m: Option<ChatMessage>)
    requires UnderWay(env, iterations, was, added, responses, runs, row, wk) && Tasks.Before(opening, row, wk)
    ensures var (row', wk') := WorkerStep(row, wk, Choose(env, row, wk)).value;
            match m
            case None => StepStands(env, iterations, was, wk.messages, added, responses, runs, row', wk')
            case Some(m) => StepAdds(env, iterations, was, wk.messages, m, added, responses, runs, row', wk')
  {
    var act := Choose(env, row, wk);
    m := None;
    if act in {BeginPass, SkipCall, EndPass} {
      PassStepIsGrounded(env, iterations, was, row, wk, added, responses, runs);
    } else if act in {ReportApproval, Fail} {
      LastStepIsGrounded(env, iterations, was, opening, row, wk, added, responses, runs);
    } else if act.CallModel? {
      ModelStepIsGrounded(env, iterations, was, opening, row, wk, added, responses, runs, act.response);
      m := Some(AssistantMessage(act.response));
    } else if act.ReplyUnattached? || act.ExecuteTool? {
      AnswerStepIsGrounded(env, iterations, was, opening, row, wk, AtCall(wk).value, added, responses, runs);
      m := Some(WorkerStep(row, wk, act).value.1.messages[|wk.messages|]);
    } else {
      StopStepIsGrounded(env, iterations, was, opening, row, wk, AtCall(wk).value, added, responses, runs);
    }
  }

  lemma StandsWith(env: Env, iterations: nat, was: Row, start: seq<ChatMessage>, ms: seq<ChatMessage>, added: int,
                   responses: nat, runs: seq<Execution<string>>, row: Row, wk: Worker)
    requires AllHaveSources(env, was.approvals, start, ms) && added == |ms| - |start|
    requires responses == Responses(|start|, ms) && runs == was.log + RunsOf(env, was.approvals, |start|, ms)
    requires StepStands(env, iterations, was, ms, added, responses, runs, row, wk)
    ensures if wk.Active? then Grounded(env, iterations, was, start, row, wk)
            else Stops(env, iterations, was, start, row)
  {
    if wk.Idle? {
      assert StopsWith(env, iterations, was, start, ms, row);
    }
  }

  lemma AddsWith(env: Env, iterations: nat, was: Row, start: seq<ChatMessage>, ms: seq<ChatMessage>, m: ChatMessage,
                 added: int, responses: nat, runs: seq<Execution<string>>, row: Row, wk: Worker)
    requires AllHaveSources(env, was.approvals, start, ms) && added == |ms| - |start|
    requires responses == Responses(|start|, ms) && runs == was.log + RunsOf(env, was.approvals, |start|, ms)
    requires HasSource(env, was.approvals, ms, m)
    requires StepStands(env, iterations, was, ms + [m], added + 1, responses + (if m.role == Assistant then 1 else 0),
                        runs + RunBehind(env, was.approvals, ms), row, wk)
    ensures if wk.Active? then Grounded(env, iterations, was, start, row, wk)
            else Stops(env, iterations, was, start, row)
  {
    var before := RunsOf(env, was.approvals, |start|, ms);
    MessageIsGrounded(env, was.approvals, start, ms, m);
    assert was.log + (before + RunBehind(env, was.approvals, ms)) == runs + RunBehind(env, was.approvals, ms);
    StandsWith(env, iterations, was, start, ms + [m], added + 1, responses + (if m.role == Assistant then 1 else 0),
               runs + RunBehind(env, was.approvals, ms), row, wk);
  }

  /** Where a step of an activation under way leads: it is under way again, or stopped for a reason. */
  lemma StepStaysGrounded(env: Env, iterations: nat, was: Row, start: seq<ChatMessage>, opening: seq<ChatMessage>,
                          row: Row, wk: Worker)
    requires Grounded(env, iterations, was, start, row, wk) && Tasks.Before(opening, row, wk)
    ensures var (row', wk') := WorkerStep(row, wk, Choose(env, row, wk)).value;
            if wk'.Active? then Grounded(env, iterations, was, start, row', wk')
            else Stops(env, iterations, was, start, row')
  {
    var ms := wk.messages;
    var added, responses := |ms| - |start|, Responses(|start|, ms);
    var runs := was.log + RunsOf(env, was.approvals, |start|, ms);
    var m := StepIsGrounded(env, iterations, was, opening, row, wk, added, responses, runs);
    var (row', wk') := WorkerStep(row, wk, Choose(env, row, wk)).value;
    match m
    case None => StandsWith(env, iterations, was, start, ms, added, responses, runs, row', wk');
    case Some(m) => AddsWith(env, iterations, was, start, ms, m, added, responses, runs, row', wk');
  }

  lemma {:induction false} DriveIsGrounded(env: Env, iterations: nat, was: Row, start: seq<ChatMessage>,
                                           opening: seq<ChatMessage>, row: Row, wk: Worker)
    requires Grounded(env, iterations, was, start, row, wk) && Tasks.Before(opening, row, wk)
    ensures Stops(env, iterations, was, start, Drive(env, row, wk))
    decreases wk.left, Remaining(wk.pc)
  {
    var act := Choose(env, row, wk);
    var (row', wk') := WorkerStep(row, wk, act).value;
    StepStaysGrounded(env, iterations, was, start, opening, row, wk);
    DriveUnfolds(env, DriveOf(env), row, wk, act) by { DriveSettles(env); }
    if wk'.Active? {
      WorkerStepKeeps(opening, row, wk, act);
      StepDescends(env, row, wk);
      DriveIsGrounded(env, iterations, was, start, opening, row', wk');
    }
  }

  lemma StepDescends(env: Env, row: Row, wk: Worker)
    requires wk.Active?
    ensures var wk' := WorkerStep(row, wk, Choose(env, row, wk)).value.1;
            wk'.Active? ==> wk'.left < wk.left || (wk'.left == wk.left && Remaining(wk'.pc) < Remaining(wk.pc))
  {
  }

  /**
    Whatever happened to the task before, one activation of it starts from the stored transcript or else the opening,
    adds only messages that the model or a tool brought, runs exactly the attached calls among them that may run, and
    stops for the reason its row gives.
   */
  lemma ActivationStopsForReason(env: Env, opening: seq<ChatMessage>, events: seq<Event>, iterations: nat)
    requires ValidOpening(opening)
    requires Run(Fresh(opening), events).row.status in {Rows.Pending, Rows.NeedsApproval}
    ensures var row := Run(Fresh(opening), events).row;
            Stops(env, iterations, row, if row.stored == [] then opening else DeserializeAll(row.stored),
                  Activation(env, opening, iterations, row))
  {
    var s := Run(Fresh(opening), events);
    RunInv(opening, events);
    var w: nat := 0;
    var s' := Apply(s, Deliver(w, iterations));
    DeliverInv(s, w, iterations);
    assert IsActive(s', w);
    DriveIsGrounded(env, iterations, s.row, Loaded(s.row, opening), opening, s'.row, s'.workers[w]);
  }

  // ---------------------------------------------------------------- what is stored while a worker is under way

  /** Between iterations a worker holds what is stored; within one it holds replies besides. */
  ghost predicate StoredUpTo(opening: seq<ChatMessage>, row: Row, wk: Worker) {
    wk.Active? ==>
      var stored := if row.stored == [] then opening else DeserializeAll(row.stored);
      && stored <= wk.messages
      && (wk.pc.Top? ==> stored == wk.messages)
      && forall j :: |stored| <= j < |wk.messages| ==> wk.messages[j].role == Tool
  }

  lemma WorkStores(opening: seq<ChatMessage>, row: Row, wk: Worker, act: Act)
    requires Tasks.Before(opening, row, wk) && StoredUpTo(opening, row, wk) && WorkerStep(row, wk, act).Some?
    ensures var (row', wk') := WorkerStep(row, wk, act).value; StoredUpTo(opening, row', wk')
  {
    match act
    case CallModel(response) => ResponseIsStored(opening, row, wk, response);
    case EndPass => PassIsStored(opening, row, wk);
    case BeginPass => PassStores(opening, row, wk, act);
    case SkipCall => PassStores(opening, row, wk, act);
    case ReportApproval =>
    case Fail =>
    case _ => CallStores(opening, row, wk, AtCall(wk).value, act);
  }

  lemma ResponseIsStored(opening: seq<ChatMessage>, row: Row, wk: Worker, response: Response)
    requires Tasks.Before(opening, row, wk) && StoredUpTo(opening, row, wk)
    requires WorkerStep(row, wk, CallModel(response)).Some?
    ensures var (row', wk') := WorkerStep(row, wk, CallModel(response)).value; StoredUpTo(opening, row', wk')
  {
    ResponseFacts(opening, row, wk.messages, response);
  }

  lemma PassStores(opening: seq<ChatMessage>, row: Row, wk: Worker, act: Act)
    requires StoredUpTo(opening, row, wk) && wk.Active? && (act.BeginPass? || act.SkipCall?)
    requires WorkerStep(row, wk, act).Some?
    ensures var (row', wk') := WorkerStep(row, wk, act).value; StoredUpTo(opening, row', wk')
  {
  }

  lemma PassIsStored(opening: seq<ChatMessage>, row: Row, wk: Worker)
    requires Tasks.Before(opening, row, wk) && WorkerStep(row, wk, EndPass).Some?
    ensures var (row', wk') := WorkerStep(row, wk, EndPass).value; StoredUpTo(opening, row', wk')
  {
    ReloadsAsHeld(opening, row, wk, Rows.InProgress);
  }

  lemma CallStores(opening: seq<ChatMessage>, row: Row, wk: Worker, call: ToolCall, act: Act)
    requires wk.Active? && AtCall(wk) == Some(call) && StoredUpTo(opening, row, wk)
    requires CallStep(row, wk, call, act).Some?
    ensures var (row', wk') := CallStep(row, wk, call, act).value; StoredUpTo(opening, row', wk')
  {
  }

  ghost predicate AllStoredUpTo(s: Protocol) {
    forall w :: w in s.workers ==> StoredUpTo(s.opening, s.row, s.workers[w])
  }

  lemma StepStores(s: Protocol, w: nat, act: Act, row': Row, wk': Worker)
    requires Inv(s) && AllStoredUpTo(s) && IsActive(s, w) && WorkerStep(s.row, s.workers[w], act) == Some((row', wk'))
    ensures AllStoredUpTo(s.(row := row', workers := s.workers[w := wk']))
  {
    WorkStores(s.opening, s.row, s.workers[w], act);
    forall v | v in s.workers && v != w ensures StoredUpTo(s.opening, row', s.workers[v]) {
      assert !IsActive(s, v);
    }
  }

  /** A claim gives its worker what is stored; an answer is stored while nobody is at work. */
  lemma ClaimOrAnswerStores(s: Protocol, e: Event)
    requires Inv(s) && AllStoredUpTo(s) && !e.Work?
    ensures AllStoredUpTo(Apply(s, e))
  {
    var s' := Apply(s, e);
    forall w | w in s'.workers ensures StoredUpTo(s'.opening, s'.row, s'.workers[w]) {
      if w in s.workers {
        assert StoredUpTo(s.opening, s.row, s.workers[w]);
        assert s.row.status != Rows.InProgress ==> !IsActive(s, w);
      }
    }
  }

  lemma EventStores(s: Protocol, e: Event)
    requires Inv(s) && AllStoredUpTo(s)
    ensures AllStoredUpTo(Apply(s, e))
  {
    if !e.Work? {
      ClaimOrAnswerStores(s, e);
    } else if IsActive(s, e.w) && WorkerStep(s.row, s.workers[e.w], e.act).Some? {
      var (row', wk') := WorkerStep(s.row, s.workers[e.w], e.act).value;
      StepStores(s, e.w, e.act, row', wk');
    }
  }

  /** In every run a worker that dies loses replies of its current iteration, and nothing else. */
  lemma {:induction false} WorkersStoreEachIteration(opening: seq<ChatMessage>, events: seq<Event>)
    requires ValidOpening(opening)
    ensures AllStoredUpTo(Run(Fresh(opening), events))
  {
    if events != [] {
      var earlier := events[..|events| - 1];
      WorkersStoreEachIteration(opening, earlier);
      RunInv(opening, earlier);
      EventStores(Run(Fresh(opening), earlier), events[|events| - 1]);
    }
  }
}
