/**
  The background task protocol: workers that claim a task, walk its transcript, pause for approvals
  and answers and persist it, next to the people who decide and answer. Any number of workers may
  receive the same delivery.
 */
module Tasks {
  import opened Approvals
  import opened Base
  import opened Executions
  import opened Transcript
  import Gates
  import Rows

  const ASK_USER := "ask_user"

  // ---------------------------------------------------------------- rows

  /**
    The task row with its approval rows; `stored` and `pending` are the `messages` and
    `pending_question` entries of `execution_state`, and `log` lists the tool executions.
   */
  datatype Row = Row(
    status: Rows.TaskStatus,
    stored: seq<RawMessage>,
    pending: Option<string>,
    approvals: seq<ApprovalRow<string>>,
    log: seq<Execution<string>>)

  predicate Claimable(row: Row) {
    row.status in {Rows.Pending, Rows.NeedsApproval}
  }

  /** `claim_task_execution` on a claimable row. */
  function Claimed(row: Row): Row {
    row.(status := Rows.InProgress)
  }

  /** The transcript an activation starts from. */
  function Loaded(row: Row, opening: seq<ChatMessage>): seq<ChatMessage> {
    if row.stored != [] then DeserializeAll(row.stored) else opening
  }

  /** `report_task_status` with the transcript, as the engine calls it. */
  function Report(row: Row, status: Rows.TaskStatus, messages: seq<ChatMessage>): Row {
    row.(status := status, stored := SerializeAll(messages))
  }

  /** `TaskRespondView.post`, its check and its update taken as one step. */
  function Respond(row: Row, content: string): Row {
    if row.status == Rows.NeedsInput && row.pending.Some? && row.pending.value != "" then
      row.(status := Rows.Pending, pending := None, stored := row.stored + [RawAnswer(row.pending.value, content)])
    else row
  }

  /** `decide_approval_request`: only a pending row can be decided. */
  function Decide(row: Row, r: nat, approve: bool): Row {
    if r < |row.approvals| && row.approvals[r].status == Rows.AwaitingDecision then
      row.(approvals := row.approvals[r := row.approvals[r].(status := Rows.DecisionStatus(approve))])
    else row
  }

  // ---------------------------------------------------------------- one worker

  datatype Pc =
    | Top                                    // about to start an iteration
    | InPass(calls: seq<ToolCall>, i: nat)   // walking an unresolved message's calls
    | Asked                                  // approval row created, status not yet reported

  datatype Worker = Idle | Active(messages: seq<ChatMessage>, left: nat, pc: Pc)

  datatype Act =
    | BeginPass
    | CallModel(response: Response)
    | SkipCall
    | AskUser
    | ReplyUnattached(content: string)
    | WaitForApproval
    | StopDenied
    | StopRefused(gate: Gates.GateInput)
    | CreateApproval(gate: Gates.GateInput)
    | ReportApproval
    | ExecuteTool(gate: Gates.GateInput, output: string)
    | ExecuteRaises(gate: Gates.GateInput)
    | EndPass
    | Fail

  /** The unanswered call a worker is looking at. */
  function AtCall(wk: Worker): Option<ToolCall> {
    if wk.Active? && wk.pc.InPass? && wk.pc.i < |wk.pc.calls| && !HasReply(wk.messages, wk.pc.calls[wk.pc.i].id)
    then Some(wk.pc.calls[wk.pc.i])
    else None
  }

  function Answered(wk: Worker, id: string, content: string): Worker
    requires wk.Active? && wk.pc.InPass?
  {
    wk.(messages := wk.messages + [Reply(id, content)], pc := InPass(wk.pc.calls, wk.pc.i + 1))
  }

  /** What one worker does next, on its own state and the task's rows; None when `act` does not apply. */
  function WorkerStep(row: Row, wk: Worker, act: Act): Option<(Row, Worker)>
    requires wk.Active?
  {
    var ms, pc := wk.messages, wk.pc;
    match act
    case BeginPass =>
      if pc.Top? && wk.left > 0 && Unresolved(ms).Some? then
        Some((row, Active(ms, wk.left - 1, InPass(Unresolved(ms).value, 0))))
      else None
    case CallModel(response) =>
      if pc.Top? && wk.left > 0 && Unresolved(ms).None? then
        var ms' := ms + [AssistantMessage(response)];
        if response.calls != [] then Some((Report(row, Rows.InProgress, ms'), Active(ms', wk.left - 1, Top)))
        else Some((Report(row, Rows.Completed, ms'), Idle))
      else None
    case SkipCall =>
      if pc.InPass? && pc.i < |pc.calls| && HasReply(ms, pc.calls[pc.i].id) then
        Some((row, wk.(pc := InPass(pc.calls, pc.i + 1))))
      else None
    case EndPass =>
      if pc.InPass? && pc.i >= |pc.calls| then Some((Report(row, Rows.InProgress, ms), wk.(pc := Top)))
      else None
    case ReportApproval =>
      if pc.Asked? then Some((Report(row, Rows.NeedsApproval, ms), Idle)) else None
    case Fail =>
      Some((row.(status := Rows.Failed), Idle))
    case _ =>
      match AtCall(wk)
      case None => None
      case Some(call) => CallStep(row, wk, call, act)
  }

  /** The acts on an unanswered call, with the guards in the engine's order. */
  function CallStep(row: Row, wk: Worker, call: ToolCall, act: Act): Option<(Row, Worker)>
    requires AtCall(wk) == Some(call)
  {
    var ms := wk.messages;
    var approval := LatestApproval(row.approvals, call.id);
    if act.AskUser? then
      if call.name == ASK_USER then Some((Report(row, Rows.NeedsInput, ms).(pending := Some(call.id)), Idle)) else None
    else if call.name == ASK_USER then None
    else
      match act
      case ReplyUnattached(content) => Some((row, Answered(wk, call.id, content)))
      case WaitForApproval =>
        if approval == Some(Rows.AwaitingDecision) then Some((Report(row, Rows.NeedsApproval, ms), Idle)) else None
      case StopDenied =>
        if TurnedDown(approval) then Some((Report(row, Rows.Blocked, ms), Idle)) else None
      case StopRefused(gate) =>
        if Clear(approval) && Gates.TaskVerdict(gate, approval.Some?) == Gates.Refuse then
          Some((row.(status := Rows.Blocked), Idle))
        else None
      case CreateApproval(gate) =>
        if approval.None? && Gates.TaskVerdict(gate, false) == Gates.Ask then
          Some((row.(approvals := row.approvals + [ApprovalRow(call.id, Rows.AwaitingDecision)]), wk.(pc := Asked)))
        else None
      case ExecuteTool(gate, output) =>
        if Clear(approval) && Gates.TaskVerdict(gate, approval.Some?) == Gates.Execute then
          Some((row.(log := row.log + [Execution(call.id, WhyRun(approval, gate))]), Answered(wk, call.id, output)))
        else None
      case ExecuteRaises(gate) =>
        if Clear(approval) && Gates.TaskVerdict(gate, approval.Some?) == Gates.Execute then
          Some((row.(status := Rows.Failed, log := row.log + [Execution(call.id, WhyRun(approval, gate))]), Idle))
        else None
      case _ => None
  }

  // ---------------------------------------------------------------- the whole system

  /** All workers not listed in `workers` are idle. */
  datatype Protocol = Protocol(opening: seq<ChatMessage>, row: Row, workers: map<nat, Worker>)

  datatype Event =
    | Deliver(w: nat, iterations: nat)
    | Work(w: nat, act: Act)
    | Answer(content: string)
    | Decision(r: nat, approve: bool)

  ghost predicate IsActive(s: Protocol, w: nat) {
    w in s.workers && s.workers[w].Active?
  }

  /** One event; an event that does not apply changes nothing, as a duplicate delivery does not. */
  ghost function Apply(s: Protocol, e: Event): Protocol {
    match e
    case Deliver(w, iterations) =>
      if Claimable(s.row) && !IsActive(s, w) then
        s.(row := Claimed(s.row), workers := s.workers[w := Active(Loaded(s.row, s.opening), iterations, Top)])
      else s
    case Work(w, act) =>
      if IsActive(s, w) && WorkerStep(s.row, s.workers[w], act).Some? then
        var (row', wk') := WorkerStep(s.row, s.workers[w], act).value;
        s.(row := row', workers := s.workers[w := wk'])
      else s
    case Answer(content) => s.(row := Respond(s.row, content))
    case Decision(r, approve) => s.(row := Decide(s.row, r, approve))
  }

  ghost function Run(s: Protocol, events: seq<Event>): Protocol {
    Fold(Apply, s, events)
  }

  function Fresh(opening: seq<ChatMessage>): Protocol {
    Protocol(opening, Row(Rows.Pending, [], None, [], []), map[])
  }

  // ---------------------------------------------------------------- invariants

  ghost predicate Justified(row: Row, e: Execution<string>) {
    match e.why
    case ByApproval => LatestApproval(row.approvals, e.key) == Some(Rows.Approved)
    case ByGate(gate) => Gates.Unattended(gate) && LatestApproval(row.approvals, e.key).None?
  }

  /** No call ran twice, and every call that ran is justified for good. */
  ghost predicate LogOk(row: Row) {
    && Distinct(LoggedKeys(row.log))
    && (forall k :: 0 <= k < |row.log| ==> Justified(row, row.log[k]))
    && OneRowEach(row.approvals)
  }

  /** Every call that ran has its reply in `ms`. */
  ghost predicate RepliesCover(row: Row, ms: seq<ChatMessage>) {
    forall k :: 0 <= k < |row.log| ==> HasReply(ms, row.log[k].key)
  }

  /** What a persisted transcript is while no worker holds the task. */
  ghost predicate StoredOk(opening: seq<ChatMessage>, row: Row) {
    && (row.stored != [] ==> Generated(opening, DeserializeAll(row.stored)))
    && (!Rows.Ended(row.status) ==> !Finished(Loaded(row, opening)))
    && (row.status in {Rows.Pending, Rows.NeedsApproval, Rows.NeedsInput} ==> RepliesCover(row, Loaded(row, opening)))
    && (row.status == Rows.Completed ==> row.stored != [] && Finished(Loaded(row, opening)))
    && (row.status == Rows.NeedsInput <==> row.pending.Some?)
    && (row.status == Rows.NeedsInput ==>
          && row.stored != [] && Owed(Loaded(row, opening)).Some?
          && Owed(Loaded(row, opening)).value.id == row.pending.value
          && Owed(Loaded(row, opening)).value.name == ASK_USER)
    && (row.status == Rows.NeedsApproval ==> AskedFor(row, Loaded(row, opening)))
  }

  /** Someone has been asked to approve the call the transcript owes a reply. */
  ghost predicate AskedFor(row: Row, ms: seq<ChatMessage>) {
    Owed(ms).Some? && LatestApproval(row.approvals, Owed(ms).value.id).Some?
  }

  ghost predicate PassOk(wk: Worker)
    requires wk.Active?
  {
    wk.pc.InPass? ==>
      && wk.pc.i <= |wk.pc.calls|
      && (forall j :: 0 <= j < wk.pc.i ==> HasReply(wk.messages, wk.pc.calls[j].id))
      && (Unanswered(wk.messages, wk.pc.calls) ==> Unresolved(wk.messages) == Some(wk.pc.calls))
  }

  /** What holds of the one worker that is active, if any. */
  ghost predicate WorkerOk(opening: seq<ChatMessage>, row: Row, wk: Worker)
    requires wk.Active?
  {
    && Generated(opening, wk.messages)
    && !Finished(wk.messages)
    && RepliesCover(row, wk.messages)
    && PassOk(wk)
    && (wk.pc.Asked? ==> AskedFor(row, wk.messages))
  }

  ghost predicate Exclusive(s: Protocol) {
    && (forall w, v :: IsActive(s, w) && IsActive(s, v) ==> w == v)
    && (s.row.status == Rows.InProgress <==> exists w :: IsActive(s, w))
  }

  ghost predicate Inv(s: Protocol) {
    && ValidOpening(s.opening)
    && Exclusive(s)
    && LogOk(s.row)
    && StoredOk(s.opening, s.row)
    && forall w :: IsActive(s, w) ==> WorkerOk(s.opening, s.row, s.workers[w])
  }

  lemma FreshInv(opening: seq<ChatMessage>)
    requires ValidOpening(opening)
    ensures Inv(Fresh(opening))
  {
  }

  // ---------------------------------------------------------------- preservation

  lemma DecideLogOk(row: Row, r: nat, approve: bool)
    requires LogOk(row)
    ensures LogOk(Decide(row, r, approve))
  {
    if r < |row.approvals| && row.approvals[r].status == Rows.AwaitingDecision {
      LatestApprovalOf(row.approvals, r);
      forall id: string { LatestApprovalUpdate(row.approvals, r, Rows.DecisionStatus(approve), id); }
      var row' := Decide(row, r, approve);
      forall k | 0 <= k < |row'.log| ensures Justified(row', row'.log[k]) { assert Justified(row, row.log[k]); }
    }
  }

  /** Asking for a call that never ran disturbs no justification. */
  lemma AskLogOk(row: Row, id: string)
    requires LogOk(row) && LatestApproval(row.approvals, id).None? && id !in LoggedKeys(row.log)
    ensures LogOk(row.(approvals := row.approvals + [ApprovalRow(id, Rows.AwaitingDecision)]))
  {
    var row' := row.(approvals := row.approvals + [ApprovalRow(id, Rows.AwaitingDecision)]);
    LatestApprovalNone(row.approvals, id);
    forall k | 0 <= k < |row'.log| ensures Justified(row', row'.log[k]) {
      assert Justified(row, row.log[k]);
      assert LoggedKeys(row.log)[k] == row.log[k].key;
      LatestApprovalAppend(row.approvals, ApprovalRow(id, Rows.AwaitingDecision), row.log[k].key);
    }
  }

  lemma ExecuteLogOk(row: Row, id: string, gate: Gates.GateInput)
    requires LogOk(row) && id !in LoggedKeys(row.log)
    requires var approval := LatestApproval(row.approvals, id);
             Clear(approval) && Gates.TaskVerdict(gate, approval.Some?) == Gates.Execute
    ensures LogOk(row.(log := row.log + [Execution(id, WhyRun(LatestApproval(row.approvals, id), gate))]))
  {
    var why := WhyRun(LatestApproval(row.approvals, id), gate);
    var row' := row.(log := row.log + [Execution(id, why)]);
    assert LoggedKeys(row'.log) == LoggedKeys(row.log) + [id];
    Gates.UnattendedIffGatesExecute(gate);
    forall k | 0 <= k < |row'.log| ensures Justified(row', row'.log[k]) {
      if k < |row.log| { assert Justified(row, row.log[k]); }
    }
  }

  /** At an unanswered call nothing has run for it yet, and its reply is the owed message. */
  lemma AtCallFacts(opening: seq<ChatMessage>, row: Row, wk: Worker, call: ToolCall)
    requires wk.Active? && WorkerOk(opening, row, wk) && AtCall(wk) == Some(call)
    ensures Owed(wk.messages) == Some(call)
    ensures call.id !in LoggedKeys(row.log)
  {
    FirstOpenAt(wk.messages, wk.pc.calls, wk.pc.i);
    forall k | 0 <= k < |row.log| ensures row.log[k].key != call.id {
      assert HasReply(wk.messages, row.log[k].key);
    }
  }

  lemma AnsweredPassOk(wk: Worker, call: ToolCall, content: string)
    requires wk.Active? && PassOk(wk) && AtCall(wk) == Some(call)
    ensures PassOk(Answered(wk, call.id, content))
  {
    var wk', m := Answered(wk, call.id, content), Reply(call.id, content);
    var calls := wk.pc.calls;
    forall j | 0 <= j < wk'.pc.i ensures HasReply(wk'.messages, calls[j].id) {
      HasReplyAppend(wk.messages, m, calls[j].id);
    }
    assert Unanswered(wk.messages, calls);
    if Unanswered(wk'.messages, calls) {
      UnresolvedAfterReply(wk.messages, |wk.messages|, m);
      assert wk'.messages[|wk.messages|] == m && Calls(m) == [];
    }
  }

  lemma AnsweredCovers(row: Row, row': Row, ms: seq<ChatMessage>, id: string, content: string)
    requires RepliesCover(row, ms)
    requires row'.log == row.log || (exists why :: row'.log == row.log + [Execution(id, why)])
    ensures RepliesCover(row', ms + [Reply(id, content)])
  {
    forall k | 0 <= k < |row'.log| ensures HasReply(ms + [Reply(id, content)], row'.log[k].key) {
      HasReplyAppend(ms, Reply(id, content), row'.log[k].key);
      if k < |row.log| { assert HasReply(ms, row.log[k].key); }
    }
  }

  lemma AnsweredOk(opening: seq<ChatMessage>, row: Row, row': Row, wk: Worker, call: ToolCall, content: string)
    requires ValidOpening(opening) && wk.Active? && WorkerOk(opening, row, wk) && AtCall(wk) == Some(call)
    requires row'.log == row.log || (exists why :: row'.log == row.log + [Execution(call.id, why)])
    ensures WorkerOk(opening, row', Answered(wk, call.id, content))
  {
    AtCallFacts(opening, row, wk, call);
    GeneratedIsPlain(opening, wk.messages);
    GeneratedAppend(opening, wk.messages, Reply(call.id, content));
    AnsweredPassOk(wk, call, content);
    AnsweredCovers(row, row', wk.messages, call.id, content);
  }

  /** Persisting a worker's transcript loses nothing. */
  lemma ReportOk(opening: seq<ChatMessage>, row: Row, wk: Worker, status: Rows.TaskStatus)
    requires ValidOpening(opening) && wk.Active? && WorkerOk(opening, row, wk)
    requires status !in {Rows.NeedsInput, Rows.Completed} && row.pending.None?
    requires status == Rows.NeedsApproval ==> AskedFor(row, wk.messages)
    ensures StoredOk(opening, Report(row, status, wk.messages))
    ensures Loaded(Report(row, status, wk.messages), opening) == wk.messages
  {
    var row' := Report(row, status, wk.messages);
    ReloadsAsHeld(opening, row, wk, status);
    assert Generated(opening, DeserializeAll(row'.stored));
    assert RepliesCover(row', Loaded(row', opening));
  }

  lemma ReloadsAsHeld(opening: seq<ChatMessage>, row: Row, wk: Worker, status: Rows.TaskStatus)
    requires ValidOpening(opening) && wk.Active? && Generated(opening, wk.messages)
    ensures var row' := Report(row, status, wk.messages);
            row'.stored != [] && Loaded(row', opening) == wk.messages == DeserializeAll(row'.stored)
  {
    GeneratedIsPlain(opening, wk.messages);
    ReloadUndoesStore(wk.messages);
  }

  /** The rows a worker leaves behind, and the worker itself, keep their invariants. */
  ghost predicate StepKeeps(opening: seq<ChatMessage>, row: Row, wk: Worker) {
    && LogOk(row)
    && StoredOk(opening, row)
    && (wk.Active? ==> row.status == Rows.InProgress && WorkerOk(opening, row, wk))
    && (wk.Idle? ==> row.status != Rows.InProgress)
  }

  ghost predicate Before(opening: seq<ChatMessage>, row: Row, wk: Worker) {
    && ValidOpening(opening) && wk.Active? && row.status == Rows.InProgress
    && LogOk(row) && StoredOk(opening, row) && WorkerOk(opening, row, wk)
  }

  lemma CallModelKeeps(opening: seq<ChatMessage>, row: Row, wk: Worker, response: Response)
    requires Before(opening, row, wk) && WorkerStep(row, wk, CallModel(response)).Some?
    ensures var (row', wk') := WorkerStep(row, wk, CallModel(response)).value; StepKeeps(opening, row', wk')
  {
    var ms' := wk.messages + [AssistantMessage(response)];
    var row' := WorkerStep(row, wk, CallModel(response)).value.0;
    ResponseFacts(opening, row, wk.messages, response);
    assert Loaded(row', opening) == ms';
    assert RepliesCover(row', ms');
    SameLogOk(row, row');
  }

  lemma SameLogOk(row: Row, row': Row)
    requires LogOk(row) && row'.log == row.log && row'.approvals == row.approvals
    ensures LogOk(row')
  {
    forall k | 0 <= k < |row'.log| ensures Justified(row', row'.log[k]) { assert Justified(row, row.log[k]); }
  }

  /** A response continues the transcript, survives storing and reloading, and leaves every reply in place. */
  lemma ResponseFacts(opening: seq<ChatMessage>, row: Row, ms: seq<ChatMessage>, response: Response)
    requires ValidOpening(opening) && Generated(opening, ms) && !Finished(ms) && Unresolved(ms).None?
    requires RepliesCover(row, ms)
    ensures var ms' := ms + [AssistantMessage(response)];
            && Generated(opening, ms') && DeserializeAll(SerializeAll(ms')) == ms' && SerializeAll(ms') != []
            && RepliesCover(row, ms')
            && (Finished(ms') <==> response.calls == [])
  {
    var m := AssistantMessage(response);
    GeneratedIsPlain(opening, ms);
    GeneratedAppend(opening, ms, m);
    GeneratedIsPlain(opening, ms + [m]);
    ReloadUndoesStore(ms + [m]);
    MoreMessagesCover(row, ms, m);
  }

  lemma MoreMessagesCover(row: Row, ms: seq<ChatMessage>, m: ChatMessage)
    requires RepliesCover(row, ms)
    ensures RepliesCover(row, ms + [m])
  {
    forall k | 0 <= k < |row.log| ensures HasReply(ms + [m], row.log[k].key) {
      assert HasReply(ms, row.log[k].key);
      HasReplyAppend(ms, m, row.log[k].key);
    }
  }

  lemma CallStepKeeps(opening: seq<ChatMessage>, row: Row, wk: Worker, call: ToolCall, act: Act)
    requires Before(opening, row, wk) && AtCall(wk) == Some(call) && CallStep(row, wk, call, act).Some?
    ensures var (row', wk') := CallStep(row, wk, call, act).value; StepKeeps(opening, row', wk')
  {
    if act.ReplyUnattached? || act.ExecuteTool? {
      AnswerKeeps(opening, row, wk, call, act);
    } else if act.CreateApproval? || act.ExecuteRaises? {
      ApprovalOrFailureKeeps(opening, row, wk, call, act);
    } else {
      AtCallFacts(opening, row, wk, call);
      GeneratedIsPlain(opening, wk.messages);
      ReloadUndoesStore(wk.messages);
    }
  }

  lemma AnswerKeeps(opening: seq<ChatMessage>, row: Row, wk: Worker, call: ToolCall, act: Act)
    requires Before(opening, row, wk) && AtCall(wk) == Some(call) && CallStep(row, wk, call, act).Some?
    requires act.ReplyUnattached? || act.ExecuteTool?
    ensures var (row', wk') := CallStep(row, wk, call, act).value; StepKeeps(opening, row', wk')
  {
    var row' := CallStep(row, wk, call, act).value.0;
    AtCallFacts(opening, row, wk, call);
    AnsweredOk(opening, row, row', wk, call, if act.ReplyUnattached? then act.content else act.output);
    if act.ExecuteTool? {
      ExecuteLogOk(row, call.id, act.gate);
    }
  }

  lemma ApprovalOrFailureKeeps(opening: seq<ChatMessage>, row: Row, wk: Worker, call: ToolCall, act: Act)
    requires Before(opening, row, wk) && AtCall(wk) == Some(call) && CallStep(row, wk, call, act).Some?
    requires act.CreateApproval? || act.ExecuteRaises?
    ensures var (row', wk') := CallStep(row, wk, call, act).value; StepKeeps(opening, row', wk')
  {
    AtCallFacts(opening, row, wk, call);
    if act.CreateApproval? {
      AskLogOk(row, call.id);
    } else {
      ExecuteLogOk(row, call.id, act.gate);
    }
  }

  lemma WorkerStepKeeps(opening: seq<ChatMessage>, row: Row, wk: Worker, act: Act)
    requires Before(opening, row, wk) && WorkerStep(row, wk, act).Some?
    ensures var (row', wk') := WorkerStep(row, wk, act).value; StepKeeps(opening, row', wk')
  {
    match act
    case CallModel(response) => CallModelKeeps(opening, row, wk, response);
    case BeginPass => PassStepKeeps(opening, row, wk, act);
    case SkipCall => PassStepKeeps(opening, row, wk, act);
    case EndPass => PassStepKeeps(opening, row, wk, act);
    case ReportApproval => ReportOk(opening, row, wk, Rows.NeedsApproval);
    case Fail =>
    case _ => CallStepKeeps(opening, row, wk, AtCall(wk).value, act);
  }

  lemma PassStepKeeps(opening: seq<ChatMessage>, row: Row, wk: Worker, act: Act)
    requires Before(opening, row, wk) && WorkerStep(row, wk, act).Some?
    requires act.BeginPass? || act.SkipCall? || act.EndPass?
    ensures var (row', wk') := WorkerStep(row, wk, act).value; StepKeeps(opening, row', wk')
  {
    if act.EndPass? {
      EndPassKeeps(opening, row, wk);
    }
  }

  lemma EndPassKeeps(opening: seq<ChatMessage>, row: Row, wk: Worker)
    requires Before(opening, row, wk) && WorkerStep(row, wk, EndPass).Some?
    ensures var (row', wk') := WorkerStep(row, wk, EndPass).value; StepKeeps(opening, row', wk')
  {
    ReportOk(opening, row, wk, Rows.InProgress);
  }

  lemma RespondKeeps(opening: seq<ChatMessage>, row: Row, content: string)
    requires ValidOpening(opening) && StoredOk(opening, row)
    ensures StoredOk(opening, Respond(row, content))
  {
    var row' := Respond(row, content);
    if row' != row {
      var ms, m := Loaded(row, opening), Reply(row.pending.value, content);
      assert row.stored != [];
      AnswerReadsBackAsReply(row.stored, row.pending.value, content);
      GeneratedIsPlain(opening, ms);
      GeneratedAppend(opening, ms, m);
      forall id: string { HasReplyAppend(ms, m, id); }
    }
  }

  lemma DeliverInv(s: Protocol, w: nat, iterations: nat)
    requires Inv(s)
    ensures Inv(Apply(s, Deliver(w, iterations)))
  {
    var s' := Apply(s, Deliver(w, iterations));
    if s' != s {
      assert IsActive(s', w);
      assert forall v :: IsActive(s', v) ==> v == w || IsActive(s, v);
    }
  }

  lemma WorkInv(s: Protocol, w: nat, act: Act)
    requires Inv(s)
    ensures Inv(Apply(s, Work(w, act)))
  {
    var s' := Apply(s, Work(w, act));
    if IsActive(s, w) && WorkerStep(s.row, s.workers[w], act).Some? {
      WorkerStepKeeps(s.opening, s.row, s.workers[w], act);
      assert forall v :: IsActive(s', v) ==> v == w || IsActive(s, v);
      assert IsActive(s', w) <==> s'.workers[w].Active?;
    }
  }

  lemma PeopleInv(s: Protocol, e: Event)
    requires Inv(s) && (e.Answer? || e.Decision?)
    ensures Inv(Apply(s, e))
  {
    var s' := Apply(s, e);
    assert forall v :: IsActive(s', v) <==> IsActive(s, v);
    match e
    case Answer(content) => RespondKeeps(s.opening, s.row, content);
    case Decision(r, approve) => DecisionInv(s, r, approve);
  }

  lemma DecisionKeepsAsked(row: Row, r: nat, approve: bool, ms: seq<ChatMessage>)
    requires OneRowEach(row.approvals) && AskedFor(row, ms)
    ensures AskedFor(Decide(row, r, approve), ms)
  {
    if r < |row.approvals| {
      LatestApprovalUpdate(row.approvals, r, Rows.DecisionStatus(approve), Owed(ms).value.id);
    }
  }

  lemma DecisionInv(s: Protocol, r: nat, approve: bool)
    requires Inv(s)
    ensures Inv(Apply(s, Decision(r, approve)))
  {
    var s' := Apply(s, Decision(r, approve));
    DecideLogOk(s.row, r, approve);
    if s.row.status == Rows.NeedsApproval {
      DecisionKeepsAsked(s.row, r, approve, Loaded(s.row, s.opening));
    }
    forall w | IsActive(s', w) ensures WorkerOk(s.opening, s'.row, s'.workers[w]) {
      if s.workers[w].pc.Asked? {
        DecisionKeepsAsked(s.row, r, approve, s.workers[w].messages);
      }
    }
    assert forall v :: IsActive(s', v) <==> IsActive(s, v);
  }

  lemma ApplyInv(s: Protocol, e: Event)
    requires Inv(s)
    ensures Inv(Apply(s, e))
  {
    match e
    case Deliver(w, iterations) => DeliverInv(s, w, iterations);
    case Work(w, act) => WorkInv(s, w, act);
    case _ => PeopleInv(s, e);
  }

  lemma {:induction false} RunInv(opening: seq<ChatMessage>, events: seq<Event>)
    requires ValidOpening(opening)
    ensures Inv(Run(Fresh(opening), events)) && Run(Fresh(opening), events).opening == opening
  {
    if events == [] {
      FreshInv(opening);
    } else {
      RunInv(opening, events[..|events| - 1]);
      ApplyInv(Run(Fresh(opening), events[..|events| - 1]), events[|events| - 1]);
    }
  }

  // ---------------------------------------------------------------- main results: safety

  /** The reply of an executed call is stored, or in the hands of the worker that holds the task, or the task has
      ended. */
  ghost predicate ReplyKept(s: Protocol, id: string) {
    || Rows.Ended(s.row.status)
    || (s.row.status == Rows.InProgress && exists w :: IsActive(s, w) && HasReply(s.workers[w].messages, id))
    || (s.row.status != Rows.InProgress && HasReply(Loaded(s.row, s.opening), id))
  }

  lemma RepliesAreKept(s: Protocol, k: nat)
    requires Inv(s) && k < |s.row.log|
    ensures ReplyKept(s, s.row.log[k].key)
  {
    if s.row.status == Rows.InProgress {
      var w :| IsActive(s, w);
      assert WorkerOk(s.opening, s.row, s.workers[w]);
    }
  }

  /**
    Under any duplicate deliveries, pauses, approvals and answers: at most one worker holds the
    task and one does exactly while it is in progress, no call id is executed twice, every executed
    call was approved by a person or passes the gate without one, and its reply is never lost.
   */
  lemma ExecutionIsExclusiveAndJustified(opening: seq<ChatMessage>, events: seq<Event>)
    requires ValidOpening(opening)
    ensures var s := Run(Fresh(opening), events);
            && Exclusive(s)
            && Distinct(LoggedKeys(s.row.log))
            && (forall k :: 0 <= k < |s.row.log| ==> Justified(s.row, s.row.log[k]) && ReplyKept(s, s.row.log[k].key))
            && OneRowEach(s.row.approvals)
  {
    RunInv(opening, events);
    var s := Run(Fresh(opening), events);
    forall k | 0 <= k < |s.row.log| ensures ReplyKept(s, s.row.log[k].key) { RepliesAreKept(s, k); }
  }

  /**
    What a status means for the stored transcript: a task waits for approval only after someone was asked about
    the call it owes a reply, waits for input exactly while a question is pending and then owes that
    question its answer, and has its final answer exactly when completed, unless it failed or was blocked.
   */
  lemma PausesHaveAReason(opening: seq<ChatMessage>, events: seq<Event>)
    requires ValidOpening(opening)
    ensures var row := Run(Fresh(opening), events).row;
            var ms := Loaded(row, opening);
            && (row.status == Rows.NeedsApproval ==>
                  Owed(ms).Some? && LatestApproval(row.approvals, Owed(ms).value.id).Some?)
            && (row.status == Rows.NeedsInput <==> row.pending.Some?)
            && (row.pending.Some? ==>
                  Owed(ms).Some? && Owed(ms).value.id == row.pending.value && Owed(ms).value.name == ASK_USER)
            && (row.status == Rows.Completed ==> Finished(ms))
            && (!Rows.Ended(row.status) ==> !Finished(ms))
  {
    RunInv(opening, events);
  }

  lemma EndedApply(s: Protocol, e: Event)
    requires Inv(s) && Rows.Ended(s.row.status)
    ensures Apply(s, e).row.(approvals := s.row.approvals) == s.row
  {
    if e.Work? { assert !IsActive(s, e.w); }
  }

  /** Completed, failed and blocked are final: nothing but late decisions can touch the row again. */
  lemma {:induction false} EndedTasksStay(opening: seq<ChatMessage>, before: seq<Event>, after: seq<Event>)
    requires ValidOpening(opening) && Rows.Ended(Run(Fresh(opening), before).row.status)
    ensures var s := Run(Fresh(opening), before);
            Run(s, after).row.(approvals := s.row.approvals) == s.row
  {
    var s := Run(Fresh(opening), before);
    if after != [] {
      var earlier := after[..|after| - 1];
      EndedTasksStay(opening, before, earlier);
      assert Inv(Run(s, earlier)) by {
        RunInv(opening, before);
        RunFromInv(s, earlier);
      }
      EndedApply(Run(s, earlier), after[|after| - 1]);
    }
  }

  lemma {:induction false} RunFromInv(s: Protocol, events: seq<Event>)
    requires Inv(s)
    ensures Inv(Run(s, events)) && Run(s, events).opening == s.opening
  {
    if events != [] {
      RunFromInv(s, events[..|events| - 1]);
      ApplyInv(Run(s, events[..|events| - 1]), events[|events| - 1]);
    }
  }

  /** A worker only ever adds a pending row, for a call that has none. */
  lemma WorkerStepApprovals(row: Row, wk: Worker, act: Act)
    requires wk.Active? && WorkerStep(row, wk, act).Some?
    ensures var row' := WorkerStep(row, wk, act).value.0;
            || row'.approvals == row.approvals
            || (exists id ::
                  && LatestApproval(row.approvals, id).None?
                  && row'.approvals == row.approvals + [ApprovalRow(id, Rows.AwaitingDecision)])
  {
    if act.CreateApproval? {
      assert LatestApproval(row.approvals, AtCall(wk).value.id).None?;
    }
  }

  lemma WorkKeepsDecision(s: Protocol, w: nat, act: Act, id: string)
    requires IsActive(s, w) && WorkerStep(s.row, s.workers[w], act).Some?
    requires LatestApproval(s.row.approvals, id).Some?
    ensures LatestApproval(Apply(s, Work(w, act)).row.approvals, id) == LatestApproval(s.row.approvals, id)
  {
    WorkerStepApprovals(s.row, s.workers[w], act);
    var row' := Apply(s, Work(w, act)).row;
    if row'.approvals != s.row.approvals {
      var other :| LatestApproval(s.row.approvals, other).None?
                   && row'.approvals == s.row.approvals + [ApprovalRow(other, Rows.AwaitingDecision)];
      LatestApprovalAppend(s.row.approvals, ApprovalRow(other, Rows.AwaitingDecision), id);
    }
  }

  lemma DecisionIsFinal(s: Protocol, e: Event, id: string)
    requires LogOk(s.row) && LatestApproval(s.row.approvals, id) !in {None, Some(Rows.AwaitingDecision)}
    ensures LatestApproval(Apply(s, e).row.approvals, id) == LatestApproval(s.row.approvals, id)
  {
    match e
    case Decision(r, approve) =>
      if r < |s.row.approvals| && s.row.approvals[r].status == Rows.AwaitingDecision {
        LatestApprovalOf(s.row.approvals, r);
        LatestApprovalUpdate(s.row.approvals, r, Rows.DecisionStatus(approve), id);
      }
    case Work(w, act) =>
      if IsActive(s, w) && WorkerStep(s.row, s.workers[w], act).Some? {
        WorkKeepsDecision(s, w, act, id);
      }
    case _ =>
  }

  /** A decision is never revised, and a denied call never executes, then or later. */
  lemma {:induction false} DeniedNeverExecutes(opening: seq<ChatMessage>, before: seq<Event>, after: seq<Event>,
                                               id: string)
    requires ValidOpening(opening)
    requires LatestApproval(Run(Fresh(opening), before).row.approvals, id) == Some(Rows.Denied)
    ensures var s := Run(Run(Fresh(opening), before), after);
            LatestApproval(s.row.approvals, id) == Some(Rows.Denied) && id !in LoggedKeys(s.row.log)
  {
    var s := Run(Fresh(opening), before);
    RunInv(opening, before);
    RunFromInv(s, after);
    if after != [] {
      var earlier := after[..|after| - 1];
      DeniedNeverExecutes(opening, before, earlier, id);
      RunFromInv(s, earlier);
      DecisionIsFinal(Run(s, earlier), after[|after| - 1], id);
    }
    var end := Run(s, after);
    forall k | 0 <= k < |LoggedKeys(end.row.log)| ensures LoggedKeys(end.row.log)[k] != id {
      assert Justified(end.row, end.row.log[k]);
    }
  }

  // ---------------------------------------------------------------- main results: transcripts

  /** A transcript that fits the grammar, its replies answering its calls one by one. */
  ghost predicate WellFormedTranscript(opening: seq<ChatMessage>, ms: seq<ChatMessage>) {
    Due(opening, ms).Some? && WellFormed(opening, ms, Due(opening, ms).value)
  }

  /** The transcript anyone can observe: the active worker's, or else the stored one. */
  ghost predicate Visible(s: Protocol, ms: seq<ChatMessage>) {
    ms == Loaded(s.row, s.opening) || exists w :: IsActive(s, w) && ms == s.workers[w].messages
  }

  lemma TranscriptsAreGenerated(s: Protocol, ms: seq<ChatMessage>)
    requires Inv(s) && Visible(s, ms)
    ensures Generated(s.opening, ms)
  {
  }

  /**
    With distinct call ids every transcript, stored or in a worker's hands, is well formed; and
    whenever the model is called every requested call has exactly one reply, in call order.
   */
  lemma TranscriptsAreWellFormed(opening: seq<ChatMessage>, events: seq<Event>, ms: seq<ChatMessage>, w: nat,
                                 r: Response)
    requires ValidOpening(opening)
    requires Visible(Run(Fresh(opening), events), ms) && Distinct(CallIds(ms))
    ensures WellFormedTranscript(opening, ms)
    ensures var s := Run(Fresh(opening), events);
            IsActive(s, w) && s.workers[w].messages == ms && WorkerStep(s.row, s.workers[w], CallModel(r)).Some?
            ==> Due(opening, ms) == Some([]) && ReplyIds(ms) == CallIds(ms)
  {
    var s := Run(Fresh(opening), events);
    RunInv(opening, events);
    TranscriptsAreGenerated(s, ms);
    GeneratedIsWellFormed(opening, ms);
    OwedIsFirstDue(ms, Due(opening, ms).value);
    if Due(opening, ms).value == [] {
      assert ReplyIds(ms) + [] == ReplyIds(ms);
    }
  }

  // ---------------------------------------------------------------- main results: resuming

  /** The model, and the reply each call gets: a tool result, an answer or the not-attached error. */
  datatype Oracle = Oracle(model: seq<ChatMessage> -> Response, reply: string -> string)

  ghost function NextMessage(o: Oracle, ms: seq<ChatMessage>): Option<ChatMessage> {
    match Owed(ms)
    case Some(call) => Some(Reply(call.id, o.reply(call.id)))
    case None => if Finished(ms) then None else Some(AssistantMessage(o.model(ms)))
  }

  /** Appends up to `k` messages, each one chosen by `next` from those before it. */
  ghost function Grow(next: seq<ChatMessage> -> Option<ChatMessage>, start: seq<ChatMessage>, k: nat)
    : seq<ChatMessage>
  {
    if k == 0 then start
    else
      var ms := Grow(next, start, k - 1);
      match next(ms)
      case None => ms
      case Some(m) => ms + [m]
  }

  /** One uninterrupted pass of `k` messages that never pauses, stores or reloads. */
  ghost function Pass(o: Oracle, opening: seq<ChatMessage>, k: nat): seq<ChatMessage> {
    Grow(Next(o), opening, k)
  }

  ghost function Next(o: Oracle): seq<ChatMessage> -> Option<ChatMessage> {
    ms => NextMessage(o, ms)
  }

  /** `ms` is the transcript a pass has built by the time it is that long. */
  ghost predicate OnPass(o: Oracle, opening: seq<ChatMessage>, ms: seq<ChatMessage>) {
    Grown(Next(o), opening, ms)
  }

  /** The event brings what the oracle says: the same model, tool results and answers. */
  ghost predicate Agrees(o: Oracle, s: Protocol, e: Event) {
    match e
    case Answer(content) => s.row.pending.Some? ==> content == o.reply(s.row.pending.value)
    case Work(w, act) =>
      IsActive(s, w) ==>
        (match act
         case CallModel(r) => r == o.model(s.workers[w].messages)
         case ReplyUnattached(c) => AtCall(s.workers[w]).Some? ==> c == o.reply(AtCall(s.workers[w]).value.id)
         case ExecuteTool(_, c) => AtCall(s.workers[w]).Some? ==> c == o.reply(AtCall(s.workers[w]).value.id)
         case _ => true)
    case _ => true
  }

  ghost predicate AgreesThroughout(o: Oracle, s: Protocol, events: seq<Event>) {
    events != [] ==>
      && AgreesThroughout(o, s, events[..|events| - 1])
      && Agrees(o, Run(s, events[..|events| - 1]), events[|events| - 1])
  }

  ghost predicate AllOnPass(o: Oracle, s: Protocol) {
    && RowOnPass(o, s.opening, s.row)
    && forall w :: IsActive(s, w) ==> OnPass(o, s.opening, s.workers[w].messages)
  }

  lemma NextIsNextMessage(o: Oracle, ms: seq<ChatMessage>)
    ensures Next(o)(ms) == NextMessage(o, ms)
  {
  }

  ghost predicate Grown(next: seq<ChatMessage> -> Option<ChatMessage>, start: seq<ChatMessage>, ms: seq<ChatMessage>) {
    |ms| >= |start| && ms == Grow(next, start, |ms| - |start|)
  }

  lemma GrownAppend(next: seq<ChatMessage> -> Option<ChatMessage>, start: seq<ChatMessage>, ms: seq<ChatMessage>,
                    m: ChatMessage)
    requires Grown(next, start, ms) && next(ms) == Some(m)
    ensures Grown(next, start, ms + [m])
  {
    var k := |ms| - |start|;
    assert |ms + [m]| - |start| == k + 1;
    assert Grow(next, start, k + 1) == Grow(next, start, k) + [m];
  }

  lemma PassExtends(o: Oracle, opening: seq<ChatMessage>, ms: seq<ChatMessage>, m: ChatMessage)
    requires OnPass(o, opening, ms) && NextMessage(o, ms) == Some(m)
    ensures OnPass(o, opening, ms + [m])
  {
    NextIsNextMessage(o, ms);
    GrownAppend(Next(o), opening, ms, m);
  }

  lemma ModelCallStaysOnPass(o: Oracle, opening: seq<ChatMessage>, ms: seq<ChatMessage>)
    requires OnPass(o, opening, ms) && Unresolved(ms).None? && !Finished(ms)
    ensures OnPass(o, opening, ms + [AssistantMessage(o.model(ms))])
  {
    PassExtends(o, opening, ms, AssistantMessage(o.model(ms)));
  }

  lemma ReplyStaysOnPass(o: Oracle, opening: seq<ChatMessage>, ms: seq<ChatMessage>, call: ToolCall)
    requires OnPass(o, opening, ms) && Owed(ms) == Some(call)
    ensures OnPass(o, opening, ms + [Reply(call.id, o.reply(call.id))])
  {
    PassExtends(o, opening, ms, Reply(call.id, o.reply(call.id)));
  }

  ghost predicate RowOnPass(o: Oracle, opening: seq<ChatMessage>, row: Row) {
    row.stored != [] ==> OnPass(o, opening, DeserializeAll(row.stored))
  }

  lemma ModelWorkStaysOnPass(o: Oracle, opening: seq<ChatMessage>, row: Row, wk: Worker)
    requires ValidOpening(opening) && wk.Active? && WorkerOk(opening, row, wk) && OnPass(o, opening, wk.messages)
    requires WorkerStep(row, wk, CallModel(o.model(wk.messages))).Some?
    ensures var (row', wk') := WorkerStep(row, wk, CallModel(o.model(wk.messages))).value;
            RowOnPass(o, opening, row') && (wk'.Active? ==> OnPass(o, opening, wk'.messages))
  {
    var ms := wk.messages;
    var m := AssistantMessage(o.model(ms));
    GeneratedIsPlain(opening, ms);
    ModelCallStaysOnPass(o, opening, ms);
    assert AllPlain(ms + [m]);
    ReloadUndoesStore(ms + [m]);
  }

  /** Whatever a worker holds or stores after an agreeing act is on the pass. */
  lemma WorkStaysOnPass(o: Oracle, s: Protocol, w: nat, act: Act)
    requires Inv(s) && AllOnPass(o, s) && IsActive(s, w) && Agrees(o, s, Work(w, act))
    requires WorkerStep(s.row, s.workers[w], act).Some?
    ensures var (row', wk') := WorkerStep(s.row, s.workers[w], act).value;
            RowOnPass(o, s.opening, row') && (wk'.Active? ==> OnPass(o, s.opening, wk'.messages))
  {
    var wk := s.workers[w];
    if act.CallModel? {
      ModelWorkStaysOnPass(o, s.opening, s.row, wk);
    } else {
      GeneratedIsPlain(s.opening, wk.messages);
      ReloadUndoesStore(wk.messages);
      if act.ReplyUnattached? || act.ExecuteTool? {
        AtCallFacts(s.opening, s.row, wk, AtCall(wk).value);
        ReplyStaysOnPass(o, s.opening, wk.messages, AtCall(wk).value);
      }
    }
  }

  lemma ApplyStaysOnPass(o: Oracle, s: Protocol, e: Event)
    requires Inv(s) && AllOnPass(o, s) && Agrees(o, s, e)
    ensures AllOnPass(o, Apply(s, e))
  {
    var s' := Apply(s, e);
    match e
    case Work(w, act) =>
      if IsActive(s, w) && WorkerStep(s.row, s.workers[w], act).Some? {
        WorkStaysOnPass(o, s, w, act);
        assert forall v :: IsActive(s', v) ==> v == w || IsActive(s, v);
      }
    case Deliver(w, iterations) =>
      assert forall v :: IsActive(s', v) ==> v == w || IsActive(s, v);
    case Answer(content) =>
      if s'.row != s.row {
        AnswerReadsBackAsReply(s.row.stored, s.row.pending.value, content);
        ReplyStaysOnPass(o, s.opening, Loaded(s.row, s.opening), Owed(Loaded(s.row, s.opening)).value);
      }
      assert forall v :: IsActive(s', v) ==> IsActive(s, v);
    case Decision(r, approve) =>
      assert forall v :: IsActive(s', v) ==> IsActive(s, v);
  }

  lemma {:induction false} RunStaysOnPass(o: Oracle, opening: seq<ChatMessage>, events: seq<Event>)
    requires ValidOpening(opening) && AgreesThroughout(o, Fresh(opening), events)
    ensures AllOnPass(o, Run(Fresh(opening), events))
  {
    if events != [] {
      var earlier := events[..|events| - 1];
      RunStaysOnPass(o, opening, earlier);
      RunInv(opening, earlier);
      ApplyStaysOnPass(o, Run(Fresh(opening), earlier), events[|events| - 1]);
    }
  }

  lemma {:induction false} GrowIsMonotone(next: seq<ChatMessage> -> Option<ChatMessage>, start: seq<ChatMessage>,
                                          j: nat, k: nat)
    requires j <= k
    ensures Grow(next, start, j) <= Grow(next, start, k)
    ensures next(Grow(next, start, j)).None? ==> Grow(next, start, k) == Grow(next, start, j)
    decreases k
  {
    if j < k {
      GrowIsMonotone(next, start, j, k - 1);
    }
  }

  /** A shorter pass is a prefix of a longer one, and all of it once nothing is left to do. */
  lemma PassIsMonotone(o: Oracle, opening: seq<ChatMessage>, j: nat, k: nat)
    requires j <= k
    ensures Pass(o, opening, j) <= Pass(o, opening, k)
    ensures NextMessage(o, Pass(o, opening, j)).None? ==> Pass(o, opening, k) == Pass(o, opening, j)
  {
    NextIsNextMessage(o, Pass(o, opening, j));
    GrowIsMonotone(Next(o), opening, j, k);
  }

  /**
    Resume transparency: wherever a run pauses, whichever worker resumes it and however often it is
    stored and reloaded, its transcript is the one an uninterrupted pass of that length builds from
    the same model, tool results and answers.
   */
  lemma ResumeTransparency(o: Oracle, opening: seq<ChatMessage>, events: seq<Event>, ms: seq<ChatMessage>)
    requires ValidOpening(opening) && AgreesThroughout(o, Fresh(opening), events)
    requires Visible(Run(Fresh(opening), events), ms)
    ensures OnPass(o, opening, ms)
  {
    RunInv(opening, events);
    RunStaysOnPass(o, opening, events);
    VisibleOnPass(o, Run(Fresh(opening), events), ms);
  }

  lemma VisibleOnPass(o: Oracle, s: Protocol, ms: seq<ChatMessage>)
    requires AllOnPass(o, s) && Visible(s, ms)
    ensures OnPass(o, s.opening, ms)
  {
  }

  lemma FinishedIsWholePass(o: Oracle, opening: seq<ChatMessage>, ms: seq<ChatMessage>, k: nat)
    requires ValidOpening(opening) && Generated(opening, ms) && Finished(ms)
    requires OnPass(o, opening, ms) && k >= |ms|
    ensures ms == Pass(o, opening, k)
  {
    NothingNext(o, opening, ms);
    GrownStops(Next(o), opening, ms, k);
  }

  lemma NothingNext(o: Oracle, opening: seq<ChatMessage>, ms: seq<ChatMessage>)
    requires ValidOpening(opening) && Generated(opening, ms) && Finished(ms)
    ensures Next(o)(ms).None?
  {
    FinishedOwesNothing(opening, ms);
    NextIsNextMessage(o, ms);
  }

  lemma GrownStops(next: seq<ChatMessage> -> Option<ChatMessage>, start: seq<ChatMessage>, ms: seq<ChatMessage>, k: nat)
    requires Grown(next, start, ms) && next(ms).None? && k >= |ms|
    ensures ms == Grow(next, start, k)
  {
    GrowIsMonotone(next, start, |ms| - |start|, k);
  }

  lemma CompletedIsFinished(opening: seq<ChatMessage>, events: seq<Event>)
    requires ValidOpening(opening) && Run(Fresh(opening), events).row.status == Rows.Completed
    ensures var ms := Loaded(Run(Fresh(opening), events).row, opening); Generated(opening, ms) && Finished(ms)
  {
    RunInv(opening, events);
  }

  /** A completed run stores that pass, whole: any longer pass has stopped at the same transcript. */
  lemma CompletedRunIsWholePass(o: Oracle, opening: seq<ChatMessage>, events: seq<Event>, k: nat)
    requires ValidOpening(opening) && AgreesThroughout(o, Fresh(opening), events)
    requires Run(Fresh(opening), events).row.status == Rows.Completed
    requires k >= |Loaded(Run(Fresh(opening), events).row, opening)|
    ensures Finished(Loaded(Run(Fresh(opening), events).row, opening))
    ensures Loaded(Run(Fresh(opening), events).row, opening) == Pass(o, opening, k)
  {
    var ms := Loaded(Run(Fresh(opening), events).row, opening);
    CompletedIsFinished(opening, events);
    RunInv(opening, events);
    ResumeTransparency(o, opening, events, ms);
    FinishedIsWholePass(o, opening, ms, k);
  }

  lemma FinishedOwesNothing(opening: seq<ChatMessage>, ms: seq<ChatMessage>)
    requires ValidOpening(opening) && Generated(opening, ms) && Finished(ms)
    ensures Owed(ms).None?
  {
    var earlier, last := ms[..|ms| - 1], ms[|ms| - 1];
    assert ms != opening by { assert opening[|opening| - 1].role != Assistant; }
    assert Owed(earlier).None? by { assert Follows(earlier, last); }
    NothingOwedAfterEnd(earlier, last);
    assert earlier + [last] == ms;
  }

  lemma NothingOwedAfterEnd(ms: seq<ChatMessage>, last: ChatMessage)
    requires Owed(ms).None? && Calls(last) == []
    ensures Owed(ms + [last]).None?
  {
    UnresolvedAfterNoCalls(ms, |ms|, last);
    assert (ms + [last])[|ms|] == last;
  }

  lemma {:induction false} UnresolvedAfterNoCalls(ms: seq<ChatMessage>, n: nat, m: ChatMessage)
    requires n <= |ms| && UnresolvedBelow(ms, n).None?
    ensures UnresolvedBelow(ms + [m], n).None?
  {
    if n > 0 {
      assert (ms + [m])[n - 1] == ms[n - 1];
      var calls := Calls(ms[n - 1]);
      forall i | 0 <= i < |calls| ensures HasReply(ms + [m], calls[i].id) {
        HasReplyAppend(ms, m, calls[i].id);
      }
      UnresolvedAfterNoCalls(ms, n - 1, m);
    }
  }

  /** Two runs that complete under the same oracle store the same transcript, message for message. */
  lemma CompletedRunsAgree(o: Oracle, opening: seq<ChatMessage>, one: seq<Event>, other: seq<Event>)
    requires ValidOpening(opening)
    requires AgreesThroughout(o, Fresh(opening), one) && AgreesThroughout(o, Fresh(opening), other)
    requires Run(Fresh(opening), one).row.status == Run(Fresh(opening), other).row.status == Rows.Completed
    ensures Loaded(Run(Fresh(opening), one).row, opening) == Loaded(Run(Fresh(opening), other).row, opening)
  {
    var k := |Loaded(Run(Fresh(opening), one).row, opening)| + |Loaded(Run(Fresh(opening), other).row, opening)|;
    CompletedRunIsWholePass(o, opening, one, k);
    CompletedRunIsWholePass(o, opening, other, k);
  }

  // ---------------------------------------------------------------- one activation, in the engine's own form

  datatype ToolOutcome = Output(text: string) | Raises

  /** What an activation finds outside the task: model, attachments with their gate inputs, and tools. */
  datatype Env = Env(
    model: seq<ChatMessage> -> Option<Response>,
    attached: ToolCall -> Option<Gates.GateInput>,
    notAttached: ToolCall -> string,
    tool: ToolCall -> ToolOutcome)

  /** The act `execute_background_task` performs next. */
  function Choose(env: Env, row: Row, wk: Worker): (act: Act)
    requires wk.Active?
    ensures WorkerStep(row, wk, act).Some?
  {
    match wk.pc
    case Asked => ReportApproval
    case Top =>
      if wk.left == 0 then Fail
      else if Unresolved(wk.messages).Some? then BeginPass
      else if env.model(wk.messages).None? then Fail
      else CallModel(env.model(wk.messages).value)
    case InPass(calls, i) =>
      if i >= |calls| then EndPass
      else if HasReply(wk.messages, calls[i].id) then SkipCall
      else ChooseAtCall(env, row, wk, calls[i])
  }

  function ChooseAtCall(env: Env, row: Row, wk: Worker, call: ToolCall): (act: Act)
    requires AtCall(wk) == Some(call)
    ensures CallStep(row, wk, call, act).Some? && WorkerStep(row, wk, act) == CallStep(row, wk, call, act)
  {
    if call.name == ASK_USER then AskUser
    else if env.attached(call).None? then ReplyUnattached(env.notAttached(call))
    else
      var gate := env.attached(call).value;
      var approval := LatestApproval(row.approvals, call.id);
      if approval == Some(Rows.AwaitingDecision) then WaitForApproval
      else if TurnedDown(approval) then StopDenied
      else
        var verdict := Gates.TaskVerdict(gate, approval.Some?);
        if verdict == Gates.Refuse then StopRefused(gate)
        else if verdict == Gates.Ask then CreateApproval(gate)
        else
          match env.tool(call)
          case Output(text) => ExecuteTool(gate, text)
          case Raises => ExecuteRaises(gate)
  }

  function Remaining(pc: Pc): nat {
    match pc
    case InPass(calls, i) => if i <= |calls| then |calls| - i + 1 else 1
    case _ => 0
  }

  /** The rows a whole activation leaves behind: it always returns, paused, ended or failed. */
  ghost function Drive(env: Env, row: Row, wk: Worker): Row
    decreases wk.Active?, if wk.Active? then wk.left else 0, if wk.Active? then Remaining(wk.pc) else 0
  {
    if wk.Idle? then row
    else
      var (row', wk') := WorkerStep(row, wk, Choose(env, row, wk)).value;
      Drive(env, row', wk')
  }

  type Driver = (Row, Worker) -> Row

  ghost function DriveOf(env: Env): Driver {
    (row, wk) => Drive(env, row, wk)
  }

  /** `drive` gives the rows an activation leaves behind: one step of it leaves the rest to do. */
  ghost predicate Settles(env: Env, drive: Driver) {
    && (forall row: Row, wk: Worker {:trigger Choose(env, row, wk)} :: wk.Active? ==>
          var (row', wk') := WorkerStep(row, wk, Choose(env, row, wk)).value;
          drive(row, wk) == drive(row', wk'))
    && forall row: Row :: drive(row, Idle) == row
  }

  lemma DriveSettles(env: Env)
    ensures Settles(env, DriveOf(env))
  {
  }

  lemma DriveUnfolds(env: Env, drive: Driver, row: Row, wk: Worker, act: Act)
    requires Settles(env, drive) && wk.Active? && act == Choose(env, row, wk)
    ensures var (row', wk') := WorkerStep(row, wk, act).value; drive(row, wk) == drive(row', wk')
  {
  }

  ghost function Activation(env: Env, opening: seq<ChatMessage>, iterations: nat, row: Row): Row {
    if Claimable(row) then Drive(env, Claimed(row), Active(Loaded(row, opening), iterations, Top)) else row
  }

  /** An activation is one delivery followed by work of that worker, so every result above covers it. */
  lemma ActivationIsARun(env: Env, s: Protocol, w: nat, iterations: nat)
    requires Claimable(s.row) && !IsActive(s, w)
    ensures exists events :: Run(s, events).row == Activation(env, s.opening, iterations, s.row)
                             && !IsActive(Run(s, events), w)
  {
    var s' := Apply(s, Deliver(w, iterations));
    var work := DriveEvents(env, s', w);
    FoldConcat(Apply, s, [Deliver(w, iterations)], work);
    assert Run(s, []) == s;
    assert Run(s, [Deliver(w, iterations)]) == s';
    assert Run(s, [Deliver(w, iterations)] + work).row == Activation(env, s.opening, iterations, s.row);
  }

  lemma {:induction false} DriveEvents(env: Env, s: Protocol, w: nat) returns (events: seq<Event>)
    requires IsActive(s, w)
    ensures Run(s, events).row == Drive(env, s.row, s.workers[w]) && !IsActive(Run(s, events), w)
    decreases s.workers[w].left, Remaining(s.workers[w].pc)
  {
    var e := Work(w, Choose(env, s.row, s.workers[w]));
    var s' := Apply(s, e);
    events := [e];
    assert Run(s, []) == s;
    assert Run(s, [e]) == s';
    if IsActive(s', w) {
      var rest := DriveEvents(env, s', w);
      FoldConcat(Apply, s, [e], rest);
      events := [e] + rest;
    }
  }

  /** The task row; `log` is the history of tool executions. */
  class BackgroundTask {
    var status: Rows.TaskStatus
    var stored: seq<RawMessage>
    var pending: Option<string>
    var approvals: seq<ApprovalRow<string>>
    ghost var log: seq<Execution<string>>

    ghost function Snapshot(): Row
      reads this
    {
      Row(status, stored, pending, approvals, log)
    }

    constructor ()
      ensures Snapshot() == Fresh([]).row
    {
      status, stored, pending, approvals, log := Rows.Pending, [], None, [], [];
    }

    method ClaimTaskExecution() returns (claimed: bool)
      modifies this`status
      ensures claimed <==> old(status) == Rows.Pending || old(status) == Rows.NeedsApproval
      ensures Snapshot() == if claimed then Claimed(old(Snapshot())) else old(Snapshot())
    {
      if status !in [Rows.Pending, Rows.NeedsApproval] {
        return false;
      }
      status := Rows.InProgress;
      return true;
    }

    method ReportTaskStatus(newStatus: Rows.TaskStatus, messages: seq<ChatMessage>)
      modifies this`status, this`stored
      ensures Snapshot() == Report(old(Snapshot()), newStatus, messages)
    {
      status, stored := newStatus, SerializeAll(messages);
    }

    /** `TaskRespondView.post`. */
    method PostAnswer(content: string) returns (accepted: bool)
      modifies this
      ensures Snapshot() == Respond(old(Snapshot()), content)
      ensures accepted <==> old(status == Rows.NeedsInput && pending.Some? && pending.value != "")
    {
      if status != Rows.NeedsInput || pending.None? || pending.value == "" {
        return false;
      }
      stored := stored + [RawAnswer(pending.value, content)];
      pending, status := None, Rows.Pending;
      return true;
    }

    method DecideApprovalRequest(r: nat, approve: bool) returns (decided: bool)
      requires r < |approvals|
      modifies this`approvals
      ensures decided <==> old(approvals)[r].status == Rows.AwaitingDecision
      ensures Snapshot() == Decide(old(Snapshot()), r, approve)
      ensures decided ==> approvals[r].status == if approve then Rows.Approved else Rows.Denied
    {
      if approvals[r].status != Rows.AwaitingDecision {
        return false;
      }
      approvals := approvals[r := approvals[r].(status := if approve then Rows.Approved else Rows.Denied)];
      return true;
    }

    /** `execute_background_task`; one call, its nested loops included, is one `Activation`. */
    method ExecuteBackgroundTask(env: Env, opening: seq<ChatMessage>, iterations: nat)
      modifies this
      ensures Snapshot() == Activation(env, opening, iterations, old(Snapshot()))
    {
      var claimed := ClaimTaskExecution();
      if claimed {
        var messages := if stored != [] then DeserializeAll(stored) else opening;
        DriveSettles(env);
        RunIterations(env, messages, iterations, DriveOf(env),
                      Drive(env, Snapshot(), Active(messages, iterations, Top)));
      }
    }

    /** The outer loop; `goal` is what remains to be done when it starts. */
    method RunIterations(env: Env, before: seq<ChatMessage>, iterations: nat, ghost drive: Driver, ghost goal: Row)
      requires Settles(env, drive) && drive(Snapshot(), Active(before, iterations, Top)) == goal
      modifies this
      ensures Snapshot() == goal
    {
      var messages := before;
      for turn := 0 to iterations
        invariant drive(Snapshot(), Active(messages, iterations - turn, Top)) == goal
      {
        var done;
        messages, done := TakeTurn(env, messages, iterations - turn, drive, goal);
        if done {
          return;
        }
      }
      DriveUnfolds(env, drive, Snapshot(), Active(messages, 0, Top), Fail);
      status := Rows.Failed;
    }

    /** One iteration: resolve an unresolved message's calls, or call the model. */
    method TakeTurn(env: Env, before: seq<ChatMessage>, ghost left: nat, ghost drive: Driver, ghost goal: Row)
        returns (messages: seq<ChatMessage>, done: bool)
      requires Settles(env, drive) && left > 0 && drive(Snapshot(), Active(before, left, Top)) == goal
      modifies this
      ensures goal == if done then Snapshot() else drive(Snapshot(), Active(messages, left - 1, Top))
    {
      var unresolved := Unresolved(before);
      if unresolved.Some? {
        messages, done := FinishPass(env, before, unresolved.value, left, drive, goal);
      } else {
        messages, done := AskModel(env, before, left, drive, goal);
      }
    }

    /** An iteration that resolves the calls of an earlier message. */
    method FinishPass(env: Env, before: seq<ChatMessage>, calls: seq<ToolCall>, ghost left: nat, ghost drive: Driver,
                      ghost goal: Row)
        returns (messages: seq<ChatMessage>, done: bool)
      requires Settles(env, drive) && left > 0 && Unresolved(before) == Some(calls)
      requires drive(Snapshot(), Active(before, left, Top)) == goal
      modifies this
      ensures goal == if done then Snapshot() else drive(Snapshot(), Active(messages, left - 1, Top))
    {
      DriveUnfolds(env, drive, Snapshot(), Active(before, left, Top), BeginPass);
      messages, done := ResolveCalls(env, before, calls, left - 1, drive);
      if !done {
        DriveUnfolds(env, drive, Snapshot(), Active(messages, left - 1, InPass(calls, |calls|)), EndPass);
        ReportTaskStatus(Rows.InProgress, messages);
      }
    }

    /** An iteration that calls the model; an answer without tool calls ends the task. */
    method AskModel(env: Env, before: seq<ChatMessage>, ghost left: nat, ghost drive: Driver, ghost goal: Row)
        returns (messages: seq<ChatMessage>, done: bool)
      requires Settles(env, drive) && left > 0 && Unresolved(before).None?
      requires drive(Snapshot(), Active(before, left, Top)) == goal
      modifies this
      ensures goal == if done then Snapshot() else drive(Snapshot(), Active(messages, left - 1, Top))
    {
      messages := before;
      var response := env.model(messages);
      if response.None? {
        DriveUnfolds(env, drive, Snapshot(), Active(before, left, Top), Fail);
        status := Rows.Failed;
        return messages, true;
      }
      DriveUnfolds(env, drive, Snapshot(), Active(before, left, Top), CallModel(response.value));
      messages := messages + [AssistantMessage(response.value)];
      done := response.value.calls == [];
      ReportTaskStatus(if done then Rows.Completed else Rows.InProgress, messages);
    }

    /** The inner loop over one message's calls; `done` says that the activation has returned. */
    method ResolveCalls(env: Env, before: seq<ChatMessage>, calls: seq<ToolCall>, ghost left: nat,
                        ghost drive: Driver)
        returns (messages: seq<ChatMessage>, done: bool)
      requires Settles(env, drive)
      modifies this
      ensures var goal := drive(old(Snapshot()), Active(before, left, InPass(calls, 0)));
              if done then Snapshot() == goal
              else drive(Snapshot(), Active(messages, left, InPass(calls, |calls|))) == goal
    {
      messages := before;
      ghost var goal := drive(Snapshot(), Active(before, left, InPass(calls, 0)));
      for i := 0 to |calls|
        invariant drive(Snapshot(), Active(messages, left, InPass(calls, i))) == goal
      {
        var call := calls[i];
        ghost var wk := Active(messages, left, InPass(calls, i));
        DriveUnfolds(env, drive, Snapshot(), wk, Choose(env, Snapshot(), wk));
        if !HasReply(messages, call.id) {
          if call.name == ASK_USER {
            ReportTaskStatus(Rows.NeedsInput, messages);
            pending := Some(call.id);
            return messages, true;
          }
          var gate := env.attached(call);
          if gate.None? {
            messages := messages + [Reply(call.id, env.notAttached(call))];
          } else {
            var output := ResolveAttachedCall(env, messages, call, gate.value, calls, i, left, drive);
            if output.None? {
              return messages, true;
            }
            messages := messages + [Reply(call.id, output.value)];
          }
        }
      }
      return messages, false;
    }

    /** One call of an attached tool: its result, or None when the activation has returned. */
    method ResolveAttachedCall(env: Env, messages: seq<ChatMessage>, call: ToolCall, gate: Gates.GateInput,
                               ghost calls: seq<ToolCall>, ghost i: nat, ghost left: nat,
                               ghost drive: Driver)
        returns (output: Option<string>)
      requires Settles(env, drive) && i < |calls| && calls[i] == call && !HasReply(messages, call.id)
      requires call.name != ASK_USER
      requires env.attached(call) == Some(gate)
      modifies this
      ensures var wk := Active(messages, left, InPass(calls, i));
              if output.None? then Snapshot() == drive(old(Snapshot()), wk)
              else drive(Snapshot(), Answered(wk, call.id, output.value)) == drive(old(Snapshot()), wk)
    {
      ghost var wk := Active(messages, left, InPass(calls, i));
      ghost var act := Choose(env, Snapshot(), wk);
      assert CallStep(Snapshot(), wk, call, act).Some?;
      DriveUnfolds(env, drive, Snapshot(), wk, act);
      var approval := LatestApproval(approvals, call.id);
      if approval == Some(Rows.AwaitingDecision) {
        ReportTaskStatus(Rows.NeedsApproval, messages);
        return None;
      }
      if TurnedDown(approval) {
        ReportTaskStatus(Rows.Blocked, messages);
        return None;
      }
      if gate.org == Gates.Deny {
        status := Rows.Blocked;
        return None;
      }
      var decision := Gates.ResolveToolPermission(gate.risk, gate.profile, gate.floor);
      if gate.org == Gates.RequireApproval {
        decision := Gates.Approval;
      } else if decision == Gates.Approval && approval.None? && !Gates.FloorForces(gate) && gate.standing {
        decision := Gates.Auto;
      }
      if approval.None? && decision == Gates.Approval {
        assert act == CreateApproval(gate);
        approvals := approvals + [ApprovalRow(call.id, Rows.AwaitingDecision)];
        DriveUnfolds(env, drive, Snapshot(), wk.(pc := Asked), ReportApproval);
        ReportTaskStatus(Rows.NeedsApproval, messages);
        return None;
      }
      log := log + [Execution(call.id, WhyRun(approval, gate))];
      var outcome := env.tool(call);
      if outcome.Raises? {
        assert act == ExecuteRaises(gate);
        status := Rows.Failed;
        return None;
      }
      assert act == ExecuteTool(gate, outcome.text);
      return Some(outcome.text);
    }
  }
}
