/**
  Chat turns: the loop of `_continue_turn` over a whole conversation. A turn keeps nothing in memory
  but its failure counts; what it does next it reads from the stored messages.
 */
module ChatTurns {
  import opened Approvals
  import opened Base
  import opened Transcript
  import Chat
  import Gates
  import Rows

  // ---------------------------------------------------------------- rows

  /**
    A conversation's messages in order of creation. One with tool calls has its own result and approval rows;
    a result's stamp says how many messages there were when it was stored, which places it in time among them.
   */
  datatype Row =
    | UserText
    | Answer
    | ToolMessage(tables: Chat.Tables, complete: bool, stamps: seq<nat>)

  function NewMessage(calls: seq<ToolCall>): Row {
    ToolMessage(Chat.Fresh(calls).tables, false, [])
  }

  /** Only a completed answer or message of the coworker can be regenerated. */
  predicate Regenerable(r: Row) {
    r.Answer? || (r.ToolMessage? && r.complete)
  }

  function Stamps(stamps: seq<nat>, count: nat, now: nat): seq<nat> {
    if count <= |stamps| then stamps else stamps + seq(count - |stamps|, _ => now)
  }

  /** The message with new tables; results it did not have before are stored now. */
  function WithTables(r: Row, t: Chat.Tables, now: nat): Row
    requires r.ToolMessage?
  {
    r.(tables := t, stamps := Stamps(r.stamps, |t.results|, now))
  }

  /**
    What a turn reads. A regenerating turn is blind to what existed when it began and is not older than its target,
    messages and results alike: `before` is the conversation at its start. Other turns see everything.
   */
  datatype View = View(target: nat, before: seq<Row>)

  const EVERYTHING := View(0, [])

  predicate Visible(v: View, i: nat) {
    i < v.target || |v.before| <= i
  }

  /** Result `k` of message `i` was there at the turn's start and is newer than its target. */
  predicate HiddenResult(v: View, i: nat, k: nat) {
    && i < |v.before| && v.before[i].ToolMessage?
    && k < |v.before[i].stamps| && v.target < v.before[i].stamps[k]
  }

  /** A request to the model: its history is what the view shows of the rows. */
  datatype Sent = Sent(view: View, rows: seq<Row>)

  /**
    What a turn finds outside: for each iteration the model's response (None for a provider error, no
    calls for a final answer), and for each of its calls the policies in force and the tool's output.
   */
  datatype Env = Env(
    config: Chat.Config,
    model: nat -> Option<seq<ToolCall>>,
    policies: nat -> nat -> Chat.Policies,
    output: nat -> nat -> string,
    isError: string -> bool,
    canonical: string -> string)

  datatype Ending = Blocked | RepeatedFailure | ModelFailed | Answered | TooManySteps

  /** The model names its calls apart within one message. */
  ghost predicate WellBehaved(env: Env) {
    forall k :: env.model(k).Some? ==> Distinct(Ids(env.model(k).value))
  }

  // ---------------------------------------------------------------- repeated failures

  /** The `results` dictionary: a later row for the same id replaces an earlier one. */
  function ResultOf(results: seq<Chat.ResultRow>, id: string): Option<Chat.Content> {
    if results == [] then None
    else if results[|results| - 1].callId == id then Some(results[|results| - 1].content)
    else ResultOf(results[..|results| - 1], id)
  }

  /** The stored result carries an error; a denial is no error. */
  predicate Fails(env: Env, t: Chat.Tables, call: ToolCall) {
    match ResultOf(t.results, call.id)
    case Some(Output(text)) => env.isError(text)
    case Some(NotAttached) => true
    case _ => false
  }

  /** The same tool with the same arguments. */
  function Signature(env: Env, call: ToolCall): string {
    call.name + "::" + env.canonical(call.arguments)
  }

  function CountOf(counts: map<string, nat>, signature: string): nat {
    if signature in counts then counts[signature] else 0
  }

  /** `_repeated_failure_detail` for the calls that remain; the boolean says that a failure was repeated. */
  function CountFailures(env: Env, t: Chat.Tables, calls: seq<ToolCall>, counts: map<string, nat>)
    : (map<string, nat>, bool)
  {
    if calls == [] then (counts, false)
    else if !Fails(env, t, calls[0]) then CountFailures(env, t, calls[1..], counts)
    else
      var signature := Signature(env, calls[0]);
      var counts' := counts[signature := CountOf(counts, signature) + 1];
      if counts'[signature] >= 2 then (counts', true) else CountFailures(env, t, calls[1..], counts')
  }

  /** How many of the calls failed with this tool and these arguments. */
  function Failures(env: Env, t: Chat.Tables, calls: seq<ToolCall>, signature: string): nat {
    if calls == [] then 0
    else (if Fails(env, t, calls[0]) && Signature(env, calls[0]) == signature then 1 else 0)
         + Failures(env, t, calls[1..], signature)
  }

  lemma {:induction false} CountsAreFailures(env: Env, t: Chat.Tables, calls: seq<ToolCall>, counts: map<string, nat>)
    requires forall s :: CountOf(counts, s) <= 1
    ensures var (counts', repeated) := CountFailures(env, t, calls, counts);
            && (!repeated ==> forall s :: CountOf(counts', s) == CountOf(counts, s) + Failures(env, t, calls, s) <= 1)
            && (repeated ==> exists s :: CountOf(counts, s) + Failures(env, t, calls, s) >= 2)
  {
    if calls != [] {
      var signature := Signature(env, calls[0]);
      if !Fails(env, t, calls[0]) {
        CountsAreFailures(env, t, calls[1..], counts);
      } else if CountOf(counts, signature) + 1 < 2 {
        var counts' := counts[signature := CountOf(counts, signature) + 1];
        assert forall s :: CountOf(counts', s) == CountOf(counts, s) + if s == signature then 1 else 0;
        CountsAreFailures(env, t, calls[1..], counts');
      } else {
        assert CountOf(counts, signature) + Failures(env, t, calls, signature) >= 2;
      }
    }
  }

  // ---------------------------------------------------------------- one turn

  /** A turn's variables; `finished` lists the messages it completed, `asked` its requests to the model. */
  datatype State = State(
    view: View,
    rows: seq<Row>,
    counts: map<string, nat>,
    finished: seq<Chat.Tables>,
    asked: seq<Sent>)

  function NewestTool(v: View, rows: seq<Row>): (newest: Option<nat>)
    ensures newest.Some? ==>
              newest.value < |rows| && rows[newest.value].ToolMessage? && Visible(v, newest.value)
  {
    if rows == [] then None
    else if rows[|rows| - 1].ToolMessage? && Visible(v, |rows| - 1) then Some(|rows| - 1)
    else NewestTool(v, rows[..|rows| - 1])
  }

  /** `_find_unresolved_tool_message`: only the newest visible message with tool calls is looked at, and of its
      calls a result counts wherever it is. */
  function FindUnresolved(v: View, rows: seq<Row>): Option<nat> {
    match NewestTool(v, rows)
    case None => None
    case Some(i) => if Chat.HasUnresolved(rows[i].tables) then Some(i) else None
  }

  /** Walks message `i` and, unless someone must decide first, completes it. */
  function FinishMessage(env: Env, k: nat, s: State, i: nat): (r: (State, Option<Ending>))
    requires i < |s.rows| && s.rows[i].ToolMessage?
    ensures |s.rows| <= |r.0.rows|
  {
    var t := Chat.Walk(s.rows[i].tables, env.config, 0, env.policies(k), env.output(k));
    var row := WithTables(s.rows[i], t, |s.rows|);
    if Chat.HasUnresolved(t) then (s.(rows := s.rows[i := row]), Some(Blocked))
    else
      var (counts, repeated) := CountFailures(env, t, t.calls, s.counts);
      (State(s.view, s.rows[i := row.(complete := true)], counts, s.finished + [t], s.asked),
       if repeated then Some(RepeatedFailure) else None)
  }

  function AskModel(env: Env, k: nat, s: State): (r: (State, Option<Ending>))
    ensures |s.rows| <= |r.0.rows|
  {
    var asked := s.asked + [Sent(s.view, s.rows)];
    match env.model(k)
    case None => (s.(asked := asked), Some(ModelFailed))
    case Some(calls) =>
      if calls == [] then (s.(rows := s.rows + [Answer], asked := asked), Some(Answered))
      else FinishMessage(env, k, s.(rows := s.rows + [NewMessage(calls)], asked := asked), |s.rows|)
  }

  function Iteration(env: Env, k: nat, s: State): (r: (State, Option<Ending>))
    ensures |s.rows| <= |r.0.rows|
  {
    match FindUnresolved(s.view, s.rows)
    case Some(i) => FinishMessage(env, k, s, i)
    case None => AskModel(env, k, s)
  }

  function Iterations(env: Env): (nat, State) -> (State, Option<Ending>) {
    (k: nat, s: State) => Iteration(env, k, s)
  }

  /** A whole turn of at most `limit` iterations. */
  function Turn(env: Env, limit: nat, s: State): (State, Ending) {
    Repeat(Iterations(env), TooManySteps, 0, limit, s)
  }

  lemma TurnUnfolds(env: Env, limit: nat, s: State, s': State, ending: Option<Ending>)
    requires limit > 0 && (s', ending) == Iteration(env, 0, s)
    ensures Turn(env, limit, s) ==
            if ending.Some? then (s', ending.value) else Repeat(Iterations(env), TooManySteps, 1, limit - 1, s')
  {
    assert Iterations(env)(0, s) == (s', ending);
  }

  function Opening(v: View, rows: seq<Row>): State {
    State(v, rows, map[], [], [])
  }

  // ---------------------------------------------------------------- what a conversation looks like

  predicate Settled(r: Row) {
    r.ToolMessage? ==> !Chat.HasUnresolved(r.tables)
  }

  predicate AllSettled(rows: seq<Row>) {
    forall i :: 0 <= i < |rows| ==> Settled(rows[i])
  }

  ghost predicate RowOk(r: Row) {
    r.ToolMessage? ==>
      Chat.TablesOk(r.tables) && |r.stamps| == |r.tables.results| && (r.complete ==> Settled(r))
  }

  predicate VisibleSettled(v: View, rows: seq<Row>) {
    forall i :: 0 <= i < |rows| && Visible(v, i) ==> Settled(rows[i])
  }

  /** Among the visible messages with tool calls only the newest may have unanswered ones. */
  ghost predicate VisibleOk(v: View, rows: seq<Row>) {
    && (forall i :: 0 <= i < |rows| ==> RowOk(rows[i]))
    && (forall i, j :: 0 <= i < j < |rows| && rows[j].ToolMessage? && Visible(v, i) && Visible(v, j) ==>
          Settled(rows[i]))
  }

  ghost predicate ConversationOk(rows: seq<Row>) {
    VisibleOk(EVERYTHING, rows)
  }

  /** What holds of a conversation holds of the part that a view shows. */
  lemma PartIsOk(v: View, rows: seq<Row>)
    requires ConversationOk(rows)
    ensures VisibleOk(v, rows)
  {
  }

  /** The same messages at a later time: results are never removed. */
  ghost predicate Later(rows: seq<Row>, rows': seq<Row>) {
    && |rows| <= |rows'|
    && forall i :: 0 <= i < |rows| && rows[i].ToolMessage? ==>
         rows'[i].ToolMessage? && |rows[i].stamps| <= |rows'[i].stamps|
  }

  /** A person has yet to decide the first unanswered call of some visible message. */
  ghost predicate Waits(r: Row) {
    && r.ToolMessage? && |r.tables.results| < |r.tables.calls|
    && LatestApproval(r.tables.approvals, r.tables.calls[|r.tables.results|].id) == Some(Rows.AwaitingDecision)
  }

  ghost predicate Waiting(v: View, rows: seq<Row>) {
    exists i :: 0 <= i < |rows| && Visible(v, i) && Waits(rows[i])
  }

  lemma {:induction false} NewestIsNewest(v: View, rows: seq<Row>)
    ensures NewestTool(v, rows).None? ==> forall j :: 0 <= j < |rows| && Visible(v, j) ==> !rows[j].ToolMessage?
    ensures NewestTool(v, rows).Some? ==>
              forall j :: NewestTool(v, rows).value < j < |rows| && Visible(v, j) ==> !rows[j].ToolMessage?
  {
    if rows != [] && !(rows[|rows| - 1].ToolMessage? && Visible(v, |rows| - 1)) {
      NewestIsNewest(v, rows[..|rows| - 1]);
    }
  }

  lemma FindsWhatIsOpen(v: View, rows: seq<Row>)
    requires VisibleOk(v, rows)
    ensures FindUnresolved(v, rows).None? <==> VisibleSettled(v, rows)
    ensures FindUnresolved(v, rows).Some? ==>
              var i := FindUnresolved(v, rows).value;
              && i < |rows| && Visible(v, i) && rows[i].ToolMessage? && !Settled(rows[i])
              && forall j :: i < j < |rows| && Visible(v, j) ==> !rows[j].ToolMessage?
  {
    NewestIsNewest(v, rows);
    if NewestTool(v, rows).Some? {
      var n := NewestTool(v, rows).value;
      assert forall j :: 0 <= j < |rows| && j != n && Visible(v, j) ==> Settled(rows[j]);
    }
  }

  // ---------------------------------------------------------------- what the model is sent

  /** The history shows a result for this call of message `i`. */
  predicate AnsweredIn(p: Sent, i: nat, callId: string)
    requires i < |p.rows| && p.rows[i].ToolMessage?
  {
    exists k :: 0 <= k < |p.rows[i].tables.results| && p.rows[i].tables.results[k].callId == callId
                && !HiddenResult(p.view, i, k)
  }

  /** Every call of the history has its result in the history. */
  predicate AllAnswered(p: Sent) {
    forall i, c :: 0 <= i < |p.rows| && Visible(p.view, i) && p.rows[i].ToolMessage?
                   && 0 <= c < |p.rows[i].tables.calls| ==>
      AnsweredIn(p, i, p.rows[i].tables.calls[c].id)
  }

  /** A result of a message before the target is newer than the target. */
  predicate LateResult(v: View) {
    exists i, k :: 0 <= i < |v.before| && i < v.target && v.before[i].ToolMessage?
                   && 0 <= k < |v.before[i].stamps| && HiddenResult(v, i, k)
  }

  /** A history is complete exactly when its messages are settled and none of their results is hidden from it. */
  lemma AllAnsweredIff(p: Sent)
    requires (forall i :: 0 <= i < |p.rows| ==> RowOk(p.rows[i])) && Later(p.view.before, p.rows)
    ensures AllAnswered(p) <==> VisibleSettled(p.view, p.rows) && !LateResult(p.view)
  {
    if AllAnswered(p) {
      forall i | 0 <= i < |p.rows| && Visible(p.view, i) ensures Settled(p.rows[i]) {
        AnsweredIsSettled(p, i);
      }
      forall i, k | 0 <= i < |p.view.before| && i < p.view.target && p.view.before[i].ToolMessage?
                    && 0 <= k < |p.view.before[i].stamps|
        ensures !HiddenResult(p.view, i, k)
      {
        OnlyResult(p, i, k);
      }
    } else {
      var i, c :| 0 <= i < |p.rows| && Visible(p.view, i) && p.rows[i].ToolMessage?
                  && 0 <= c < |p.rows[i].tables.calls| && !AnsweredIn(p, i, p.rows[i].tables.calls[c].id);
      MissingResult(p, i, c);
    }
  }

  lemma AnsweredIsSettled(p: Sent, i: nat)
    requires AllAnswered(p) && i < |p.rows| && Visible(p.view, i)
    ensures Settled(p.rows[i])
  {
    if p.rows[i].ToolMessage? {
      var t := p.rows[i].tables;
      forall c | 0 <= c < |t.calls| ensures Chat.HasResult(t, t.calls[c].id) {
        assert AnsweredIn(p, i, t.calls[c].id);
      }
    }
  }

  /** Result `k` is the only one of call `k`, so an answered call shows it. */
  lemma OnlyResult(p: Sent, i: nat, k: nat)
    requires AllAnswered(p) && i < |p.rows| && Visible(p.view, i) && RowOk(p.rows[i])
    requires p.rows[i].ToolMessage? && k < |p.rows[i].tables.results|
    ensures !HiddenResult(p.view, i, k)
  {
    var t := p.rows[i].tables;
    assert AnsweredIn(p, i, t.calls[k].id);
    var m :| 0 <= m < |t.results| && t.results[m].callId == t.calls[k].id && !HiddenResult(p.view, i, m);
    assert t.calls[m].id == t.calls[k].id && Ids(t.calls)[m] == Ids(t.calls)[k];
  }

  lemma MissingResult(p: Sent, i: nat, c: nat)
    requires i < |p.rows| && Visible(p.view, i) && p.rows[i].ToolMessage? && RowOk(p.rows[i])
    requires c < |p.rows[i].tables.calls| && !AnsweredIn(p, i, p.rows[i].tables.calls[c].id)
    ensures !Settled(p.rows[i]) || LateResult(p.view)
  {
    var t := p.rows[i].tables;
    Chat.UnresolvedIffShort(t);
    if c < |t.results| {
      assert t.results[c].callId == t.calls[c].id;
      assert HiddenResult(p.view, i, c);
    }
  }

  // ---------------------------------------------------------------- what a turn does to its conversation

  lemma WithTablesOk(r: Row, t: Chat.Tables, now: nat)
    requires RowOk(r) && r.ToolMessage? && Chat.TablesOk(t) && |r.tables.results| <= |t.results|
    requires r.complete ==> !Chat.HasUnresolved(t)
    ensures RowOk(WithTables(r, t, now)) && |r.stamps| <= |WithTables(r, t, now).stamps|
  {
  }

  /** After its walk a message is settled, or else someone must decide its first unanswered call. */
  lemma FinishKeeps(env: Env, k: nat, s: State, i: nat)
    requires VisibleOk(s.view, s.rows) && i < |s.rows| && s.rows[i].ToolMessage?
    requires Visible(s.view, i) && (forall j :: i < j < |s.rows| && Visible(s.view, j) ==> !s.rows[j].ToolMessage?)
    ensures var (s', ending) := FinishMessage(env, k, s, i);
            && VisibleOk(s.view, s'.rows) && |s'.rows| == |s.rows| && s'.asked == s.asked && s'.view == s.view
            && (forall j :: 0 <= j < |s.rows| && j != i ==> s'.rows[j] == s.rows[j])
            && s'.rows[i].ToolMessage? && |s.rows[i].stamps| <= |s'.rows[i].stamps|
            && (if ending == Some(Blocked) then Waiting(s.view, s'.rows) else VisibleSettled(s.view, s'.rows))
            && ending in {None, Some(Blocked), Some(RepeatedFailure)}
  {
    var t := Chat.Walk(s.rows[i].tables, env.config, 0, env.policies(k), env.output(k));
    var (s', ending) := FinishMessage(env, k, s, i);
    assert RowOk(s.rows[i]);
    Chat.WalkResolvesWhatItCan(s.rows[i].tables, env.config, 0, env.policies(k), env.output(k));
    Chat.UnresolvedIffShort(t);
    Chat.UnresolvedIffShort(s.rows[i].tables);
    WithTablesOk(s.rows[i], t, |s.rows|);
    assert forall j :: 0 <= j < |s.rows| && j != i && Visible(s.view, j) ==> Settled(s'.rows[j]);
    if ending == Some(Blocked) {
      assert Waits(s'.rows[i]);
    }
  }

  lemma NewMessageOk(v: View, rows: seq<Row>, calls: seq<ToolCall>)
    requires VisibleOk(v, rows) && VisibleSettled(v, rows) && Distinct(Ids(calls))
    ensures VisibleOk(v, rows + [NewMessage(calls)])
  {
    var rows' := rows + [NewMessage(calls)];
    Chat.FreshInv(calls);
    assert forall i :: 0 <= i < |rows| ==> rows'[i] == rows[i];
  }

  /** A turn ends in front of a call that someone must decide, or with every visible call answered. */
  ghost predicate EndsWell(v: View, rows: seq<Row>, ending: Ending) {
    if ending == Blocked then Waiting(v, rows) else VisibleSettled(v, rows)
  }

  /** What an iteration, and a whole turn, does to the conversation it started from. */
  ghost predicate Grows(s: State, s': State, most: nat) {
    && s'.view == s.view && VisibleOk(s.view, s'.rows) && Later(s.rows, s'.rows)
    && (forall i :: 0 <= i < |s.rows| && (Settled(s.rows[i]) || !Visible(s.view, i)) ==> s'.rows[i] == s.rows[i])
    && (forall i :: 0 <= i < |s.rows| ==> s.rows[i].ToolMessage? == s'.rows[i].ToolMessage?)
    && s.asked <= s'.asked && |s'.asked| <= |s.asked| + most
    && (forall i :: |s.asked| <= i < |s'.asked| ==> AnsweredUnlessLate(s, s'.asked[i]))
  }

  /** The turn sends histories in its own view, complete exactly when no result is hidden from it. */
  ghost predicate AnsweredUnlessLate(s: State, p: Sent) {
    p.view == s.view && (AllAnswered(p) <==> !LateResult(s.view))
  }

  lemma IterationGrows(env: Env, k: nat, s: State)
    requires WellBehaved(env) && VisibleOk(s.view, s.rows) && Later(s.view.before, s.rows)
    ensures var (s', ending) := Iteration(env, k, s);
            && Grows(s, s', 1)
            && (if ending.Some? then EndsWell(s.view, s'.rows, ending.value) else VisibleSettled(s.view, s'.rows))
  {
    FindsWhatIsOpen(s.view, s.rows);
    if FindUnresolved(s.view, s.rows).Some? {
      FinishKeeps(env, k, s, FindUnresolved(s.view, s.rows).value);
      FinishGrows(env, k, s, FindUnresolved(s.view, s.rows).value);
    } else {
      AskGrows(env, k, s);
    }
  }

  lemma AskGrows(env: Env, k: nat, s: State)
    requires WellBehaved(env) && VisibleOk(s.view, s.rows) && VisibleSettled(s.view, s.rows)
    requires Later(s.view.before, s.rows)
    ensures var (s', ending) := AskModel(env, k, s);
            && Grows(s, s', 1)
            && (if ending.Some? then EndsWell(s.view, s'.rows, ending.value) else VisibleSettled(s.view, s'.rows))
  {
    AllAnsweredIff(Sent(s.view, s.rows));
    if env.model(k).Some? && env.model(k).value != [] {
      var calls := env.model(k).value;
      NewMessageOk(s.view, s.rows, calls);
      NewMessageGrows(s, calls);
      NewMessageFinishes(env, k, s, calls);
    } else {
      NoMessageGrows(s);
    }
  }

  lemma NoMessageGrows(s: State)
    requires VisibleOk(s.view, s.rows) && AnsweredUnlessLate(s, Sent(s.view, s.rows))
    ensures Grows(s, s.(asked := s.asked + [Sent(s.view, s.rows)]), 1)
    ensures Grows(s, s.(rows := s.rows + [Answer], asked := s.asked + [Sent(s.view, s.rows)]), 1)
  {
  }

  lemma NewMessageFinishes(env: Env, k: nat, s: State, calls: seq<ToolCall>)
    requires VisibleOk(s.view, s.rows + [NewMessage(calls)]) && |s.view.before| <= |s.rows| && calls != []
    requires Grows(s, s.(rows := s.rows + [NewMessage(calls)], asked := s.asked + [Sent(s.view, s.rows)]), 1)
    ensures var mid := s.(rows := s.rows + [NewMessage(calls)], asked := s.asked + [Sent(s.view, s.rows)]);
            var (s', ending) := FinishMessage(env, k, mid, |s.rows|);
            && Grows(s, s', 1)
            && (if ending.Some? then EndsWell(s.view, s'.rows, ending.value) else VisibleSettled(s.view, s'.rows))
  {
    var mid := s.(rows := s.rows + [NewMessage(calls)], asked := s.asked + [Sent(s.view, s.rows)]);
    Chat.UnresolvedIffShort(mid.rows[|s.rows|].tables);
    FinishKeeps(env, k, mid, |s.rows|);
    FinishGrows(env, k, mid, |s.rows|);
    GrowsTwice(s, mid, FinishMessage(env, k, mid, |s.rows|).0, 1, 0, 1);
  }

  lemma NewMessageGrows(s: State, calls: seq<ToolCall>)
    requires VisibleOk(s.view, s.rows + [NewMessage(calls)]) && AnsweredUnlessLate(s, Sent(s.view, s.rows))
    ensures Grows(s, s.(rows := s.rows + [NewMessage(calls)], asked := s.asked + [Sent(s.view, s.rows)]), 1)
  {
  }

  lemma FinishGrows(env: Env, k: nat, s: State, i: nat)
    requires VisibleOk(s.view, s.rows) && i < |s.rows| && s.rows[i].ToolMessage? && !Settled(s.rows[i])
    requires Visible(s.view, i) && (forall j :: i < j < |s.rows| && Visible(s.view, j) ==> !s.rows[j].ToolMessage?)
    ensures Grows(s, FinishMessage(env, k, s, i).0, 0)
  {
    FinishKeeps(env, k, s, i);
  }

  lemma GrowsTwice(s: State, s': State, s'': State, a: nat, b: nat, most: nat)
    requires Grows(s, s', a) && Grows(s', s'', b) && a + b <= most
    ensures Grows(s, s'', a + b) && Grows(s, s'', most)
  {
    forall i | |s.asked| <= i < |s''.asked| ensures AnsweredUnlessLate(s, s''.asked[i]) {
      if i < |s'.asked| {
        assert s''.asked[i] == s'.asked[i];
      } else {
        assert AnsweredUnlessLate(s', s''.asked[i]);
      }
    }
  }

  lemma LaterStays(a: seq<Row>, b: seq<Row>, c: seq<Row>)
    requires Later(a, b) && Later(b, c)
    ensures Later(a, c)
  {
  }

  /**
    Whatever the model and the tools do, a turn asks the model at most once an iteration, and the history it sends
    shows a result for every call exactly when the turn is blind to no result of a message it sees; it rewrites
    neither a settled message nor one it does not see; and it ends either in front of a call that
    someone must decide, or with every visible call answered.
   */
  lemma TurnGrows(env: Env, limit: nat, s: State)
    requires WellBehaved(env) && VisibleOk(s.view, s.rows) && Later(s.view.before, s.rows)
    ensures var (s', ending) := Turn(env, limit, s);
            Grows(s, s', limit) && (limit > 0 ==> EndsWell(s.view, s'.rows, ending))
  {
    var inv, ends := GrowsSo(s), GrowsAndEnds(s, limit);
    forall k: nat, t: State | k < limit ensures KeepsOrEnds(Iterations(env), inv, ends, k, t) {
      if inv(k, t) {
        LaterStays(s.view.before, s.rows, t.rows);
        IterationGrows(env, k, t);
        GrowsTwice(s, t, Iteration(env, k, t).0, k, 1, limit);
      }
    }
    RepeatKeeps(Iterations(env), TooManySteps, inv, ends, 0, limit, s);
  }

  ghost function GrowsSo(s: State): (nat, State) -> bool {
    (k: nat, t: State) => Grows(s, t, k) && (k > 0 ==> VisibleSettled(s.view, t.rows))
  }

  ghost function GrowsAndEnds(s: State, limit: nat): (State, Ending) -> bool {
    (t: State, ending: Ending) => Grows(s, t, limit) && (limit > 0 ==> EndsWell(s.view, t.rows, ending))
  }

  // ---------------------------------------------------------------- the failure counts of a turn

  /** Failures of one signature among the messages a turn finished. */
  function TurnFailures(env: Env, finished: seq<Chat.Tables>, signature: string): nat {
    if finished == [] then 0
    else
      var t := finished[|finished| - 1];
      TurnFailures(env, finished[..|finished| - 1], signature) + Failures(env, t, t.calls, signature)
  }

  ghost predicate Counted(env: Env, s: State) {
    forall signature :: CountOf(s.counts, signature) == TurnFailures(env, s.finished, signature) <= 1
  }

  ghost predicate Repeated(env: Env, finished: seq<Chat.Tables>) {
    exists signature :: TurnFailures(env, finished, signature) >= 2
  }

  lemma FinishCounts(env: Env, k: nat, s: State, i: nat)
    requires Counted(env, s) && i < |s.rows| && s.rows[i].ToolMessage?
    ensures var (s', ending) := FinishMessage(env, k, s, i);
            if ending == Some(RepeatedFailure) then Repeated(env, s'.finished) else Counted(env, s')
  {
    var t := Chat.Walk(s.rows[i].tables, env.config, 0, env.policies(k), env.output(k));
    var (s', ending) := FinishMessage(env, k, s, i);
    if ending != Some(Blocked) {
      OneMoreFinished(env, s, t, s'.counts, ending == Some(RepeatedFailure));
    }
  }

  lemma TurnFailuresAppend(env: Env, finished: seq<Chat.Tables>, t: Chat.Tables, signature: string)
    ensures TurnFailures(env, finished + [t], signature) ==
            TurnFailures(env, finished, signature) + Failures(env, t, t.calls, signature)
  {
    assert (finished + [t])[..|finished|] == finished;
  }

  lemma OneMoreFinished(env: Env, s: State, t: Chat.Tables, counts: map<string, nat>, repeated: bool)
    requires Counted(env, s) && (counts, repeated) == CountFailures(env, t, t.calls, s.counts)
    ensures if repeated then Repeated(env, s.finished + [t])
            else forall signature :: CountOf(counts, signature) == TurnFailures(env, s.finished + [t], signature) <= 1
  {
    CountsAreFailures(env, t, t.calls, s.counts);
    if repeated {
      var signature :| CountOf(s.counts, signature) + Failures(env, t, t.calls, signature) >= 2;
      TurnFailuresAppend(env, s.finished, t, signature);
    } else {
      forall signature ensures CountOf(counts, signature) == TurnFailures(env, s.finished + [t], signature) <= 1 {
        TurnFailuresAppend(env, s.finished, t, signature);
      }
    }
  }

  lemma IterationCounts(env: Env, k: nat, s: State)
    requires Counted(env, s)
    ensures var (s', ending) := Iteration(env, k, s);
            if ending == Some(RepeatedFailure) then Repeated(env, s'.finished) else Counted(env, s')
  {
    var found := FindUnresolved(s.view, s.rows);
    if found.Some? {
      FinishCounts(env, k, s, found.value);
    } else if env.model(k).Some? && env.model(k).value != [] {
      var rows := s.rows + [NewMessage(env.model(k).value)];
      FinishCounts(env, k, s.(rows := rows, asked := s.asked + [Sent(s.view, s.rows)]), |s.rows|);
    }
  }

  lemma TurnCounts(env: Env, limit: nat, s: State)
    requires Counted(env, s)
    ensures var (s', ending) := Turn(env, limit, s);
            if ending == RepeatedFailure then Repeated(env, s'.finished) else Counted(env, s')
  {
    var inv := (_: nat, t: State) => Counted(env, t);
    var ends := (t: State, e: Ending) => if e == RepeatedFailure then Repeated(env, t.finished) else Counted(env, t);
    forall k: nat, t: State | k < limit ensures KeepsOrEnds(Iterations(env), inv, ends, k, t) {
      if inv(k, t) {
        IterationCounts(env, k, t);
      }
    }
    RepeatKeeps(Iterations(env), TooManySteps, inv, ends, 0, limit, s);
  }

  /** A turn stops for a repeated failure exactly when, among the messages it finished, the same tool with the same
      arguments failed twice. */
  lemma RepetitionStopsTurn(env: Env, limit: nat, v: View, rows: seq<Row>)
    ensures var (s, ending) := Turn(env, limit, Opening(v, rows));
            ending == RepeatedFailure <==> Repeated(env, s.finished)
  {
    TurnCounts(env, limit, Opening(v, rows));
    var (s, ending) := Turn(env, limit, Opening(v, rows));
    if Counted(env, s) {
      forall signature ensures TurnFailures(env, s.finished, signature) <= 1 {
        assert CountOf(s.counts, signature) <= 1;
      }
    }
  }

  // ---------------------------------------------------------------- the loop itself

  method RepeatedFailureDetail(env: Env, t: Chat.Tables, before: map<string, nat>)
      returns (counts: map<string, nat>, repeated: bool)
    ensures (counts, repeated) == CountFailures(env, t, t.calls, before)
  {
    counts := before;
    for i := 0 to |t.calls|
      invariant CountFailures(env, t, t.calls[i..], counts) == CountFailures(env, t, t.calls, before)
    {
      var call := t.calls[i];
      if Fails(env, t, call) {
        var signature := Signature(env, call);
        counts := counts[signature := CountOf(counts, signature) + 1];
        if counts[signature] >= 2 {
          return counts, true;
        }
      }
    }
    return counts, false;
  }

  class Conversation {
    var rows: seq<Row>

    /** `_continue_turn`; `end` holds the turn's variables when it returns. */
    method ContinueTurn(env: Env, limit: nat, v: View) returns (ending: Ending, ghost end: State)
      modifies this
      ensures (end, ending) == Turn(env, limit, Opening(v, old(rows)))
      ensures rows == end.rows
    {
      var counts: map<string, nat> := map[];
      end := Opening(v, rows);
      ghost var goal := Turn(env, limit, end);
      for k := 0 to limit
        invariant end.view == v && end.rows == rows && end.counts == counts
        invariant Repeat(Iterations(env), TooManySteps, k, limit - k, end) == goal
      {
        var stop;
        assert Iterations(env)(k, end) == Iteration(env, k, end);
        counts, stop, end := Iterate(env, k, v, counts, end);
        if stop.Some? {
          return stop.value, end;
        }
      }
      return TooManySteps, end;
    }

    /** One iteration: go on with the newest message if it has unanswered calls, else ask the model. */
    method Iterate(env: Env, k: nat, v: View, before: map<string, nat>, ghost s: State)
        returns (counts: map<string, nat>, stop: Option<Ending>, ghost s': State)
      requires s.view == v && s.rows == rows && s.counts == before
      modifies this
      ensures (s', stop) == Iteration(env, k, s)
      ensures s'.view == v && s'.rows == rows && s'.counts == counts
    {
      counts := before;
      var unresolved := FindUnresolved(v, rows);
      if unresolved.Some? {
        counts, stop, s' := AdvanceMessage(env, k, unresolved.value, counts, s);
        return;
      }
      s' := s.(asked := s.asked + [Sent(v, rows)]);
      var response := env.model(k);
      if response.None? {
        return counts, Some(ModelFailed), s';
      }
      if response.value == [] {
        rows := rows + [Answer];
        return counts, Some(Answered), s'.(rows := rows);
      }
      rows := rows + [NewMessage(response.value)];
      counts, stop, s' := AdvanceMessage(env, k, |rows| - 1, counts, s'.(rows := rows));
    }

    /** Walks message `i`, completes it unless it is still blocked, and looks for a repeated failure. */
    method AdvanceMessage(env: Env, k: nat, i: nat, before: map<string, nat>, ghost s: State)
        returns (counts: map<string, nat>, stop: Option<Ending>, ghost s': State)
      requires s.rows == rows && s.counts == before && i < |rows| && rows[i].ToolMessage?
      modifies this
      ensures (s', stop) == FinishMessage(env, k, s, i)
      ensures s'.view == s.view && s'.rows == rows && s'.counts == counts
    {
      counts := before;
      var t := Chat.Walk(rows[i].tables, env.config, 0, env.policies(k), env.output(k));
      var row := WithTables(rows[i], t, |rows|);
      if Chat.HasUnresolved(t) {
        rows := rows[i := row];
        return counts, Some(Blocked), s.(rows := rows);
      }
      rows := rows[i := row.(complete := true)];
      var repeated;
      counts, repeated := RepeatedFailureDetail(env, t, counts);
      s' := State(s.view, rows, counts, s.finished + [t], s.asked);
      return counts, if repeated then Some(RepeatedFailure) else None, s';
    }
  }
}
