/**
  Whole conversations, one turn after the other: people write, resume, decide and regenerate earlier answers.
 */
module Conversations {
  import opened Approvals
  import opened Base
  import opened ChatTurns
  import opened Transcript
  import Chat
  import Gates
  import Rows

  datatype Event =
    | Send(env: Env)
    | Resume(env: Env)
    | Regenerate(env: Env, target: nat)
    | Decide(message: nat, row: nat, approve: bool)

  /** A regenerating turn is blind to its target and to all that is newer; what it creates comes after that. */
  function Regenerated(env: Env, limit: nat, rows: seq<Row>, target: nat): State {
    Turn(env, limit, Opening(View(target, rows), rows)).0
  }

  /** The conversation after an event, and what the event's turn sent to the model. */
  function Apply(limit: nat, rows: seq<Row>, e: Event): (seq<Row>, seq<Sent>) {
    match e
    case Send(env) =>
      var s := Turn(env, limit, Opening(EVERYTHING, rows + [UserText])).0; (s.rows, s.asked)
    case Resume(env) =>
      var s := Turn(env, limit, Opening(EVERYTHING, rows)).0; (s.rows, s.asked)
    case Regenerate(env, target) =>
      if target < |rows| && Regenerable(rows[target]) then
        var s := Regenerated(env, limit, rows, target); (s.rows, s.asked)
      else (rows, [])
    case Decide(m, r, approve) =>
      if m < |rows| && rows[m].ToolMessage? then
        (rows[m := rows[m].(tables := Chat.Decided(rows[m].tables, r, approve))], [])
      else (rows, [])
  }

  function Converse(limit: nat, events: seq<Event>): seq<Row> {
    if events == [] then []
    else Apply(limit, Converse(limit, events[..|events| - 1]), events[|events| - 1]).0
  }

  /** The first response of the model names no call. */
  predicate CallsNothing(env: Env) {
    env.model(0).None? || env.model(0).value == []
  }

  predicate Regenerates(rows: seq<Row>, e: Event) {
    e.Regenerate? && e.target < |rows| && Regenerable(rows[e.target])
  }

  /** A regeneration loses no call: nothing from its target on is unanswered, or its turn asks for no tool. */
  predicate LosesNothing(limit: nat, rows: seq<Row>, e: Event) {
    Regenerates(rows, e) ==> limit == 0 || AllSettled(rows[e.target..]) || CallsNothing(e.env)
  }

  ghost predicate Careful(limit: nat, events: seq<Event>) {
    events != [] ==>
      && Careful(limit, events[..|events| - 1])
      && LosesNothing(limit, Converse(limit, events[..|events| - 1]), events[|events| - 1])
  }

  ghost predicate EventBehaves(e: Event) {
    !e.Decide? ==> WellBehaved(e.env)
  }

  /** With nothing open in front of it a turn first asks the model, and a response with calls adds a message. */
  lemma TurnAddsMessage(env: Env, limit: nat, v: View, rows: seq<Row>)
    requires limit > 0 && FindUnresolved(v, rows).None? && !CallsNothing(env)
    ensures var rows' := Turn(env, limit, Opening(v, rows)).0.rows; |rows| < |rows'| && rows'[|rows|].ToolMessage?
  {
    var (s, ending) := Iteration(env, 0, Opening(v, rows));
    if ending.None? {
      MessageStays(env, limit - 1, s, |rows|);
    }
  }

  /** Later iterations leave a message with calls where it is. */
  lemma MessageStays(env: Env, left: nat, s: State, n: nat)
    requires n < |s.rows| && s.rows[n].ToolMessage?
    ensures var rows := Repeat(Iterations(env), TooManySteps, 1, left, s).0.rows; n < |rows| && rows[n].ToolMessage?
  {
    var inv := (_: nat, t: State) => n < |t.rows| && t.rows[n].ToolMessage?;
    var ends := (t: State, _: Ending) => n < |t.rows| && t.rows[n].ToolMessage?;
    RepeatKeeps(Iterations(env), TooManySteps, inv, ends, 1, left, s);
  }

  /** A response without calls ends the turn, at most with a final answer. */
  lemma TurnAddsNoMessage(env: Env, limit: nat, v: View, rows: seq<Row>)
    requires FindUnresolved(v, rows).None? && CallsNothing(env)
    ensures var rows' := Turn(env, limit, Opening(v, rows)).0.rows;
            rows' == rows || (rows' == rows + [Answer] && env.model(0).Some?)
    ensures limit > 0 && env.model(0).Some? ==> Turn(env, limit, Opening(v, rows)).0.rows == rows + [Answer]
  {
    assert limit > 0 ==> Iteration(env, 0, Opening(v, rows)) == AskModel(env, 0, Opening(v, rows));
  }

  /** In front of an unanswered call everything is settled. */
  lemma SettledBefore(rows: seq<Row>, target: nat)
    requires ConversationOk(rows) && target < |rows| && !AllSettled(rows[target..])
    ensures FindUnresolved(View(target, rows), rows).None? && forall i :: 0 <= i < target ==> Settled(rows[i])
  {
    var i :| 0 <= i < |rows[target..]| && !Settled(rows[target..][i]);
    assert rows[target..][i] == rows[target + i];
    PartIsOk(View(target, rows), rows);
    FindsWhatIsOpen(View(target, rows), rows);
  }

  /**
    A regenerating turn sends complete histories exactly when no result of an earlier message is newer than
    its target. And it keeps unanswered calls confined to the newest message exactly when it hides
    none, or the model's first response, which it is bound to ask for, names no call.
   */
  lemma RegenerationKeepsIff(env: Env, limit: nat, rows: seq<Row>, target: nat)
    requires WellBehaved(env) && ConversationOk(rows) && target < |rows|
    ensures var s := Regenerated(env, limit, rows, target);
            && (forall k :: 0 <= k < |s.asked| ==> (AllAnswered(s.asked[k]) <==> !LateResult(View(target, rows))))
            && (ConversationOk(s.rows) <==> limit == 0 || AllSettled(rows[target..]) || CallsNothing(env))
  {
    var v := View(target, rows);
    var s := Regenerated(env, limit, rows, target);
    PartIsOk(v, rows);
    RegenerationSends(env, limit, rows, target);
    TurnGrows(env, limit, Opening(v, rows));
    if AllSettled(rows[target..]) {
      NothingHidden(rows, target, s.rows);
    } else if limit > 0 {
      SettledBefore(rows, target);
      if CallsNothing(env) {
        TurnAddsNoMessage(env, limit, v, rows);
      } else {
        TurnAddsMessage(env, limit, v, rows);
        HiddenCallStays(rows, target, s.rows);
      }
    }
  }

  lemma RegenerationSends(env: Env, limit: nat, rows: seq<Row>, target: nat)
    requires WellBehaved(env) && VisibleOk(View(target, rows), rows)
    ensures var s := Regenerated(env, limit, rows, target);
            forall k :: 0 <= k < |s.asked| ==> (AllAnswered(s.asked[k]) <==> !LateResult(View(target, rows)))
  {
    var s := Opening(View(target, rows), rows);
    var s' := Regenerated(env, limit, rows, target);
    TurnGrows(env, limit, s);
    forall k | 0 <= k < |s'.asked| ensures AllAnswered(s'.asked[k]) <==> !LateResult(s.view) {
      assert AnsweredUnlessLate(s, s'.asked[k]);
    }
  }

  /** If nothing from the target on is open, what the turn keeps among the visible messages it keeps overall. */
  lemma NothingHidden(rows: seq<Row>, target: nat, rows': seq<Row>)
    requires ConversationOk(rows) && target < |rows| && AllSettled(rows[target..])
    requires VisibleOk(View(target, rows), rows') && |rows| <= |rows'|
    requires forall i :: 0 <= i < |rows| && (Settled(rows[i]) || target <= i) ==> rows'[i] == rows[i]
    ensures ConversationOk(rows')
  {
    assert forall i :: target <= i < |rows| ==> rows[i] == rows[target..][i - target];
    forall i, j | 0 <= i < j < |rows'| && rows'[j].ToolMessage? ensures Settled(rows'[i]) {
      if i < target <= j < |rows| {
        assert Settled(rows[i]);
      }
    }
  }

  lemma HiddenCallStays(rows: seq<Row>, target: nat, rows': seq<Row>)
    requires target < |rows| < |rows'| && !AllSettled(rows[target..]) && rows'[|rows|].ToolMessage?
    requires forall i :: target <= i < |rows| ==> rows'[i] == rows[i]
    ensures !ConversationOk(rows') && !VisibleSettled(EVERYTHING, rows')
  {
    var i :| 0 <= i < |rows[target..]| && !Settled(rows[target..][i]);
    assert rows'[target + i] == rows[target..][i];
  }

  lemma ApplyKeeps(limit: nat, rows: seq<Row>, e: Event)
    requires ConversationOk(rows) && EventBehaves(e)
    ensures LosesNothing(limit, rows, e) ==> ConversationOk(Apply(limit, rows, e).0)
    ensures var asked := Apply(limit, rows, e).1;
            forall k :: 0 <= k < |asked| ==>
              (AllAnswered(asked[k]) <==> !(Regenerates(rows, e) && LateResult(View(e.target, rows))))
  {
    match e
    case Send(env) => PlainTurnKeeps(env, limit, rows + [UserText]);
    case Resume(env) => PlainTurnKeeps(env, limit, rows);
    case Regenerate(env, target) =>
      if Regenerates(rows, e) {
        RegenerationKeepsIff(env, limit, rows, target);
      }
    case Decide(m, r, approve) =>
      if m < |rows| && rows[m].ToolMessage? {
        DecideKeeps(rows, m, r, approve);
      }
  }

  lemma PlainTurnKeeps(env: Env, limit: nat, rows: seq<Row>)
    requires WellBehaved(env) && ConversationOk(rows)
    ensures var s := Turn(env, limit, Opening(EVERYTHING, rows)).0;
            ConversationOk(s.rows) && forall k :: 0 <= k < |s.asked| ==> AllAnswered(s.asked[k])
  {
    var s := Turn(env, limit, Opening(EVERYTHING, rows)).0;
    TurnGrows(env, limit, Opening(EVERYTHING, rows));
    forall k | 0 <= k < |s.asked| ensures AllAnswered(s.asked[k]) {
      assert AnsweredUnlessLate(Opening(EVERYTHING, rows), s.asked[k]);
    }
  }

  lemma DecideKeeps(rows: seq<Row>, m: nat, r: nat, approve: bool)
    requires ConversationOk(rows) && m < |rows| && rows[m].ToolMessage?
    ensures ConversationOk(rows[m := rows[m].(tables := Chat.Decided(rows[m].tables, r, approve))])
  {
    assert RowOk(rows[m]);
    Chat.DecidedOk(rows[m].tables, r, approve);
    assert Chat.HasUnresolved(Chat.Decided(rows[m].tables, r, approve)) == Chat.HasUnresolved(rows[m].tables);
  }

  lemma {:induction false} ConverseOk(limit: nat, events: seq<Event>)
    requires (forall i :: 0 <= i < |events| ==> EventBehaves(events[i])) && Careful(limit, events)
    ensures ConversationOk(Converse(limit, events))
  {
    if events != [] {
      ConverseOk(limit, events[..|events| - 1]);
      ApplyKeeps(limit, Converse(limit, events[..|events| - 1]), events[|events| - 1]);
    }
  }

  /**
    Over a whole conversation of messages, decisions, resumptions and regenerations, one turn after the
    other: as long as no regeneration has lost a call, whatever is sent to the model shows a result for
    each of its calls, with exactly one exception. A regeneration sends a call without its result when
    the call's message is older than the target and its result is newer.
   */
  lemma ModelSeesOnlyAnsweredCalls(limit: nat, events: seq<Event>, e: Event)
    requires (forall i :: 0 <= i < |events| ==> EventBehaves(events[i])) && Careful(limit, events)
    requires EventBehaves(e)
    ensures var rows := Converse(limit, events);
            var asked := Apply(limit, rows, e).1;
            forall k :: 0 <= k < |asked| ==>
              (AllAnswered(asked[k]) <==> !(Regenerates(rows, e) && LateResult(View(e.target, rows))))
  {
    ConverseOk(limit, events);
    ApplyKeeps(limit, Converse(limit, events), e);
  }

  /** While a decision is outstanding, further resumptions change nothing and never reach the model. */
  lemma ResumeWhileWaiting(env: Env, limit: nat, rows: seq<Row>)
    requires ConversationOk(rows) && Waiting(EVERYTHING, rows) && limit > 0
    ensures Turn(env, limit, Opening(EVERYTHING, rows)) == (Opening(EVERYTHING, rows), Blocked)
  {
    var i := WaitingMessage(EVERYTHING, rows);
    ResumeInFrontOf(env, limit, rows, i);
  }

  /** The same for the newest message with calls, whatever is open elsewhere. */
  lemma ResumeInFrontOf(env: Env, limit: nat, rows: seq<Row>, i: nat)
    requires limit > 0 && i < |rows| && Waits(rows[i]) && RowOk(rows[i])
    requires forall j :: i < j < |rows| ==> !rows[j].ToolMessage?
    ensures Turn(env, limit, Opening(EVERYTHING, rows)) == (Opening(EVERYTHING, rows), Blocked)
  {
    var t := rows[i].tables;
    NewestIsNewest(EVERYTHING, rows);
    Chat.UnresolvedIffShort(t);
    Chat.WalkStuck(t, env.config, 0, env.policies(0), env.output(0));
    StuckMessage(env, rows, i);
  }

  lemma StuckMessage(env: Env, rows: seq<Row>, i: nat)
    requires FindUnresolved(EVERYTHING, rows) == Some(i) && RowOk(rows[i])
    requires Chat.Walk(rows[i].tables, env.config, 0, env.policies(0), env.output(0)) == rows[i].tables
    ensures Iteration(env, 0, Opening(EVERYTHING, rows)) == (Opening(EVERYTHING, rows), Some(Blocked))
  {
    assert WithTables(rows[i], rows[i].tables, |rows|) == rows[i];
    assert rows[i := rows[i]] == rows;
  }

  /** The message that waits is the newest visible one with calls. */
  lemma WaitingMessage(v: View, rows: seq<Row>) returns (i: nat)
    requires VisibleOk(v, rows) && Waiting(v, rows)
    ensures i < |rows| && Visible(v, i) && Waits(rows[i]) && RowOk(rows[i]) && !Settled(rows[i])
    ensures forall j :: i < j < |rows| && Visible(v, j) ==> !rows[j].ToolMessage?
  {
    i :| 0 <= i < |rows| && Visible(v, i) && Waits(rows[i]);
    assert RowOk(rows[i]);
    Chat.UnresolvedIffShort(rows[i].tables);
  }

  // ---------------------------------------------------------------- what a careless regeneration does

  lemma FirstAsk(env: Env, limit: nat, v: View, rows: seq<Row>)
    requires limit > 0 && FindUnresolved(v, rows).None?
    ensures var asked := Turn(env, limit, Opening(v, rows)).0.asked; asked != [] && asked[0] == Sent(v, rows)
  {
    var (s, ending) := Iteration(env, 0, Opening(v, rows));
    assert s.asked == [Sent(v, rows)];
    if ending.None? {
      AskedStays(env, limit - 1, s, Sent(v, rows));
    }
  }

  lemma AskedStays(env: Env, left: nat, s: State, p: Sent)
    requires [p] <= s.asked
    ensures [p] <= Repeat(Iterations(env), TooManySteps, 1, left, s).0.asked
  {
    var inv := (_: nat, t: State) => [p] <= t.asked;
    var ends := (t: State, _: Ending) => [p] <= t.asked;
    RepeatKeeps(Iterations(env), TooManySteps, inv, ends, 1, left, s);
  }

  /**
    Regenerating an earlier answer while a later call is unanswered, when the model asks for a tool: a
    resumed turn no longer finds the later message. It sends the model the unanswered call, unless the
    regenerating turn itself ended in front of a decision, and then it does so only after that.
   */
  lemma LostCallReachesModel(env: Env, limit: nat, rows: seq<Row>, target: nat, next: Env)
    requires WellBehaved(env) && ConversationOk(rows) && target < |rows| && limit > 0
    requires !AllSettled(rows[target..]) && !CallsNothing(env)
    ensures var v := View(target, rows);
            var (s, ending) := Turn(env, limit, Opening(v, rows));
            var asked := Apply(limit, s.rows, Resume(next)).1;
            && (asked != [] <==> ending != Blocked)
            && (asked != [] ==> asked[0] == Sent(EVERYTHING, s.rows) && !AllAnswered(asked[0]))
  {
    var v := View(target, rows);
    var (s, ending) := Turn(env, limit, Opening(v, rows));
    PartIsOk(v, rows);
    SettledBefore(rows, target);
    TurnGrows(env, limit, Opening(v, rows));
    TurnAddsMessage(env, limit, v, rows);
    HiddenCallStays(rows, target, s.rows);
    if ending == Blocked {
      StaysBlocked(v, s.rows, limit, next);
    } else {
      OpenCallIsSent(v, s.rows, limit, next);
    }
  }

  lemma StaysBlocked(v: View, rows: seq<Row>, limit: nat, next: Env)
    requires VisibleOk(v, rows) && Waiting(v, rows) && limit > 0
    requires |v.before| < |rows| && rows[|v.before|].ToolMessage?
    ensures Turn(next, limit, Opening(EVERYTHING, rows)).0.asked == []
  {
    var i := WaitingMessage(v, rows);
    assert |v.before| <= i;
    ResumeInFrontOf(next, limit, rows, i);
  }

  lemma OpenCallIsSent(v: View, rows: seq<Row>, limit: nat, next: Env)
    requires VisibleOk(v, rows) && VisibleSettled(v, rows) && !VisibleSettled(EVERYTHING, rows) && limit > 0
    requires |v.before| < |rows| && rows[|v.before|].ToolMessage?
    ensures var asked := Turn(next, limit, Opening(EVERYTHING, rows)).0.asked;
            asked != [] && asked[0] == Sent(EVERYTHING, rows) && !AllAnswered(asked[0])
  {
    NewestIsNewest(EVERYTHING, rows);
    assert Settled(rows[NewestTool(EVERYTHING, rows).value]);
    FirstAsk(next, limit, EVERYTHING, rows);
    AllAnsweredIff(Sent(EVERYTHING, rows));
  }

  /**
    Such a message is not lost for good: a regeneration whose target hides the newer ones finds it again,
    and leaves it as a walk over its calls does.
   */
  lemma RegenerationFindsMessage(env: Env, limit: nat, rows: seq<Row>, target: nat)
    requires WellBehaved(env) && limit > 0 && target < |rows|
    requires VisibleOk(View(target, rows), rows) && FindUnresolved(View(target, rows), rows).Some?
    ensures var i := FindUnresolved(View(target, rows), rows).value;
            i < |rows| && i < |Regenerated(env, limit, rows, target).rows|
            && Regenerated(env, limit, rows, target).rows[i].ToolMessage?
            && Regenerated(env, limit, rows, target).rows[i].tables ==
               Chat.Walk(rows[i].tables, env.config, 0, env.policies(0), env.output(0))
  {
    var v := View(target, rows);
    var (s, ending) := Iteration(env, 0, Opening(v, rows));
    FoundMessageIsWalked(env, Opening(v, rows));
    IterationGrows(env, 0, Opening(v, rows));
    if ending.None? {
      SettledMessageStays(env, limit - 1, s, FindUnresolved(v, rows).value);
    }
  }

  lemma FoundMessageIsWalked(env: Env, s: State)
    requires FindUnresolved(s.view, s.rows).Some?
    ensures var i := FindUnresolved(s.view, s.rows).value;
            var (s', ending) := Iteration(env, 0, s);
            && i < |s.rows| && |s'.rows| == |s.rows| && s'.rows[i].ToolMessage? && s'.view == s.view
            && s'.rows[i].tables == Chat.Walk(s.rows[i].tables, env.config, 0, env.policies(0), env.output(0))
            && (ending.None? ==> Settled(s'.rows[i]))
  {
  }

  ghost predicate StillThere(s: State, t: State, i: nat) {
    && t.view == s.view && VisibleOk(s.view, t.rows) && Later(s.view.before, t.rows)
    && i < |t.rows| && i < |s.rows| && t.rows[i] == s.rows[i]
  }

  lemma SettledMessageStays(env: Env, left: nat, s: State, i: nat)
    requires WellBehaved(env) && VisibleOk(s.view, s.rows) && Later(s.view.before, s.rows)
    requires i < |s.rows| && Settled(s.rows[i])
    ensures var rows := Repeat(Iterations(env), TooManySteps, 1, left, s).0.rows; i < |rows| && rows[i] == s.rows[i]
  {
    var inv := (_: nat, t: State) => StillThere(s, t, i);
    var ends := (t: State, _: Ending) => i < |t.rows| && t.rows[i] == s.rows[i];
    forall k: nat, t: State ensures KeepsOrEnds(Iterations(env), inv, ends, k, t) {
      if inv(k, t) {
        IterationGrows(env, k, t);
        LaterStays(s.view.before, t.rows, Iteration(env, k, t).0.rows);
      }
    }
    RepeatKeeps(Iterations(env), TooManySteps, inv, ends, 1, left, s);
  }

  /** Rows that are all settled the later iterations of a turn leave alone. */
  lemma LaterRowsStay(env: Env, left: nat, s: State)
    requires WellBehaved(env) && VisibleOk(s.view, s.rows) && Later(s.view.before, s.rows) && AllSettled(s.rows)
    ensures s.rows <= Repeat(Iterations(env), TooManySteps, 1, left, s).0.rows
  {
    var last := Repeat(Iterations(env), TooManySteps, 1, left, s).0.rows;
    forall i: nat | i < |s.rows| ensures i < |last| && last[i] == s.rows[i] {
      SettledMessageStays(env, left, s, i);
    }
  }
}
