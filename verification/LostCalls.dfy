/**
  Unanswered calls that interleaved turns leave behind a newer message: exactly which of them no turn, regeneration
  or decision can answer any more.
 */
module LostCalls {
  import opened Approvals
  import opened Base
  import opened ChatTurns
  import opened Interleaving
  import opened Transcript
  import Chat
  import Gates
  import Rows

  function NextTool(rows: seq<Row>, from: nat): (next: Option<nat>)
    ensures next.Some? ==> from <= next.value < |rows| && rows[next.value].ToolMessage?
    ensures forall m :: from <= m < (if next.Some? then next.value else |rows|) ==> !rows[m].ToolMessage?
    decreases |rows| - from
  {
    if from >= |rows| then None
    else if rows[from].ToolMessage? then Some(from)
    else NextTool(rows, from + 1)
  }

  /** A turn is on its way over message `j` and may come to its end. */
  ghost predicate Walked(s: Conv, j: nat)
    requires AtMessage(s, j)
  {
    exists w :: w in s.turns && WalksOn(s, s.turns[w].phase, j)
  }

  predicate WalksOn(s: Conv, at: Phase, j: nat)
    requires AtMessage(s, j)
  {
    at.Walking? && at.i == j && (at.c < |s.rows[j].tables.calls| || Settled(s.rows[j]))
  }

  ghost predicate Picked(s: Conv, j: nat) {
    exists w :: w in s.turns && s.turns[w].phase.Checking? && s.turns[w].phase.i == j
  }

  predicate AnswerBetween(rows: seq<Row>, j: nat, k: nat)
    requires k <= |rows|
  {
    exists m :: j < m < k && rows[m].Answer?
  }

  /** Some turn can still find message `j`: nothing with calls is newer, or a regeneration can hide what is. */
  ghost predicate Findable(s: Conv, j: nat)
    requires AtMessage(s, j)
    decreases |s.rows| - j, 0
  {
    match NextTool(s.rows, j + 1)
    case None => true
    case Some(k) => AnswerBetween(s.rows, j, k) || CanComplete(s, k)
  }

  /** The message is completed, or can be: a turn holds it, or it has an unanswered call and can be found. */
  ghost predicate CanComplete(s: Conv, j: nat)
    requires AtMessage(s, j)
    decreases |s.rows| - j, 1
  {
    s.rows[j].complete || Walked(s, j) || (!Settled(s.rows[j]) && (Picked(s, j) || Findable(s, j)))
  }

  /** An unanswered message that no turn holds and no turn can find. */
  ghost predicate Lost(s: Conv, i: nat) {
    AtMessage(s, i) && !Settled(s.rows[i]) && !CanComplete(s, i)
  }

  /** A step changes no message's kind and stores no result but in a message that a turn walks. */
  lemma StepFrames(s: Conv, e: Event, j: nat)
    requires j < |s.rows|
    ensures var rows := Apply(s, e).rows;
            && j < |rows| && (rows[j].ToolMessage? <==> s.rows[j].ToolMessage?)
            && (rows[j].Answer? <==> s.rows[j].Answer?)
            && (AtMessage(s, j) && !Walked(s, j) ==>
                  && rows[j].tables.calls == s.rows[j].tables.calls && rows[j].complete == s.rows[j].complete
                  && rows[j].tables.results == s.rows[j].tables.results && Settled(rows[j]) == Settled(s.rows[j]))
  {
  }

  lemma NextToolStays(s: Conv, e: Event, from: nat)
    requires NextTool(s.rows, from).Some?
    ensures NextTool(Apply(s, e).rows, from) == NextTool(s.rows, from)
  {
    var k := NextTool(s.rows, from).value;
    forall m | from <= m <= k
      ensures m < |Apply(s, e).rows| && (Apply(s, e).rows[m].ToolMessage? <==> s.rows[m].ToolMessage?)
    {
      StepFrames(s, e, m);
    }
  }

  /** A turn comes to walk a message that it holds or has just created, or walks already. */
  lemma ComesToWalk(s: Conv, e: Event, w: nat)
    ensures var at, at' := PhaseOf(s, w), PhaseOf(Apply(s, e), w);
            at'.Walking? ==>
              || (at.Walking? && at.i == at'.i
                  && (at'.c == at.c || (at.c < at'.c && AtMessage(s, at.i) && at.c < |s.rows[at.i].tables.calls|)))
              || (at.Checking? && at.i == at'.i && at.i < |s.rows| && !Settled(s.rows[at.i]))
              || at'.i == |s.rows|
  {
  }

  lemma ComesToHold(s: Conv, e: Event, w: nat)
    ensures var at, at' := PhaseOf(s, w), PhaseOf(Apply(s, e), w);
            at'.Checking? ==> at == at' || (at.Looking? && NewestTool(ViewOf(s, w), s.rows) == Some(at'.i))
  {
  }

  /** What a search finds is findable: a view hides newer messages only behind one that can be regenerated. */
  lemma FoundIsFindable(s: Conv, w: nat, j: nat)
    requires Inv(s) && NewestTool(ViewOf(s, w), s.rows) == Some(j)
    ensures Findable(s, j)
  {
    ViewStaysOk(s, w);
    if NextTool(s.rows, j + 1).Some? {
      HiddenBehindTarget(s.rows, ViewOf(s, w), j);
    }
  }

  lemma HiddenBehindTarget(rows: seq<Row>, v: View, j: nat)
    requires ViewOk(rows, v) && NewestTool(v, rows) == Some(j) && NextTool(rows, j + 1).Some?
    ensures var k := NextTool(rows, j + 1).value; rows[k].complete || AnswerBetween(rows, j, k)
  {
    var k := NextTool(rows, j + 1).value;
    NewestIsNewest(v, rows);
    assert !Visible(v, k);
    assert j < v.target <= k;
    if v.target < k {
      assert rows[v.target].Answer?;
    }
  }

  /** What can not be completed never can be, and stays as it is. */
  lemma {:induction false} StuckStays(s: Conv, e: Event, j: nat)
    requires Inv(s) && AtMessage(s, j) && !CanComplete(s, j)
    ensures AtMessage(Apply(s, e), j) && Settled(Apply(s, e).rows[j]) == Settled(s.rows[j])
    ensures !CanComplete(Apply(s, e), j)
    decreases |s.rows| - j
  {
    var s' := Apply(s, e);
    StepFrames(s, e, j);
    StuckIsNotWalked(s, e, j);
    if !Settled(s.rows[j]) {
      StuckIsNotPicked(s, e, j);
      var k := NextTool(s.rows, j + 1).value;
      StuckStays(s, e, k);
      NextToolStays(s, e, j + 1);
      forall m | j < m < k ensures !s'.rows[m].Answer? { StepFrames(s, e, m); }
    }
  }

  lemma StuckIsNotWalked(s: Conv, e: Event, j: nat)
    requires Inv(s) && AtMessage(s, j) && !CanComplete(s, j) && AtMessage(Apply(s, e), j)
    ensures !Walked(Apply(s, e), j)
  {
    var s' := Apply(s, e);
    StepFrames(s, e, j);
    forall w | w in s'.turns ensures !WalksOn(s', s'.turns[w].phase, j) {
      ComesToWalk(s, e, w);
    }
  }

  lemma StuckIsNotPicked(s: Conv, e: Event, j: nat)
    requires Inv(s) && AtMessage(s, j) && !CanComplete(s, j) && !Settled(s.rows[j])
    ensures !Picked(Apply(s, e), j)
  {
    var s' := Apply(s, e);
    forall w | w in s'.turns ensures !(s'.turns[w].phase.Checking? && s'.turns[w].phase.i == j) {
      ComesToHold(s, e, w);
      if NewestTool(ViewOf(s, w), s.rows) == Some(j) { FoundIsFindable(s, w, j); }
    }
  }

  /** A history that shows a message with an unanswered call is not complete. */
  lemma OpenCallIsSent(p: Sent, i: nat)
    requires i < |p.rows| && Visible(p.view, i) && !Settled(p.rows[i])
    ensures !AllAnswered(p)
  {
    if AllAnswered(p) { AnsweredIsSettled(p, i); }
  }

  /** Nothing whatever answers a lost call, and whoever sees its message sends it unanswered from then on. */
  lemma {:induction false} LostForever(s: Conv, i: nat, events: seq<Event>)
    requires Inv(s) && Lost(s, i) && AllBehave(events)
    ensures var s' := Run(s, events);
            && Inv(s') && Lost(s', i) && |s.sent| <= |s'.sent|
            && forall k :: |s.sent| <= k < |s'.sent| && Visible(s'.sent[k].view, i) ==> !AllAnswered(s'.sent[k])
  {
    if events != [] {
      var before, e := Run(s, events[..|events| - 1]), events[|events| - 1];
      LostForever(s, i, events[..|events| - 1]);
      LostStep(before, e, i);
    }
  }

  lemma LostStep(s: Conv, e: Event, i: nat)
    requires Inv(s) && Lost(s, i) && Behaves(e)
    ensures var s' := Apply(s, e);
            && Inv(s') && Lost(s', i) && s.sent <= s'.sent
            && forall k :: |s.sent| <= k < |s'.sent| && Visible(s'.sent[k].view, i) ==> !AllAnswered(s'.sent[k])
  {
    StuckStays(s, e, i);
    StepKeepsOrderIff(s, e);
    SentGrows(s, e);
    if e.Build? && Visible(ViewOf(s, e.w), i) {
      OpenCallIsSent(Sent(ViewOf(s, e.w), s.rows), i);
    }
  }

  // ---------------------------------------------------------------- how every other call is answered

  ghost predicate Answers(s: Conv, i: nat, events: seq<Event>) {
    i < |Run(s, events).rows| && Settled(Run(s, events).rows[i])
  }

  const NO_TOOLS := Chat.Config(map[], map[], map[])
  const NO_RULES := Chat.Policies(Gates.Allow, false)

  predicate AwaitsDecision(t: Chat.Tables) {
    |t.results| < |t.calls| && LatestApproval(t.approvals, t.calls[|t.results|].id) == Some(Rows.AwaitingDecision)
  }

  /** Only message `i` changes, and its results only grow. */
  ghost predicate OnlyAt(s: Conv, s': Conv, i: nat) {
    && Inv(s') && |s'.rows| == |s.rows| && AtMessage(s', i) && AtMessage(s, i)
    && s'.rows[i].tables.calls == s.rows[i].tables.calls
    && |s.rows[i].tables.results| <= |s'.rows[i].tables.results|
    && forall m :: 0 <= m < |s.rows| && m != i ==> s'.rows[m] == s.rows[m]
  }

  lemma GrowsOnlyAt(s: Conv, s': Conv, i: nat, r: Row)
    requires Inv(s') && AtMessage(s, i) && RowGrows(s.rows[i], r) && s'.rows == s.rows[i := r]
    ensures OnlyAt(s, s', i)
  {
  }

  /** A person turns down what the first unanswered call may be waiting for. */
  lemma TurnDown(s: Conv, i: nat) returns (e: Event)
    requires Inv(s) && AtMessage(s, i)
    ensures e.Decision? && OnlyAt(s, Apply(s, e), i) && Apply(s, e).turns == s.turns
    ensures !AwaitsDecision(Apply(s, e).rows[i].tables)
  {
    var t := s.rows[i].tables;
    assert RowOk(s.rows[i]);
    var row := TurnedDownRow(t);
    e := Decision(i, row, false);
    DecisionOnlyAt(s, i, row);
  }

  lemma DecisionOnlyAt(s: Conv, i: nat, row: nat)
    requires Inv(s) && AtMessage(s, i)
    ensures var s' := Apply(s, Decision(i, row, false));
            OnlyAt(s, s', i) && s'.turns == s.turns && s'.rows[i].tables == Chat.Decided(s.rows[i].tables, row, false)
  {
    DecidedRow(s.rows[i], row, false);
    RowsKeep(s, i, s.rows[i].(tables := Chat.Decided(s.rows[i].tables, row, false)));
    GrowsOnlyAt(s, Apply(s, Decision(i, row, false)), i,
                s.rows[i].(tables := Chat.Decided(s.rows[i].tables, row, false)));
  }

  lemma TurnedDownRow(t: Chat.Tables) returns (r: nat)
    requires Chat.TablesOk(t)
    ensures !AwaitsDecision(Chat.Decided(t, r, false))
  {
    if r' :| 0 <= r' < |t.approvals| && t.approvals[r'].status == Rows.AwaitingDecision {
      r := r';
      LatestApprovalUpdate(t.approvals, r, Rows.Denied, t.approvals[r].key);
    } else {
      r := |t.approvals|;
      if |t.results| < |t.calls| {
        NobodyAsked(t.approvals, t.calls[|t.results|].id);
      }
    }
  }

  lemma {:induction false} NobodyAsked(rows: seq<ApprovalRow<string>>, id: string)
    requires forall r :: 0 <= r < |rows| ==> rows[r].status != Rows.AwaitingDecision
    ensures LatestApproval(rows, id) != Some(Rows.AwaitingDecision)
  {
    if rows != [] {
      NobodyAsked(rows[..|rows| - 1], id);
    }
  }

  lemma NothingBlocks(t: Chat.Tables, c: nat)
    requires Chat.TablesOk(t) && c <= |t.results| && c < |t.calls| && !AwaitsDecision(t)
    ensures !Chat.Resolve(t, NO_TOOLS, t.calls[c], NO_RULES, "").1.Blocked?
  {
    Chat.ResolveFacts(t, NO_TOOLS, c, NO_RULES, "");
  }

  /** With nothing to wait for, a turn without tools answers its next call. */
  lemma WalkAnswers(s: Conv, w: nat, i: nat, c: nat)
    requires Inv(s) && w in s.turns && s.turns[w].phase == Walking(i, c)
    requires AtMessage(s, i) && c < |s.rows[i].tables.calls| && !AwaitsDecision(s.rows[i].tables)
    ensures var s' := Apply(s, WalkCall(w, NO_TOOLS, NO_RULES, ""));
            && OnlyAt(s, s', i) && w in s'.turns && s'.turns[w].phase == Walking(i, c + 1)
            && c < |s'.rows[i].tables.results|
  {
    assert TurnOk(s.rows, s.turns[w]);
    assert RowOk(s.rows[i]);
    var r := UnblockedRow(s.rows[i], c, |s.rows|);
    var s' := WalkStep(s, w, Walking(i, c), NO_TOOLS, NO_RULES, "");
    WalkKeeps(s, w, Walking(i, c), NO_TOOLS, NO_RULES, "");
    UnblockedStep(s, w, i, c, r);
    GrowsOnlyAt(s, s', i, r);
  }

  lemma UnblockedStep(s: Conv, w: nat, i: nat, c: nat, r: Row)
    requires AtMessage(s, i) && c < |s.rows[i].tables.calls|
    requires var (t', outcome) := Chat.Resolve(s.rows[i].tables, NO_TOOLS, s.rows[i].tables.calls[c], NO_RULES, "");
             !outcome.Blocked? && r == WithTables(s.rows[i], t', |s.rows|)
    ensures WalkStep(s, w, Walking(i, c), NO_TOOLS, NO_RULES, "") ==
            MoveTo(s, w, Walking(i, c + 1)).(rows := s.rows[i := r])
  {
  }

  lemma UnblockedRow(r: Row, c: nat, now: nat) returns (r': Row)
    requires RowOk(r) && r.ToolMessage? && c < |r.tables.calls| && c <= |r.tables.results| && !AwaitsDecision(r.tables)
    ensures var (t', outcome) := Chat.Resolve(r.tables, NO_TOOLS, r.tables.calls[c], NO_RULES, "");
            !outcome.Blocked? && r' == WithTables(r, t', now) && RowGrows(r, r') && c < |r'.tables.results|
  {
    NothingBlocks(r.tables, c);
    ResolvedRow(r, c, NO_TOOLS, NO_RULES, "", now);
    r' := WithTables(r, Chat.Resolve(r.tables, NO_TOOLS, r.tables.calls[c], NO_RULES, "").0, now);
  }

  /** Message `i` ends up completed, and everything else as it was. */
  ghost predicate Completes(s: Conv, i: nat, events: seq<Event>) {
    var s' := Run(s, events);
    AllBehave(events) && OnlyAt(s, s', i) && s'.rows[i].complete
  }

  lemma CompletesAfter(s: Conv, e: Event, i: nat, rest: seq<Event>)
    requires Behaves(e) && OnlyAt(s, Apply(s, e), i) && Completes(Apply(s, e), i, rest)
    ensures Completes(s, i, [e] + rest)
  {
    RunOne(s, e);
    FoldConcat(Apply, s, [e], rest);
  }

  lemma RunOne(s: Conv, e: Event)
    ensures Run(s, [e]) == Apply(s, e)
  {
    assert [] + [e] == [e];
    FoldAppend(Apply, s, [], e);
  }

  lemma EndCompletes(s: Conv, w: nat, i: nat, c: nat)
    requires Inv(s) && w in s.turns && s.turns[w].phase == Walking(i, c) && AtMessage(s, i)
    requires |s.rows[i].tables.calls| <= c && c <= |s.rows[i].tables.results|
    ensures Completes(s, i, [EndWalk(w, true)])
  {
    var r := s.rows[i];
    assert RowOk(r) && TurnOk(s.rows, s.turns[w]);
    AllCallsAnswered(r);
    EndKeeps(s, w, Walking(i, c), true);
    var s' := Apply(s, EndWalk(w, true));
    assert s' == EndStep(s, w, Walking(i, c), true);
    EndOnlyAt(s, s', i, r.(complete := true));
    RunOne(s, EndWalk(w, true));
  }

  lemma AllCallsAnswered(r: Row)
    requires RowOk(r) && r.ToolMessage? && |r.tables.calls| <= |r.tables.results|
    ensures Settled(r)
  {
    Chat.UnresolvedIffShort(r.tables);
  }

  lemma EndOnlyAt(s: Conv, s': Conv, i: nat, r: Row)
    requires Inv(s') && AtMessage(s, i) && RowOk(s.rows[i]) && Settled(s.rows[i])
    requires r == s.rows[i].(complete := true) && s'.rows == s.rows[i := r]
    ensures OnlyAt(s, s', i) && s'.rows[i].complete
  {
    GrowsOnlyAt(s, s', i, r);
  }

  /** A turn on its way over message `i` can answer all of it and complete it. */
  lemma {:induction false} WalkToEnd(s: Conv, w: nat, i: nat, c: nat) returns (events: seq<Event>)
    requires Inv(s) && w in s.turns && s.turns[w].phase == Walking(i, c) && AtMessage(s, i)
    requires c <= |s.rows[i].tables.results|
    ensures Completes(s, i, events)
    decreases |s.rows[i].tables.calls| - c
  {
    if c >= |s.rows[i].tables.calls| {
      EndCompletes(s, w, i, c);
      events := [EndWalk(w, true)];
    } else {
      var e := TurnDown(s, i);
      var s1, walk := Apply(s, e), WalkCall(w, NO_TOOLS, NO_RULES, "");
      WalkAnswers(s1, w, i, c);
      var rest := WalkToEnd(Apply(s1, walk), w, i, c + 1);
      CompletesAfter(s1, walk, i, rest);
      CompletesAfter(s, e, i, [walk] + rest);
      events := [e] + ([walk] + rest);
    }
  }

  lemma {:induction false} SomeTurnIsFree(turns: set<nat>) returns (w: nat)
    ensures forall v :: v in turns ==> v < w
  {
    if turns == {} {
      w := 0;
    } else {
      var v :| v in turns;
      var u := SomeTurnIsFree(turns - {v});
      w := if v < u then u else v + 1;
      assert forall x :: x in turns ==> x == v || x in turns - {v};
    }
  }

  /** A turn that holds an unanswered message goes on to walk it. */
  lemma HeldIsCompleted(s: Conv, w: nat, i: nat) returns (events: seq<Event>)
    requires Inv(s) && AtMessage(s, i) && !Settled(s.rows[i])
    requires w in s.turns && s.turns[w].phase.Checking? && s.turns[w].phase.i == i
    ensures Completes(s, i, events)
  {
    var e := Check(w);
    SearchKeeps(s, e);
    var rest := WalkToEnd(Apply(s, e), w, i, 0);
    CompletesAfter(s, e, i, rest);
    events := [e] + rest;
  }

  /** A turn that begins where message `i` is the newest with calls completes it. */
  lemma FoundIsCompleted(s: Conv, start: Event, i: nat) returns (events: seq<Event>)
    requires Inv(s) && AtMessage(s, i) && !Settled(s.rows[i])
    requires start.Begin? || start.Regenerate?
    requires Inv(Apply(s, start)) && Apply(s, start).rows == s.rows && PhaseOf(Apply(s, start), start.w) == Looking
    requires NewestTool(ViewOf(Apply(s, start), start.w), s.rows) == Some(i)
    ensures Completes(s, i, events)
  {
    var s1 := Apply(s, start);
    SearchKeeps(s1, Find(start.w));
    var rest := HeldIsCompleted(Apply(s1, Find(start.w)), start.w, i);
    CompletesAfter(s1, Find(start.w), i, rest);
    CompletesAfter(s, start, i, [Find(start.w)] + rest);
    events := [start] + ([Find(start.w)] + rest);
  }

  /** A fresh turn finds the message if nothing with calls is newer. */
  lemma NewestIsCompleted(s: Conv, i: nat) returns (events: seq<Event>)
    requires Inv(s) && AtMessage(s, i) && !Settled(s.rows[i]) && NextTool(s.rows, i + 1).None?
    ensures Completes(s, i, events)
  {
    var w := SomeTurnIsFree(s.turns.Keys);
    BeginKeeps(s, w, false);
    NewestIsNewest(EVERYTHING, s.rows);
    events := FoundIsCompleted(s, Begin(w, false), i);
  }

  /** And a regenerating one if its target hides what is newer. */
  lemma HiddenBehindIsCompleted(s: Conv, i: nat, t: nat) returns (events: seq<Event>)
    requires Inv(s) && AtMessage(s, i) && !Settled(s.rows[i]) && i < t < |s.rows| && Regenerable(s.rows[t])
    requires forall m :: i < m < t ==> !s.rows[m].ToolMessage?
    ensures Completes(s, i, events)
  {
    var w := SomeTurnIsFree(s.turns.Keys);
    SearchKeeps(s, Regenerate(w, t));
    NewestIsNewest(View(t, s.rows), s.rows);
    events := FoundIsCompleted(s, Regenerate(w, t), i);
  }

  /** First the next message with calls is completed, then this one behind it. */
  lemma {:induction false} Complete(s: Conv, j: nat) returns (events: seq<Event>)
    requires Inv(s) && AtMessage(s, j) && CanComplete(s, j) && !s.rows[j].complete
    ensures CompletesFrom(s, j, events)
    decreases |s.rows| - j
  {
    if Walked(s, j) {
      var w :| w in s.turns && WalksOn(s, s.turns[w].phase, j);
      assert TurnOk(s.rows, s.turns[w]) && RowOk(s.rows[j]);
      Chat.UnresolvedIffShort(s.rows[j].tables);
      events := WalkToEnd(s, w, j, s.turns[w].phase.c);
    } else if w :| w in s.turns && s.turns[w].phase.Checking? && s.turns[w].phase.i == j {
      events := HeldIsCompleted(s, w, j);
    } else {
      events := CompleteFindable(s, j);
    }
  }

  /** The same, allowing later messages to change as well. */
  ghost predicate CompletesFrom(s: Conv, j: nat, events: seq<Event>) {
    var s' := Run(s, events);
    && AllBehave(events) && Inv(s') && |s'.rows| == |s.rows| && AtMessage(s', j) && s'.rows[j].complete
    && forall m :: 0 <= m < j && m < |s.rows| ==> s'.rows[m] == s.rows[m]
  }

  lemma {:induction false} CompleteFindable(s: Conv, j: nat) returns (events: seq<Event>)
    requires Inv(s) && AtMessage(s, j) && !Settled(s.rows[j]) && Findable(s, j)
    ensures CompletesFrom(s, j, events)
    decreases |s.rows| - j, 0
  {
    var next := NextTool(s.rows, j + 1);
    if next.None? {
      events := NewestIsCompleted(s, j);
    } else if m :| j < m < next.value && s.rows[m].Answer? {
      events := HiddenBehindIsCompleted(s, j, m);
    } else if s.rows[next.value].complete {
      events := HiddenBehindIsCompleted(s, j, next.value);
    } else {
      var first := Complete(s, next.value);
      var s1 := Run(s, first);
      var rest := HiddenBehindIsCompleted(s1, j, next.value);
      FoldConcat(Apply, s, first, rest);
      events := first + rest;
    }
  }

  /** An unanswered call is lost exactly when no continuation of any kind, regenerations included, answers it. */
  lemma LostIffNeverAnswered(s: Conv, i: nat)
    requires Inv(s) && i < |s.rows| && !Settled(s.rows[i])
    ensures Lost(s, i) <==> forall events :: AllBehave(events) ==> !Answers(s, i, events)
  {
    assert RowOk(s.rows[i]);
    if Lost(s, i) {
      forall events | AllBehave(events) ensures !Answers(s, i, events) { LostForever(s, i, events); }
    } else {
      var events := Complete(s, i);
      assert RowOk(Run(s, events).rows[i]);
      assert Answers(s, i, events);
    }
  }
}
