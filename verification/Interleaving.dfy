/**
  Several chat turns of one conversation at the same time: each goes through its own loop over the
  stored messages, and between any two of its steps other turns and people may change the rows.
 */
module Interleaving {
  import opened Base
  import opened ChatTurns
  import opened Transcript
  import Chat

  /**
    Where a turn is: about to look for an unanswered message, holding the newest one with calls, about to read
    the history, waiting for the model, or walking message `i` from call `c`. Of the search only `n`
    is not in the code: how many messages there were.
   */
  datatype Phase =
    | Idle
    | Looking
    | Checking(i: nat, n: nat)
    | Building(n: nat)
    | Asking
    | Walking(i: nat, c: nat)

  datatype Progress = Progress(view: View, phase: Phase)

  datatype Conv = Conv(rows: seq<Row>, turns: map<nat, Progress>, sent: seq<Sent>)

  /**
    A turn begins with a person's message (`writes`), without one, or as the regeneration of a message. A
    response of None is a provider error; `gaveUp` says that a turn stops after a completed message;
    a turn may die anywhere.
   */
  datatype Event =
    | Begin(w: nat, writes: bool)
    | Regenerate(w: nat, target: nat)
    | Find(w: nat)
    | Check(w: nat)
    | Build(w: nat)
    | Respond(w: nat, response: Option<seq<ToolCall>>)
    | WalkCall(w: nat, config: Chat.Config, policies: Chat.Policies, output: string)
    | EndWalk(w: nat, gaveUp: bool)
    | Die(w: nat)
    | Decision(message: nat, row: nat, approve: bool)

  function PhaseOf(s: Conv, w: nat): Phase {
    if w in s.turns then s.turns[w].phase else Idle
  }

  function ViewOf(s: Conv, w: nat): View {
    if w in s.turns then s.turns[w].view else EVERYTHING
  }

  function MoveTo(s: Conv, w: nat, phase: Phase): Conv {
    s.(turns := s.turns[w := Progress(ViewOf(s, w), phase)])
  }

  predicate AtMessage(s: Conv, i: nat) {
    i < |s.rows| && s.rows[i].ToolMessage?
  }

  /** One step of one turn or person; a step that does not apply changes nothing. */
  function Apply(s: Conv, e: Event): Conv {
    match e
    case Begin(w, writes) => if PhaseOf(s, w).Idle? then BeginStep(s, w, writes) else s
    case Regenerate(w, target) =>
      if PhaseOf(s, w).Idle? && target < |s.rows| && Regenerable(s.rows[target]) then
        s.(turns := s.turns[w := Progress(View(target, s.rows), Looking)])
      else s
    case Find(w) => if PhaseOf(s, w).Looking? then FindStep(s, w) else s
    case Check(w) => if PhaseOf(s, w).Checking? then CheckStep(s, w, PhaseOf(s, w)) else s
    case Build(w) =>
      if PhaseOf(s, w).Building? then MoveTo(s, w, Asking).(sent := s.sent + [Sent(ViewOf(s, w), s.rows)]) else s
    case Respond(w, response) => if PhaseOf(s, w).Asking? then RespondStep(s, w, response) else s
    case WalkCall(w, config, policies, output) =>
      if PhaseOf(s, w).Walking? then WalkStep(s, w, PhaseOf(s, w), config, policies, output) else s
    case EndWalk(w, gaveUp) => if PhaseOf(s, w).Walking? then EndStep(s, w, PhaseOf(s, w), gaveUp) else s
    case Die(w) => MoveTo(s, w, Idle)
    case Decision(m, r, approve) =>
      if AtMessage(s, m) then
        s.(rows := s.rows[m := s.rows[m].(tables := Chat.Decided(s.rows[m].tables, r, approve))])
      else s
  }

  function BeginStep(s: Conv, w: nat, writes: bool): Conv {
    s.(turns := s.turns[w := Progress(EVERYTHING, Looking)], rows := if writes then s.rows + [UserText] else s.rows)
  }

  /** The query for the newest visible message with calls. */
  function FindStep(s: Conv, w: nat): Conv {
    match NewestTool(ViewOf(s, w), s.rows)
    case Some(i) => MoveTo(s, w, Checking(i, |s.rows|))
    case None => MoveTo(s, w, Building(|s.rows|))
  }

  /** The queries for its results. */
  function CheckStep(s: Conv, w: nat, at: Phase): Conv
    requires at.Checking?
  {
    if at.i < |s.rows| && !Settled(s.rows[at.i]) then MoveTo(s, w, Walking(at.i, 0)) else MoveTo(s, w, Building(at.n))
  }

  function RespondStep(s: Conv, w: nat, response: Option<seq<ToolCall>>): Conv {
    match response
    case None => MoveTo(s, w, Idle)
    case Some(calls) =>
      if calls == [] then MoveTo(s, w, Idle).(rows := s.rows + [Answer])
      else MoveTo(s, w, Walking(|s.rows|, 0)).(rows := s.rows + [NewMessage(calls)])
  }

  /** One locked call of the message; a call that must wait leaves the walk at its end. */
  function WalkStep(s: Conv, w: nat, at: Phase, config: Chat.Config, policies: Chat.Policies, output: string): Conv
    requires at.Walking?
  {
    if !AtMessage(s, at.i) || at.c >= |s.rows[at.i].tables.calls| then s
    else
      var t := s.rows[at.i].tables;
      var (t', outcome) := Chat.Resolve(t, config, t.calls[at.c], policies, output);
      MoveTo(s, w, Walking(at.i, if outcome.Blocked? then |t.calls| else at.c + 1)).(
        rows := s.rows[at.i := WithTables(s.rows[at.i], t', |s.rows|)])
  }

  /** After its last call a turn stops in front of an unanswered call, or completes the message. */
  function EndStep(s: Conv, w: nat, at: Phase, gaveUp: bool): Conv
    requires at.Walking?
  {
    if !AtMessage(s, at.i) || at.c < |s.rows[at.i].tables.calls| then s
    else if !Settled(s.rows[at.i]) then MoveTo(s, w, Idle)
    else MoveTo(s, w, if gaveUp then Idle else Looking).(rows := s.rows[at.i := s.rows[at.i].(complete := true)])
  }

  function Run(s: Conv, events: seq<Event>): Conv {
    Fold(Apply, s, events)
  }

  const NOTHING := Conv([], map[], [])

  /** The model names its calls apart within one message. */
  ghost predicate Behaves(e: Event) {
    e.Respond? && e.response.Some? ==> Distinct(Ids(e.response.value))
  }

  ghost predicate AllBehave(events: seq<Event>) {
    forall k :: 0 <= k < |events| ==> Behaves(events[k])
  }

  // ---------------------------------------------------------------- what every interleaving keeps

  /** A view is of this conversation's past, and its target could and can be regenerated. */
  ghost predicate ViewOk(rows: seq<Row>, v: View) {
    Later(v.before, rows) && (v.before != [] ==> v.target < |v.before| && Regenerable(rows[v.target]))
  }

  /** A walk never runs ahead of the results, except at its end; a search finds what is there. */
  ghost predicate PhaseOk(rows: seq<Row>, v: View, at: Phase) {
    match at
    case Walking(i, c) =>
      && i < |rows| && rows[i].ToolMessage?
      && (c <= |rows[i].tables.results| || c == |rows[i].tables.calls|)
    case Checking(i, n) => |v.before| <= n && i < n <= |rows| && rows[i].ToolMessage? && Visible(v, i)
    case Building(n) => |v.before| <= n <= |rows|
    case _ => true
  }

  ghost predicate TurnOk(rows: seq<Row>, p: Progress) {
    ViewOk(rows, p.view) && PhaseOk(rows, p.view, p.phase)
  }

  ghost predicate Inv(s: Conv) {
    && (forall i :: 0 <= i < |s.rows| ==> RowOk(s.rows[i]))
    && (forall w :: w in s.turns ==> TurnOk(s.rows, s.turns[w]))
  }

  /** One message's rows change, but its calls stay, its results only grow and it stays completed. */
  ghost predicate RowGrows(r: Row, r': Row) {
    && RowOk(r')
    && (if r.ToolMessage? then
          && r'.ToolMessage? && r'.tables.calls == r.tables.calls
          && |r.tables.results| <= |r'.tables.results| && |r.stamps| <= |r'.stamps|
          && (r.complete ==> r'.complete) && (Settled(r) ==> Settled(r'))
        else r' == r)
  }

  /** The same conversation later: every message has grown, and there may be more. */
  ghost predicate AllGrow(rows: seq<Row>, rows': seq<Row>) {
    |rows| <= |rows'| && forall i :: 0 <= i < |rows| ==> RowGrows(rows[i], rows'[i])
  }

  lemma TurnStaysOk(rows: seq<Row>, rows': seq<Row>, p: Progress)
    requires AllGrow(rows, rows') && TurnOk(rows, p)
    ensures TurnOk(rows', p)
  {
  }

  /** The rows grow while one turn moves, or none. */
  lemma GrowKeeps(s: Conv, s': Conv, w: nat)
    requires Inv(s) && AllGrow(s.rows, s'.rows)
    requires forall i :: |s.rows| <= i < |s'.rows| ==> RowOk(s'.rows[i])
    requires forall v :: v in s'.turns && v != w ==> v in s.turns && s'.turns[v] == s.turns[v]
    requires w in s'.turns ==> TurnOk(s'.rows, s'.turns[w])
    ensures Inv(s')
  {
    forall i | 0 <= i < |s'.rows| ensures RowOk(s'.rows[i]) {
      if i < |s.rows| { assert RowGrows(s.rows[i], s'.rows[i]); }
    }
    forall v | v in s'.turns ensures TurnOk(s'.rows, s'.turns[v]) {
      if v != w { TurnStaysOk(s.rows, s'.rows, s.turns[v]); }
    }
  }

  lemma UpdateGrows(rows: seq<Row>, i: nat, r: Row)
    requires (forall j :: 0 <= j < |rows| ==> RowOk(rows[j])) && i < |rows| && RowGrows(rows[i], r)
    ensures AllGrow(rows, rows[i := r])
    ensures ConversationOk(rows) ==> ConversationOk(rows[i := r])
    ensures AllSettled(rows) ==> AllSettled(rows[i := r])
  {
  }

  lemma AppendGrows(rows: seq<Row>, r: Row)
    requires (forall j :: 0 <= j < |rows| ==> RowOk(rows[j])) && RowOk(r)
    ensures AllGrow(rows, rows + [r])
    ensures ConversationOk(rows) ==> (ConversationOk(rows + [r]) <==> r.ToolMessage? ==> AllSettled(rows))
  {
    var rows' := rows + [r];
    assert rows'[|rows|] == r && forall i :: 0 <= i < |rows| ==> rows'[i] == rows[i];
  }

  lemma StayGrows(rows: seq<Row>)
    requires forall j :: 0 <= j < |rows| ==> RowOk(rows[j])
    ensures AllGrow(rows, rows)
  {
  }

  lemma MoveKeeps(s: Conv, w: nat, phase: Phase)
    requires Inv(s) && TurnOk(s.rows, Progress(ViewOf(s, w), phase))
    ensures Inv(MoveTo(s, w, phase))
  {
    StayGrows(s.rows);
    GrowKeeps(s, MoveTo(s, w, phase), w);
  }

  lemma ViewStaysOk(s: Conv, w: nat)
    requires Inv(s)
    ensures ViewOk(s.rows, ViewOf(s, w))
  {
  }

  lemma ResolvedRow(r: Row, c: nat, config: Chat.Config, policies: Chat.Policies, output: string, now: nat)
    requires RowOk(r) && r.ToolMessage? && c < |r.tables.calls| && c <= |r.tables.results|
    ensures var (t', outcome) := Chat.Resolve(r.tables, config, r.tables.calls[c], policies, output);
            RowGrows(r, WithTables(r, t', now)) && (!outcome.Blocked? ==> c + 1 <= |t'.results|)
  {
    var t' := Chat.Resolve(r.tables, config, r.tables.calls[c], policies, output).0;
    Chat.ResolveFacts(r.tables, config, c, policies, output);
    Chat.UnresolvedIffShort(r.tables);
    Chat.UnresolvedIffShort(t');
    WithTablesOk(r, t', now);
  }

  /** What a step on one message keeps. */
  ghost predicate Keeps(s: Conv, s': Conv) {
    && Inv(s') && AllGrow(s.rows, s'.rows)
    && (ConversationOk(s.rows) ==> ConversationOk(s'.rows)) && (AllSettled(s.rows) ==> AllSettled(s'.rows))
  }

  lemma WalkKeeps(s: Conv, w: nat, at: Phase, config: Chat.Config, policies: Chat.Policies, output: string)
    requires Inv(s) && at.Walking? && PhaseOk(s.rows, ViewOf(s, w), at)
    ensures Keeps(s, WalkStep(s, w, at, config, policies, output))
  {
    if at.c >= |s.rows[at.i].tables.calls| {
      StayGrows(s.rows);
    } else {
      var r := s.rows[at.i];
      var (t', outcome) := Chat.Resolve(r.tables, config, r.tables.calls[at.c], policies, output);
      assert RowOk(r);
      WalkedRow(s.rows, ViewOf(s, w), at, config, policies, output);
      RowAndTurnKeep(s, at.i, WithTables(r, t', |s.rows|), w,
                     Walking(at.i, if outcome.Blocked? then |r.tables.calls| else at.c + 1));
    }
  }

  lemma WalkedRow(rows: seq<Row>, v: View, at: Phase, config: Chat.Config, policies: Chat.Policies, output: string)
    requires at.Walking? && PhaseOk(rows, v, at) && RowOk(rows[at.i]) && at.c < |rows[at.i].tables.calls|
    ensures var t := rows[at.i].tables;
            var (t', outcome) := Chat.Resolve(t, config, t.calls[at.c], policies, output);
            var r' := WithTables(rows[at.i], t', |rows|);
            && RowGrows(rows[at.i], r')
            && PhaseOk(rows[at.i := r'], v, Walking(at.i, if outcome.Blocked? then |t.calls| else at.c + 1))
  {
    ResolvedRow(rows[at.i], at.c, config, policies, output, |rows|);
  }

  lemma EndKeeps(s: Conv, w: nat, at: Phase, gaveUp: bool)
    requires Inv(s) && at.Walking? && PhaseOk(s.rows, ViewOf(s, w), at)
    ensures Keeps(s, EndStep(s, w, at, gaveUp))
  {
    var r := s.rows[at.i];
    StayGrows(s.rows);
    ViewStaysOk(s, w);
    if at.c >= |r.tables.calls| {
      if Settled(r) {
        RowAndTurnKeep(s, at.i, r.(complete := true), w, if gaveUp then Idle else Looking);
      } else {
        MoveKeeps(s, w, Idle);
      }
    }
  }

  lemma DecideKeeps(s: Conv, m: nat, row: nat, approve: bool)
    requires Inv(s)
    ensures Keeps(s, Apply(s, Decision(m, row, approve)))
  {
    if !AtMessage(s, m) {
      StayGrows(s.rows);
    } else {
      var r := s.rows[m];
      DecidedRow(r, row, approve);
      RowsKeep(s, m, r.(tables := Chat.Decided(r.tables, row, approve)));
    }
  }

  lemma DecidedRow(r: Row, row: nat, approve: bool)
    requires RowOk(r) && r.ToolMessage?
    ensures RowGrows(r, r.(tables := Chat.Decided(r.tables, row, approve)))
  {
    Chat.DecidedOk(r.tables, row, approve);
    assert Chat.HasUnresolved(Chat.Decided(r.tables, row, approve)) == Chat.HasUnresolved(r.tables);
  }

  /** One message grows while no turn moves. */
  lemma RowsKeep(s: Conv, i: nat, r: Row)
    requires Inv(s) && i < |s.rows| && RowGrows(s.rows[i], r)
    ensures Keeps(s, s.(rows := s.rows[i := r]))
  {
    UpdateGrows(s.rows, i, r);
    forall v | v in s.turns ensures TurnOk(s.rows[i := r], s.turns[v]) {
      TurnStaysOk(s.rows, s.rows[i := r], s.turns[v]);
    }
  }

  /** One message grows and then one turn moves. */
  lemma RowAndTurnKeep(s: Conv, i: nat, r: Row, w: nat, phase: Phase)
    requires Inv(s) && i < |s.rows| && RowGrows(s.rows[i], r)
    requires PhaseOk(s.rows[i := r], ViewOf(s, w), phase)
    ensures Keeps(s, MoveTo(s, w, phase).(rows := s.rows[i := r]))
  {
    var mid := s.(rows := s.rows[i := r]);
    RowsKeep(s, i, r);
    ViewStaysOk(mid, w);
    MoveKeeps(mid, w, phase);
  }

  /** The event stores a new message with calls. */
  predicate Creates(s: Conv, e: Event) {
    e.Respond? && PhaseOf(s, e.w).Asking? && e.response.Some? && e.response.value != []
  }

  lemma RespondKeeps(s: Conv, w: nat, response: Option<seq<ToolCall>>)
    requires Inv(s) && Behaves(Respond(w, response)) && PhaseOf(s, w).Asking?
    ensures var s' := RespondStep(s, w, response);
            && Inv(s') && AllGrow(s.rows, s'.rows)
            && (ConversationOk(s.rows) ==>
                  (ConversationOk(s'.rows) <==> (response.Some? && response.value != [] ==> AllSettled(s.rows))))
  {
    ViewStaysOk(s, w);
    StayGrows(s.rows);
    if response.None? {
      MoveKeeps(s, w, Idle);
    } else {
      var r := if response.value == [] then Answer else NewMessage(response.value);
      if response.value != [] { Chat.FreshInv(response.value); }
      AppendGrows(s.rows, r);
      TurnStaysOk(s.rows, s.rows + [r], Progress(ViewOf(s, w), Idle));
      GrowKeeps(s, RespondStep(s, w, response), w);
    }
  }

  lemma BeginKeeps(s: Conv, w: nat, writes: bool)
    requires Inv(s)
    ensures Inv(BeginStep(s, w, writes)) && AllGrow(s.rows, BeginStep(s, w, writes).rows)
    ensures ConversationOk(s.rows) ==> ConversationOk(BeginStep(s, w, writes).rows)
  {
    StayGrows(s.rows);
    AppendGrows(s.rows, UserText);
    GrowKeeps(s, BeginStep(s, w, writes), w);
  }

  lemma FindKeeps(s: Conv, w: nat)
    requires Inv(s)
    ensures Inv(FindStep(s, w))
  {
    ViewStaysOk(s, w);
    match NewestTool(ViewOf(s, w), s.rows)
    case Some(i) => MoveKeeps(s, w, Checking(i, |s.rows|));
    case None => MoveKeeps(s, w, Building(|s.rows|));
  }

  lemma CheckKeeps(s: Conv, w: nat, at: Phase)
    requires Inv(s) && at.Checking? && PhaseOk(s.rows, ViewOf(s, w), at)
    ensures Inv(CheckStep(s, w, at))
  {
    ViewStaysOk(s, w);
    if !Settled(s.rows[at.i]) {
      MoveKeeps(s, w, Walking(at.i, 0));
    } else {
      MoveKeeps(s, w, Building(at.n));
    }
  }

  lemma StillKeeps(s: Conv, w: nat, phase: Phase)
    requires Inv(s) && (phase.Idle? || phase.Asking?)
    ensures Inv(MoveTo(s, w, phase))
  {
    ViewStaysOk(s, w);
    MoveKeeps(s, w, phase);
  }

  lemma RegenerateKeeps(s: Conv, w: nat, target: nat)
    requires Inv(s) && target < |s.rows| && Regenerable(s.rows[target])
    ensures Inv(s.(turns := s.turns[w := Progress(View(target, s.rows), Looking)]))
  {
    StayGrows(s.rows);
    GrowKeeps(s, s.(turns := s.turns[w := Progress(View(target, s.rows), Looking)]), w);
  }

  /** The steps of a search, the start of a regeneration and a turn's death leave the rows alone. */
  lemma SearchKeeps(s: Conv, e: Event)
    requires Inv(s) && (e.Find? || e.Check? || e.Build? || e.Die? || e.Regenerate?)
    ensures Inv(Apply(s, e)) && Apply(s, e).rows == s.rows
  {
    if e.Find? {
      FindKeeps(s, e.w);
    } else if e.Check? {
      if PhaseOf(s, e.w).Checking? {
        assert TurnOk(s.rows, s.turns[e.w]);
        CheckKeeps(s, e.w, PhaseOf(s, e.w));
      }
    } else if e.Regenerate? {
      if e.target < |s.rows| && Regenerable(s.rows[e.target]) { RegenerateKeeps(s, e.w, e.target); }
    } else {
      StillKeeps(s, e.w, if e.Build? then Asking else Idle);
    }
  }

  /**
    The exact step at which interleaved turns hide a call: unanswered calls stay confined to the newest
    message under every step but one, a turn that stores new calls while an older call is unanswered.
   */
  lemma StepKeepsOrderIff(s: Conv, e: Event)
    requires Inv(s) && Behaves(e)
    ensures Inv(Apply(s, e)) && AllGrow(s.rows, Apply(s, e).rows)
    ensures ConversationOk(s.rows) ==>
              (ConversationOk(Apply(s, e).rows) <==> (Creates(s, e) ==> AllSettled(s.rows)))
  {
    StayGrows(s.rows);
    if e.Decision? {
      DecideKeeps(s, e.message, e.row, e.approve);
    } else if e.Begin? {
      BeginKeeps(s, e.w, e.writes);
    } else if e.Respond? {
      if PhaseOf(s, e.w).Asking? { RespondKeeps(s, e.w, e.response); }
    } else if e.WalkCall? {
      if PhaseOf(s, e.w).Walking? { WalkKeeps(s, e.w, PhaseOf(s, e.w), e.config, e.policies, e.output); }
    } else if e.EndWalk? {
      if PhaseOf(s, e.w).Walking? { EndKeeps(s, e.w, PhaseOf(s, e.w), e.gaveUp); }
    } else {
      SearchKeeps(s, e);
    }
  }

  /** Under any interleaving every message stays safe on its own: results in call order, completed only when
      answered. */
  lemma {:induction false} MessagesStaySafe(events: seq<Event>)
    requires AllBehave(events)
    ensures Inv(Run(NOTHING, events))
  {
    if events != [] {
      MessagesStaySafe(events[..|events| - 1]);
      StepKeepsOrderIff(Run(NOTHING, events[..|events| - 1]), events[|events| - 1]);
    }
  }

  // ---------------------------------------------------------------- what is sent to the model

  /** Whenever a turn stores new calls, every call stored before has its result. */
  ghost predicate Orderly(events: seq<Event>) {
    events != [] ==>
      && Orderly(events[..|events| - 1])
      && var s := Run(NOTHING, events[..|events| - 1]);
         Creates(s, events[|events| - 1]) ==> AllSettled(s.rows)
  }

  /** Every history that was sent shows a result for each of its calls. */
  ghost predicate SentOk(s: Conv) {
    forall k :: 0 <= k < |s.sent| ==> AllAnswered(s.sent[k])
  }

  /** Messages stored since the turn's search are answered, and no result is hidden from the turn. */
  predicate ReadsInTime(s: Conv, w: nat) {
    PhaseOf(s, w).Building? ==>
      && PhaseOf(s, w).n <= |s.rows| && AllSettled(s.rows[PhaseOf(s, w).n..])
      && !LateResult(ViewOf(s, w))
  }

  /** Whenever a turn reads the history, it reads in time. */
  ghost predicate Prompt(events: seq<Event>) {
    events != [] ==>
      && Prompt(events[..|events| - 1])
      && var e := events[|events| - 1];
         e.Build? ==> ReadsInTime(Run(NOTHING, events[..|events| - 1]), e.w)
  }

  /** What a turn's search has established: of the messages it saw, only the one it holds may be open. */
  ghost predicate SearchOk(rows: seq<Row>, p: Progress) {
    match p.phase
    case Checking(i, n) => forall j :: 0 <= j < n && j < |rows| && j != i && Visible(p.view, j) ==> Settled(rows[j])
    case Building(n) => forall j :: 0 <= j < n && j < |rows| && Visible(p.view, j) ==> Settled(rows[j])
    case _ => true
  }

  ghost predicate SearchesOk(s: Conv) {
    forall w :: w in s.turns ==> SearchOk(s.rows, s.turns[w])
  }

  lemma SearchStaysOk(rows: seq<Row>, rows': seq<Row>, p: Progress)
    requires AllGrow(rows, rows') && SearchOk(rows, p) && PhaseOk(rows, p.view, p.phase)
    ensures SearchOk(rows', p)
  {
    forall j | 0 <= j < |rows| && Settled(rows[j]) ensures Settled(rows'[j]) { assert RowGrows(rows[j], rows'[j]); }
  }

  lemma StepKeepsSearches(s: Conv, e: Event)
    requires Inv(s) && SearchesOk(s) && ConversationOk(s.rows) && AllGrow(s.rows, Apply(s, e).rows)
    ensures SearchesOk(Apply(s, e))
  {
    var s' := Apply(s, e);
    forall w | w in s'.turns ensures SearchOk(s'.rows, s'.turns[w]) {
      if w in s.turns && s'.turns[w] == s.turns[w] {
        SearchStaysOk(s.rows, s'.rows, s.turns[w]);
      } else {
        MoverSearchesWell(s, e, w);
      }
    }
  }

  lemma MoverSearchesWell(s: Conv, e: Event, w: nat)
    requires Inv(s) && SearchesOk(s) && ConversationOk(s.rows)
    requires w in Apply(s, e).turns && (w in s.turns ==> Apply(s, e).turns[w] != s.turns[w])
    ensures SearchOk(Apply(s, e).rows, Apply(s, e).turns[w])
  {
    MoverMoves(s, e, w);
    if e.Find? {
      FindsWell(s, w);
    } else if e.Check? {
      ChecksWell(s, w);
    }
  }

  /** The turn that moved is the event's, and only a search leads to holding a message or reading the history. */
  lemma MoverMoves(s: Conv, e: Event, w: nat)
    requires w in Apply(s, e).turns && (w in s.turns ==> Apply(s, e).turns[w] != s.turns[w])
    ensures !e.Decision? && e.w == w
    ensures if e.Find? then Apply(s, e) == FindStep(s, w)
            else if e.Check? then w in s.turns && s.turns[w].phase.Checking?
                                  && Apply(s, e) == CheckStep(s, w, s.turns[w].phase)
            else !Apply(s, e).turns[w].phase.Checking? && !Apply(s, e).turns[w].phase.Building?
  {
  }

  lemma FindsWell(s: Conv, w: nat)
    requires ConversationOk(s.rows)
    ensures SearchOk(s.rows, FindStep(s, w).turns[w])
  {
    NewestIsNewest(ViewOf(s, w), s.rows);
    PartIsOk(ViewOf(s, w), s.rows);
  }

  lemma ChecksWell(s: Conv, w: nat)
    requires w in s.turns && SearchOk(s.rows, s.turns[w]) && s.turns[w].phase.Checking?
    requires TurnOk(s.rows, s.turns[w])
    ensures SearchOk(s.rows, CheckStep(s, w, s.turns[w].phase).turns[w])
  {
  }

  /** A history read in an orderly conversation is complete exactly when it is read in time. */
  lemma BuildSendsAnsweredIff(s: Conv, w: nat)
    requires Inv(s) && SearchesOk(s) && PhaseOf(s, w).Building?
    ensures AllAnswered(Sent(ViewOf(s, w), s.rows)) <==> ReadsInTime(s, w)
  {
    assert TurnOk(s.rows, s.turns[w]) && SearchOk(s.rows, s.turns[w]);
    AllAnsweredIff(Sent(ViewOf(s, w), s.rows));
    NewerAreVisible(ViewOf(s, w), s.rows, PhaseOf(s, w).n);
  }

  lemma NewerAreVisible(v: View, rows: seq<Row>, n: nat)
    requires |v.before| <= n <= |rows| && forall j :: 0 <= j < n && Visible(v, j) ==> Settled(rows[j])
    ensures VisibleSettled(v, rows) <==> AllSettled(rows[n..])
  {
    assert forall j :: n <= j < |rows| ==> rows[j] == rows[n..][j - n] && Visible(v, j);
    if VisibleSettled(v, rows) {
      forall k | 0 <= k < |rows[n..]| ensures Settled(rows[n..][k]) { assert rows[n..][k] == rows[n + k]; }
    }
  }

  /** Only reading the history sends. */
  lemma SentGrows(s: Conv, e: Event)
    ensures var s' := Apply(s, e);
            s'.sent == if e.Build? && PhaseOf(s, e.w).Building? then s.sent + [Sent(ViewOf(s, e.w), s.rows)] else s.sent
  {
  }

  /**
    In an orderly run no call leaves the newest message, and everything sent to the model is complete exactly
    when every history was read in time: the search for unanswered calls and the reading are two
    queries, and calls that another turn stores between them go out unanswered.
   */
  lemma {:induction false} OrderlyTurnsSendAnsweredIff(events: seq<Event>)
    requires AllBehave(events) && Orderly(events)
    ensures ConversationOk(Run(NOTHING, events).rows) && SearchesOk(Run(NOTHING, events))
    ensures SentOk(Run(NOTHING, events)) <==> Prompt(events)
  {
    if events != [] {
      var s, e := Run(NOTHING, events[..|events| - 1]), events[|events| - 1];
      OrderlyTurnsSendAnsweredIff(events[..|events| - 1]);
      MessagesStaySafe(events[..|events| - 1]);
      StepKeepsOrderIff(s, e);
      StepKeepsSearches(s, e);
      SendsOneMore(s, e);
    }
  }

  lemma SendsOneMore(s: Conv, e: Event)
    requires Inv(s) && SearchesOk(s)
    ensures SentOk(Apply(s, e)) <==> SentOk(s) && (e.Build? ==> ReadsInTime(s, e.w))
  {
    SentGrows(s, e);
    if e.Build? && PhaseOf(s, e.w).Building? {
      BuildSendsAnsweredIff(s, e.w);
      var p := Sent(ViewOf(s, e.w), s.rows);
      assert (s.sent + [p])[|s.sent|] == p && forall k :: 0 <= k < |s.sent| ==> (s.sent + [p])[k] == s.sent[k];
    }
  }

  // ---------------------------------------------------------------- one turn at a time

  predicate Busy(s: Conv, w: nat) {
    !PhaseOf(s, w).Idle?
  }

  /** A turn starts only when no other is under way, and regenerates only where nothing it hides is open. */
  ghost predicate StartsAlone(s: Conv, e: Event) {
    && (e.Begin? || e.Regenerate? ==> forall w: nat :: w != e.w ==> !Busy(s, w))
    && (e.Regenerate? && e.target < |s.rows| ==> AllSettled(s.rows[e.target..]))
  }

  ghost predicate OneAtATime(events: seq<Event>) {
    events != [] ==>
      && OneAtATime(events[..|events| - 1])
      && StartsAlone(Run(NOTHING, events[..|events| - 1]), events[|events| - 1])
  }

  /** What a turn that has the conversation to itself may count on. */
  ghost predicate Undisturbed(rows: seq<Row>, p: Progress) {
    p.phase.Idle? ||
      (&& (forall j :: 0 <= j < |rows| && !Visible(p.view, j) ==> Settled(rows[j]))
       && (p.phase.Checking? ==> forall j :: 0 <= j < |rows| && j != p.phase.i ==> Settled(rows[j]))
       && (p.phase.Building? || p.phase.Asking? ==> AllSettled(rows)))
  }

  ghost predicate Alone(s: Conv) {
    && (forall w: nat, v: nat :: Busy(s, w) && Busy(s, v) ==> w == v)
    && (forall w :: w in s.turns ==> Undisturbed(s.rows, s.turns[w]))
  }

  lemma AloneStep(s: Conv, e: Event)
    requires Inv(s) && ConversationOk(s.rows) && Alone(s) && Behaves(e) && StartsAlone(s, e)
    ensures Alone(Apply(s, e))
    ensures Creates(s, e) ==> AllSettled(s.rows)
  {
    var s' := Apply(s, e);
    StillOneBusy(s, e);
    forall w | w in s'.turns ensures Undisturbed(s'.rows, s'.turns[w]) {
      if Busy(s', w) {
        if e.Decision? {
          BystanderStays(s, e, w);
        } else {
          MoverIsUndisturbed(s, e, w);
        }
      }
    }
  }

  lemma StillOneBusy(s: Conv, e: Event)
    requires (forall w: nat, v: nat :: Busy(s, w) && Busy(s, v) ==> w == v) && StartsAlone(s, e)
    ensures forall w: nat, v: nat :: Busy(Apply(s, e), w) && Busy(Apply(s, e), v) ==> w == v
  {
    assert forall w: nat :: Busy(Apply(s, e), w) ==> Busy(s, w) || ((e.Begin? || e.Regenerate?) && w == e.w);
  }

  lemma BystanderStays(s: Conv, e: Event, w: nat)
    requires Inv(s) && e.Decision? && w in s.turns && Undisturbed(s.rows, s.turns[w])
    ensures Undisturbed(Apply(s, e).rows, Apply(s, e).turns[w])
  {
    DecideKeeps(s, e.message, e.row, e.approve);
    UndisturbedStays(s.rows, Apply(s, e).rows, s.turns[w]);
  }

  lemma UndisturbedStays(rows: seq<Row>, rows': seq<Row>, p: Progress)
    requires AllGrow(rows, rows') && |rows'| == |rows| && Undisturbed(rows, p)
    ensures Undisturbed(rows', p)
  {
    SettledStays(rows, rows');
  }

  lemma SettledStays(rows: seq<Row>, rows': seq<Row>)
    requires AllGrow(rows, rows')
    ensures forall j :: 0 <= j < |rows| && Settled(rows[j]) ==> Settled(rows'[j])
  {
    forall j | 0 <= j < |rows| && Settled(rows[j]) ensures Settled(rows'[j]) { assert RowGrows(rows[j], rows'[j]); }
  }

  lemma MoverIsUndisturbed(s: Conv, e: Event, w: nat)
    requires Inv(s) && ConversationOk(s.rows) && Alone(s) && Behaves(e) && StartsAlone(s, e)
    requires !e.Decision? && Busy(Apply(s, e), w)
    ensures Undisturbed(Apply(s, e).rows, Apply(s, e).turns[w])
  {
    if e.w != w {
      assert Busy(s, w) && !Busy(s, e.w);
      IdleDoesNothing(s, e, w);
    } else if e.Begin? || e.Regenerate? {
      StartIsUndisturbed(s, e);
    } else if e.Find? || e.Check? || e.Build? || e.Die? {
      SearchIsUndisturbed(s, e);
    } else {
      assert Undisturbed(s.rows, s.turns[w]);
      WalkIsUndisturbed(s, e);
    }
  }

  lemma IdleDoesNothing(s: Conv, e: Event, w: nat)
    requires !e.Decision? && !e.Begin? && !e.Regenerate? && e.w != w && !Busy(s, e.w) && Busy(s, w)
    ensures Apply(s, e).rows == s.rows && w in Apply(s, e).turns && Apply(s, e).turns[w] == s.turns[w]
  {
  }

  lemma SearchIsUndisturbed(s: Conv, e: Event)
    requires (e.Find? || e.Check? || e.Build? || e.Die?) && ConversationOk(s.rows)
    requires e.w in s.turns && Undisturbed(s.rows, s.turns[e.w])
    ensures Undisturbed(Apply(s, e).rows, Apply(s, e).turns[e.w])
  {
    if e.Find? {
      NewestIsNewest(ViewOf(s, e.w), s.rows);
    }
  }

  lemma WalkIsUndisturbed(s: Conv, e: Event)
    requires Inv(s) && Behaves(e) && (e.Respond? || e.WalkCall? || e.EndWalk?)
    requires e.w in s.turns && Undisturbed(s.rows, s.turns[e.w]) && Busy(s, e.w)
    ensures Undisturbed(Apply(s, e).rows, Apply(s, e).turns[e.w])
  {
    StepKeepsOrderIff(s, e);
    HiddenStaySettled(s, Apply(s, e), e.w);
    WalkerOnlyMoves(s, e);
  }

  /** A turn that waits for the model or walks does not come to hold a message or to read the history. */
  lemma WalkerOnlyMoves(s: Conv, e: Event)
    requires (e.Respond? || e.WalkCall? || e.EndWalk?) && e.w in s.turns && Busy(s, e.w)
    ensures var p := Apply(s, e).turns[e.w];
            && p.view == ViewOf(s, e.w)
            && ((p == s.turns[e.w] && Apply(s, e).rows == s.rows)
                || p.phase.Idle? || p.phase.Looking? || p.phase.Walking?)
  {
  }

  lemma StartIsUndisturbed(s: Conv, e: Event)
    requires Alone(s) && StartsAlone(s, e) && (e.Begin? || e.Regenerate?) && Busy(Apply(s, e), e.w)
    ensures Undisturbed(Apply(s, e).rows, Apply(s, e).turns[e.w])
  {
    if e.Regenerate? && e.target < |s.rows| {
      assert forall j :: e.target <= j < |s.rows| ==> s.rows[j] == s.rows[e.target..][j - e.target];
    }
  }

  lemma HiddenStaySettled(s: Conv, s': Conv, w: nat)
    requires Inv(s) && AllGrow(s.rows, s'.rows) && w in s.turns && Undisturbed(s.rows, s.turns[w]) && Busy(s, w)
    ensures forall j :: 0 <= j < |s'.rows| && !Visible(ViewOf(s, w), j) ==> Settled(s'.rows[j])
  {
    assert TurnOk(s.rows, s.turns[w]);
    forall j | 0 <= j < |s.rows| && Settled(s.rows[j]) ensures Settled(s'.rows[j]) {
      assert RowGrows(s.rows[j], s'.rows[j]);
    }
  }

  /**
    Turns that have the conversation to themselves are orderly, and everything they send is complete but for
    results hidden from a regeneration.
   */
  lemma {:induction false} OneAtATimeIsOrderly(events: seq<Event>)
    requires AllBehave(events) && OneAtATime(events)
    ensures Orderly(events) && Alone(Run(NOTHING, events))
    ensures var sent := Run(NOTHING, events).sent;
            forall k :: 0 <= k < |sent| ==> (AllAnswered(sent[k]) <==> !LateResult(sent[k].view))
  {
    if events != [] {
      var earlier, e := events[..|events| - 1], events[|events| - 1];
      var s := Run(NOTHING, earlier);
      OneAtATimeIsOrderly(earlier);
      MessagesStaySafe(earlier);
      OrderlyTurnsSendAnsweredIff(earlier);
      AloneStep(s, e);
      SentGrows(s, e);
      if e.Build? && PhaseOf(s, e.w).Building? {
        AllAnsweredIff(Sent(ViewOf(s, e.w), s.rows));
        assert TurnOk(s.rows, s.turns[e.w]) && Undisturbed(s.rows, s.turns[e.w]);
      }
    }
  }
}
