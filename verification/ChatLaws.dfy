/**
  What one walk over a message's calls, and any run of the chat protocol, brings about, said in the terms of the rows,
  of what the walkers read and of the events.
 */
module ChatLaws {
  import opened Approvals
  import opened Base
  import opened Chat
  import opened Executions
  import opened Transcript
  import Gates
  import Rows

  // ---------------------------------------------------------------- one walk

  /** What the gate sees of call `j` when the walk comes to it. */
  ghost function GateAt(t: Tables, config: Config, policies: nat -> Policies, j: nat): Gates.GateInput
    requires j < |t.calls| && t.calls[j].name in config.tools
  {
    Gates.GateInput(config.tools[t.calls[j].name], config.profile, config.floor, policies(j).org, policies(j).standing)
  }

  /** Call `j` may run without a person: attached, and its gate lets it. */
  ghost predicate RunsUnattended(t: Tables, config: Config, policies: nat -> Policies, j: nat)
    requires j < |t.calls|
  {
    t.calls[j].name in config.tools && Gates.Unattended(GateAt(t, config, policies, j))
  }

  /**
    The result a walk over `t` stores for call `j`: a person's decision comes first, then whether the tool is attached,
    then the rule and the gate that apply to this call; a call that runs stores its own output.
   */
  ghost predicate Explained(t: Tables, config: Config, policies: nat -> Policies, output: nat -> string, j: nat,
                            row: ResultRow)
    requires j < |t.calls|
  {
    var approval := LatestApproval(t.approvals, t.calls[j].id);
    && row.callId == t.calls[j].id
    && approval != Some(Rows.AwaitingDecision)
    && row.content ==
       (if approval == Some(Rows.Approved) then Output(output(j))
        else if approval.Some? then DeniedByPerson
        else if t.calls[j].name !in config.tools then NotAttached
        else if policies(j).org == Gates.Deny then DeniedByPolicy
        else Output(output(j)))
    && (approval.None? && row.content.Output? ==> RunsUnattended(t, config, policies, j))
  }

  /** The executions behind the results of the calls from `from` up to `to`. */
  ghost function RunsBetween(t: Tables, config: Config, policies: nat -> Policies, from: nat, to: nat)
    : seq<Execution<string>>
    requires from <= to <= |t.calls|
  {
    if from == to then []
    else RunsBetween(t, config, policies, from, to - 1) + RunBehind(t, config, policies, to - 1)
  }

  /** A call runs when a person approved it, or when nobody was asked and its gate lets it. */
  ghost function RunBehind(t: Tables, config: Config, policies: nat -> Policies, j: nat): seq<Execution<string>>
    requires j < |t.calls|
  {
    var id := t.calls[j].id;
    if LatestApproval(t.approvals, id) == Some(Rows.Approved) then [Execution(id, ByApproval)]
    else if LatestApproval(t.approvals, id).None? && RunsUnattended(t, config, policies, j) then
      [Execution(id, ByGate(GateAt(t, config, policies, j)))]
    else []
  }

  /** A walk over `t` has got as far as `t'`: new results for the next calls, what ran for them, and no request yet. */
  ghost predicate GotTo(t: Tables, config: Config, policies: nat -> Policies, output: nat -> string, t': Tables) {
    && t'.calls == t.calls && t'.approvals == t.approvals
    && |t.results| <= |t'.results| <= |t.calls|
    && t'.results[..|t.results|] == t.results
    && (forall j: nat :: |t.results| <= j < |t'.results| ==> Explained(t, config, policies, output, j, t'.results[j]))
    && t'.log == t.log + RunsBetween(t, config, policies, |t.results|, |t'.results|)
  }

  /** The walk asks for approval of the first call it cannot resolve: nobody was asked, and its gate does not let it. */
  ghost predicate Asks(t: Tables, config: Config, policies: nat -> Policies, n: nat)
    requires n < |t.calls|
  {
    && LatestApproval(t.approvals, t.calls[n].id).None? && t.calls[n].name in config.tools
    && policies(n).org != Gates.Deny && !RunsUnattended(t, config, policies, n)
  }

  lemma ResolveGetsOn(t: Tables, config: Config, policies: nat -> Policies, output: nat -> string, s: Tables, i: nat)
    requires TablesOk(t) && TablesOk(s) && GotTo(t, config, policies, output, s) && i <= |s.results| && i < |t.calls|
    ensures var (s', outcome) := Resolve(s, config, t.calls[i], policies(i), output(i));
            && TablesOk(s')
            && (outcome != Blocked ==> GotTo(t, config, policies, output, s') && i + 1 <= |s'.results|)
            && (outcome == Blocked ==>
                  && i == |s.results|
                  && if Asks(t, config, policies, i)
                     then s' == s.(approvals := t.approvals + [ApprovalRow(t.calls[i].id, Rows.AwaitingDecision)])
                     else s' == s && LatestApproval(t.approvals, t.calls[i].id) == Some(Rows.AwaitingDecision))
  {
    var (s', outcome) := Resolve(s, config, t.calls[i], policies(i), output(i));
    ResolveFacts(s, config, i, policies(i), output(i));
    ResolveIsExplained(t, config, policies, output, s, i);
    if outcome == Resolved {
      GetsOn(t, config, policies, output, s, s');
    }
  }

  lemma ResolveIsExplained(t: Tables, config: Config, policies: nat -> Policies, output: nat -> string, s: Tables,
                           i: nat)
    requires TablesOk(s) && s.calls == t.calls && s.approvals == t.approvals && i <= |s.results| && i < |t.calls|
    ensures var (s', outcome) := Resolve(s, config, t.calls[i], policies(i), output(i));
            match outcome
            case Skipped => true
            case Resolved =>
              && s' == s.(results := s'.results, log := s'.log)
              && s'.results[..|s'.results| - 1] == s.results
              && Explained(t, config, policies, output, i, s'.results[|s'.results| - 1])
              && s'.log == s.log + RunBehind(t, config, policies, i)
            case Blocked =>
              if Asks(t, config, policies, i)
              then s' == s.(approvals := t.approvals + [ApprovalRow(t.calls[i].id, Rows.AwaitingDecision)])
              else s' == s && LatestApproval(t.approvals, t.calls[i].id) == Some(Rows.AwaitingDecision)
  {
    var found := Inspect(s, config, t.calls[i], policies(i));
    if LatestApproval(t.approvals, t.calls[i].id).None? && t.calls[i].name in config.tools && !found.AlreadyResolved? {
      Gates.UnattendedIffGatesExecute(GateAt(t, config, policies, i));
      assert found.Unasked? <==> Asks(t, config, policies, i);
    }
  }

  lemma GetsOn(t: Tables, config: Config, policies: nat -> Policies, output: nat -> string, s: Tables, s': Tables)
    requires GotTo(t, config, policies, output, s) && |s.results| < |t.calls|
    requires s' == s.(results := s'.results, log := s'.log) && |s'.results| == |s.results| + 1
    requires s'.results[..|s.results|] == s.results
    requires Explained(t, config, policies, output, |s.results|, s'.results[|s.results|])
    requires s'.log == s.log + RunBehind(t, config, policies, |s.results|)
    ensures GotTo(t, config, policies, output, s')
  {
    forall j: nat | |t.results| <= j < |s'.results| ensures Explained(t, config, policies, output, j, s'.results[j]) {
      if j < |s.results| {
        assert s'.results[j] == s.results[j];
      }
    }
    assert s'.results[..|t.results|] == s.results[..|t.results|];
  }

  /**
    What a walk leaves: for each call it resolves, the result that this call's own decision, attachment, policies and
    output make; in the history exactly the calls that ran, each with its reason; and where it stops in front of a
    call, a row that awaits a decision, new exactly when nobody was asked before.
   */
  lemma {:induction false} WalkFrom(t: Tables, config: Config, policies: nat -> Policies, output: nat -> string,
                                    s: Tables, i: nat)
    requires TablesOk(t) && TablesOk(s) && GotTo(t, config, policies, output, s) && i <= |s.results|
    ensures WalkLaw(t, config, policies, output, Walk(s, config, i, policies, output))
    decreases |t.calls| - i
  {
    if i < |t.calls| {
      var (s', outcome) := Resolve(s, config, t.calls[i], policies(i), output(i));
      ResolveGetsOn(t, config, policies, output, s, i);
      if outcome != Blocked {
        WalkFrom(t, config, policies, output, s', i + 1);
      } else if s' != s {
        assert s'.(approvals := t.approvals) == s;
      }
    }
  }

  ghost predicate WalkLaw(t: Tables, config: Config, policies: nat -> Policies, output: nat -> string, t': Tables) {
    && GotTo(t, config, policies, output, t'.(approvals := t.approvals))
    && var n := |t'.results|;
       if n < |t.calls| && Asks(t, config, policies, n) then
         t'.approvals == t.approvals + [ApprovalRow(t.calls[n].id, Rows.AwaitingDecision)]
       else
         t'.approvals == t.approvals
         && (n < |t.calls| ==> LatestApproval(t.approvals, t.calls[n].id) == Some(Rows.AwaitingDecision))
  }

  lemma WalkIsLawful(t: Tables, config: Config, policies: nat -> Policies, output: nat -> string)
    requires TablesOk(t)
    ensures WalkLaw(t, config, policies, output, Walk(t, config, 0, policies, output))
  {
    WalkFrom(t, config, policies, output, t, 0);
  }

  lemma ShorterWalkStops(t: Tables, config: Config, policies: nat -> Policies, output: nat -> string, one: Tables,
                         other: Tables)
    requires WalkLaw(t, config, policies, output, one) && WalkLaw(t, config, policies, output, other)
    ensures |one.results| <= |other.results|
  {
    if |other.results| < |one.results| {
      ResolvedDoesNotWait(t, config, policies, output, one, |other.results|);
    }
  }

  lemma ResolvedDoesNotWait(t: Tables, config: Config, policies: nat -> Policies, output: nat -> string, t': Tables,
                            j: nat)
    requires WalkLaw(t, config, policies, output, t') && |t.results| <= j < |t'.results|
    ensures !Asks(t, config, policies, j) && LatestApproval(t.approvals, t.calls[j].id) != Some(Rows.AwaitingDecision)
  {
    assert Explained(t, config, policies, output, j, t'.results[j]);
  }

  /** The law says it all: no other tables satisfy it. */
  lemma LawDeterminesWalk(t: Tables, config: Config, policies: nat -> Policies, output: nat -> string, t': Tables)
    requires TablesOk(t)
    ensures WalkLaw(t, config, policies, output, t') <==> t' == Walk(t, config, 0, policies, output)
  {
    WalkIsLawful(t, config, policies, output);
    if WalkLaw(t, config, policies, output, t') {
      SameLawSameTables(t, config, policies, output, t', Walk(t, config, 0, policies, output));
    }
  }

  lemma SameLawSameTables(t: Tables, config: Config, policies: nat -> Policies, output: nat -> string, one: Tables,
                          other: Tables)
    requires WalkLaw(t, config, policies, output, one) && WalkLaw(t, config, policies, output, other)
    ensures one == other
  {
    ShorterWalkStops(t, config, policies, output, one, other);
    ShorterWalkStops(t, config, policies, output, other, one);
    forall j: nat | j < |one.results| ensures one.results[j] == other.results[j] {
      if j < |t.results| {
        assert one.results[..|t.results|][j] == other.results[..|t.results|][j];
      } else {
        assert Explained(t, config, policies, output, j, one.results[j]);
        assert Explained(t, config, policies, output, j, other.results[j]);
      }
    }
    assert one.results == other.results;
  }

  // ---------------------------------------------------------------- a walk is a run of the protocol

  /** What walker `w` does from call `i` on: one transaction a call. */
  ghost function WalkEvents(w: nat, i: nat, n: nat, policies: nat -> Policies, output: nat -> string): seq<Event>
    decreases n - i
  {
    if i >= n then []
    else
      [Acquire(w), Look(w, policies(i)), Execute(w, output(i)), Commit(w)] + WalkEvents(w, i + 1, n, policies, output)
  }

  lemma StoppedStays(c: Protocol, w: nat, e0: Event, e1: Event, e2: Event, e3: Event)
    requires w in c.walkers && c.walkers[w].pc.Stopped?
    requires e0.Acquire? && e1.Look? && e2.Execute? && e3.Commit? && e0.w == e1.w == e2.w == e3.w == w
    ensures RunAll(c, [e0, e1, e2, e3]) == c
  {
    FoldFour(Apply, c, e0, e1, e2, e3);
  }

  lemma {:induction false} StoppedStaysForAll(c: Protocol, w: nat, i: nat, n: nat, policies: nat -> Policies,
                                              output: nat -> string)
    requires w in c.walkers && c.walkers[w].pc.Stopped?
    ensures RunAll(c, WalkEvents(w, i, n, policies, output)) == c
    decreases n - i
  {
    if i < n {
      var four := [Acquire(w), Look(w, policies(i)), Execute(w, output(i)), Commit(w)];
      FoldConcat(Apply, c, four, WalkEvents(w, i + 1, n, policies, output));
      StoppedStays(c, w, four[0], four[1], four[2], four[3]);
      StoppedStaysForAll(c, w, i + 1, n, policies, output);
    }
  }

  lemma FirstTransaction(c: Protocol, w: nat, i: nat, n: nat, policies: nat -> Policies, output: nat -> string,
                         c': Protocol)
    requires w in c.walkers && c.walkers[w].pc == Ready(i) && c.lock.None? && i < n == |c.tables.calls|
    requires var (t', outcome) := Resolve(c.tables, c.walkers[w].config, c.tables.calls[i], policies(i), output(i));
             c' == Release(c, w, if outcome.Blocked? then Stopped else Ready(i + 1)).(tables := t')
    ensures RunAll(c, WalkEvents(w, i, n, policies, output)) == RunAll(c', WalkEvents(w, i + 1, n, policies, output))
  {
    var four := [Acquire(w), Look(w, policies(i)), Execute(w, output(i)), Commit(w)];
    assert RunAll(c, four) == c' by {
      ResolveIsAtomic(c, w, policies(i), output(i));
    }
    AfterFour(c, four, WalkEvents(w, i + 1, n, policies, output), c');
  }

  lemma AfterFour(c: Protocol, four: seq<Event>, rest: seq<Event>, c': Protocol)
    requires RunAll(c, four) == c'
    ensures RunAll(c, four + rest) == RunAll(c', rest)
  {
    FoldConcat(Apply, c, four, rest);
  }

  /** A walk is its transactions, one after the other, in the protocol. */
  lemma {:induction false} WalkIsARun(c: Protocol, w: nat, i: nat, policies: nat -> Policies, output: nat -> string)
    requires w in c.walkers && c.walkers[w].pc == Ready(i) && c.lock.None?
    ensures var c' := RunAll(c, WalkEvents(w, i, |c.tables.calls|, policies, output));
            c'.tables == Walk(c.tables, c.walkers[w].config, i, policies, output) && c'.lock.None? && c'.lost == c.lost
    decreases |c.tables.calls| - i
  {
    var n, config := |c.tables.calls|, c.walkers[w].config;
    if i < n {
      var (t', outcome) := Resolve(c.tables, config, c.tables.calls[i], policies(i), output(i));
      var c' := Release(c, w, if outcome.Blocked? then Stopped else Ready(i + 1)).(tables := t');
      FirstTransaction(c, w, i, n, policies, output, c');
      if outcome.Blocked? {
        StoppedStaysForAll(c', w, i + 1, n, policies, output);
      } else {
        WalkIsARun(c', w, i + 1, policies, output);
      }
    }
  }

  // ---------------------------------------------------------------- reasons, over every interleaving

  /** What an event brings about for a call. */
  datatype Cause =
    | Decision(id: string, approve: bool)    // a person decides the call's row
    | Passes(i: nat, gate: Gates.GateInput)  // a walker finds that the call may run unasked
    | Refuses(i: nat)                        // a walker finds a rule that denies it
    | Lacks(i: nat)                          // a walker finds its tool not attached
    | Returns(i: nat, text: string)          // its tool returns

  /** The lock holder reads the rows of call `i`, which nobody has been asked about. */
  ghost predicate ReadsUnasked(c: Protocol, e: Event, i: nat) {
    && e.Look? && e.w in c.walkers && c.walkers[e.w].pc == Holding(i) && i < |c.tables.calls|
    && LatestApproval(c.tables.approvals, c.tables.calls[i].id).None?
  }

  ghost predicate Attached(c: Protocol, e: Event, i: nat)
    requires ReadsUnasked(c, e, i)
  {
    c.tables.calls[i].name in c.walkers[e.w].config.tools
  }

  ghost predicate Causes(c: Protocol, e: Event, cause: Cause) {
    match cause
    case Decision(id, approve) =>
      && e.Decide? && e.approve == approve && e.r < |c.tables.approvals|
      && c.tables.approvals[e.r] == ApprovalRow(id, Rows.AwaitingDecision)
    case Passes(i, gate) =>
      && ReadsUnasked(c, e, i) && Attached(c, e, i) && Gates.Unattended(gate)
      && (var config := c.walkers[e.w].config;
          gate == Gates.GateInput(config.tools[c.tables.calls[i].name], config.profile, config.floor,
                                  e.policies.org, e.policies.standing))
    case Refuses(i) => ReadsUnasked(c, e, i) && Attached(c, e, i) && e.policies.org == Gates.Deny
    case Lacks(i) => ReadsUnasked(c, e, i) && !Attached(c, e, i)
    case Returns(i, text) =>
      e.Execute? && e.w in c.walkers && c.walkers[e.w].pc.Running? && c.walkers[e.w].pc.i == i && e.output == text
  }

  ghost function Before(calls: seq<ToolCall>, events: seq<Event>, k: nat): Protocol
    requires k <= |events|
  {
    RunAll(Fresh(calls), events[..k])
  }

  ghost predicate CausedAt(calls: seq<ToolCall>, events: seq<Event>, cause: Cause, k: nat)
    requires k < |events|
  {
    Causes(Before(calls, events, k), events[k], cause)
  }

  ghost predicate Caused(calls: seq<ToolCall>, events: seq<Event>, cause: Cause) {
    exists k :: 0 <= k < |events| && CausedAt(calls, events, cause, k)
  }

  lemma CausedEarlier(calls: seq<ToolCall>, events: seq<Event>, e: Event, cause: Cause)
    requires Caused(calls, events, cause) || Causes(RunAll(Fresh(calls), events), e, cause)
    ensures Caused(calls, events + [e], cause)
  {
    var all := events + [e];
    assert all[..|events|] == events && all[|events|] == e;
    if Causes(RunAll(Fresh(calls), events), e, cause) {
      assert CausedAt(calls, all, cause, |events|);
    } else {
      var k :| 0 <= k < |events| && CausedAt(calls, events, cause, k);
      assert all[..k] == events[..k];
      assert CausedAt(calls, all, cause, k);
    }
  }

  /** The cause behind a result of call `i`. */
  ghost function CauseOf(calls: seq<ToolCall>, i: nat, content: Content): Cause
    requires i < |calls|
  {
    match content
    case Output(text) => Returns(i, text)
    case DeniedByPerson => Decision(calls[i].id, false)
    case DeniedByPolicy => Refuses(i)
    case NotAttached => Lacks(i)
  }

  /** The cause behind an execution of call `i`. */
  ghost function CauseOfRun(calls: seq<ToolCall>, i: nat, why: Why): Cause
    requires i < |calls|
  {
    match why
    case ByApproval => Decision(calls[i].id, true)
    case ByGate(gate) => Passes(i, gate)
  }

  /** A decided row was decided so by a person. */
  ghost predicate RowCaused(calls: seq<ToolCall>, events: seq<Event>, row: ApprovalRow<string>) {
    match row.status
    case AwaitingDecision => true
    case Approved => Caused(calls, events, Decision(row.key, true))
    case Denied => Caused(calls, events, Decision(row.key, false))
    case Expired => false
  }

  ghost predicate RunCaused(calls: seq<ToolCall>, events: seq<Event>, run: Execution<string>) {
    exists i :: 0 <= i < |calls| && calls[i].id == run.key && Caused(calls, events, CauseOfRun(calls, i, run.why))
  }

  /** What a walker is about to do has its cause. */
  ghost predicate PcCaused(calls: seq<ToolCall>, events: seq<Event>, pc: Pc) {
    match pc
    case Running(i, why) => i < |calls| && Caused(calls, events, CauseOfRun(calls, i, why))
    case Saving(i, content) => i < |calls| && Caused(calls, events, CauseOf(calls, i, content))
    case _ => true
  }

  ghost predicate AllCaused(calls: seq<ToolCall>, events: seq<Event>, c: Protocol) {
    && c.tables.calls == calls && |c.tables.results| <= |calls|
    && (forall j :: 0 <= j < |c.tables.results| ==>
          Caused(calls, events, CauseOf(calls, j, c.tables.results[j].content)))
    && (forall k :: 0 <= k < |c.tables.log| ==> RunCaused(calls, events, c.tables.log[k]))
    && (forall r :: 0 <= r < |c.tables.approvals| ==> RowCaused(calls, events, c.tables.approvals[r]))
    && (forall w :: w in c.walkers ==> PcCaused(calls, events, c.walkers[w].pc))
  }

  lemma StaysCaused(calls: seq<ToolCall>, events: seq<Event>, e: Event, c: Protocol)
    requires AllCaused(calls, events, c)
    ensures AllCaused(calls, events + [e], c)
  {
    var all := events + [e];
    forall cause: Cause | Caused(calls, events, cause) ensures Caused(calls, all, cause) {
      CausedEarlier(calls, events, e, cause);
    }
    forall k | 0 <= k < |c.tables.log| ensures RunCaused(calls, all, c.tables.log[k]) {
      var run := c.tables.log[k];
      assert RunCaused(calls, events, run);
      var i :| 0 <= i < |calls| && calls[i].id == run.key && Caused(calls, events, CauseOfRun(calls, i, run.why));
      assert Caused(calls, all, CauseOfRun(calls, i, run.why));
    }
    forall w | w in c.walkers ensures PcCaused(calls, all, c.walkers[w].pc) {
      assert PcCaused(calls, events, c.walkers[w].pc);
    }
    forall r | 0 <= r < |c.tables.approvals| ensures RowCaused(calls, all, c.tables.approvals[r]) {
      assert RowCaused(calls, events, c.tables.approvals[r]);
    }
  }

  /** The causes among `known` cover what the event brings about. */
  ghost predicate Covers(calls: seq<ToolCall>, known: seq<Event>, c: Protocol, e: Event) {
    forall cause: Cause :: Causes(c, e, cause) ==> Caused(calls, known, cause)
  }

  lemma DecisionIsCaused(calls: seq<ToolCall>, known: seq<Event>, c: Protocol, e: Event)
    requires AllCaused(calls, known, c) && Covers(calls, known, c, e) && e.Decide?
    ensures AllCaused(calls, known, Apply(c, e))
  {
    var rows := Apply(c, e).tables.approvals;
    forall r | 0 <= r < |rows| ensures RowCaused(calls, known, rows[r]) {
      assert RowCaused(calls, known, c.tables.approvals[r]);
      if rows[r] != c.tables.approvals[r] {
        assert Causes(c, e, Decision(rows[r].key, e.approve));
      }
    }
  }

  lemma FindingIsCaused(calls: seq<ToolCall>, known: seq<Event>, c: Protocol, e: Event, i: nat)
    requires AllCaused(calls, known, c) && Covers(calls, known, c, e)
    requires e.Look? && e.w in c.walkers && c.walkers[e.w].pc == Holding(i) && i < |calls|
    ensures var found := Inspect(c.tables, c.walkers[e.w].config, calls[i], e.policies);
            && (found.Run? ==> Caused(calls, known, CauseOfRun(calls, i, found.why)))
            && (found.Record? ==> Caused(calls, known, CauseOf(calls, i, found.content)))
  {
    var t, config := c.tables, c.walkers[e.w].config;
    var found := Inspect(t, config, calls[i], e.policies);
    match LatestApproval(t.approvals, calls[i].id) {
      case Some(status) =>
        var r := LatestApprovalRow(t.approvals, calls[i].id, status);
        assert RowCaused(calls, known, t.approvals[r]);
      case None =>
        if found.Run? {
          Gates.UnattendedIffGatesExecute(found.why.gate);
          assert Causes(c, e, Passes(i, found.why.gate));
        } else if found == Record(NotAttached) {
          assert Causes(c, e, Lacks(i));
        } else if found.Record? {
          assert Causes(c, e, Refuses(i));
        }
    }
  }

  lemma LookIsCaused(calls: seq<ToolCall>, known: seq<Event>, c: Protocol, e: Event)
    requires AllCaused(calls, known, c) && Covers(calls, known, c, e)
    requires e.Look? && e.w in c.walkers && c.walkers[e.w].pc.Holding?
    ensures AllCaused(calls, known, Apply(c, e))
  {
    var i := c.walkers[e.w].pc.i;
    if i < |calls| {
      FindingIsCaused(calls, known, c, e, i);
    }
  }

  lemma ExecutionIsCaused(calls: seq<ToolCall>, known: seq<Event>, c: Protocol, e: Event)
    requires AllCaused(calls, known, c) && Covers(calls, known, c, e)
    requires (e.Execute? || e.ExecuteRaises?) && e.w in c.walkers && c.walkers[e.w].pc.Running?
    ensures AllCaused(calls, known, Apply(c, e))
  {
    var i, why := c.walkers[e.w].pc.i, c.walkers[e.w].pc.why;
    assert PcCaused(calls, known, c.walkers[e.w].pc);
    assert RunCaused(calls, known, Execution(calls[i].id, why));
    if e.Execute? {
      assert Causes(c, e, Returns(i, e.output));
    }
    var log := Apply(c, e).tables.log;
    assert log == c.tables.log + [Execution(calls[i].id, why)];
  }

  lemma CommitIsCaused(calls: seq<ToolCall>, known: seq<Event>, c: Protocol, e: Event)
    requires AllCaused(calls, known, c) && Inv(c) && e.Commit? && e.w in c.walkers
    ensures AllCaused(calls, known, Apply(c, e))
  {
    assert PcOk(c.tables, c.walkers[e.w].pc);
    assert PcCaused(calls, known, c.walkers[e.w].pc);
  }

  lemma EventIsCaused(calls: seq<ToolCall>, known: seq<Event>, c: Protocol, e: Event)
    requires AllCaused(calls, known, c) && Inv(c) && Covers(calls, known, c, e)
    ensures AllCaused(calls, known, Apply(c, e))
  {
    if e.Decide? {
      DecisionIsCaused(calls, known, c, e);
    } else if !e.Begin? && e.w in c.walkers {
      var pc := c.walkers[e.w].pc;
      if e.Look? && pc.Holding? {
        LookIsCaused(calls, known, c, e);
      } else if (e.Execute? || e.ExecuteRaises?) && pc.Running? {
        ExecutionIsCaused(calls, known, c, e);
      } else if e.Commit? {
        CommitIsCaused(calls, known, c, e);
      }
    }
  }

  lemma {:induction false} RunIsCaused(calls: seq<ToolCall>, events: seq<Event>)
    requires Distinct(Ids(calls))
    ensures AllCaused(calls, events, RunAll(Fresh(calls), events))
  {
    if events != [] {
      var earlier, e := events[..|events| - 1], events[|events| - 1];
      var c := RunAll(Fresh(calls), earlier);
      RunIsCaused(calls, earlier);
      assert events == earlier + [e];
      StaysCaused(calls, earlier, e, c);
      forall cause: Cause | Causes(c, e, cause) ensures Caused(calls, events, cause) {
        CausedEarlier(calls, earlier, e, cause);
      }
      FreshInv(calls);
      RunInv(Fresh(calls), earlier);
      EventIsCaused(calls, events, c, e);
    }
  }

  /**
    Whatever interleaves: a stored output is what the call's tool returned, a stored denial was a person's decision of
    its row or a rule that a walker read, with nobody asked, and only a tool not attached is stored as such.
   */
  lemma ResultsHaveCauses(calls: seq<ToolCall>, events: seq<Event>, j: nat)
    requires Distinct(Ids(calls)) && j < |RunAll(Fresh(calls), events).tables.results|
    ensures j < |calls|
    ensures match RunAll(Fresh(calls), events).tables.results[j].content
            case Output(text) => Caused(calls, events, Returns(j, text))
            case DeniedByPerson => Caused(calls, events, Decision(calls[j].id, false))
            case DeniedByPolicy => Caused(calls, events, Refuses(j))
            case NotAttached => Caused(calls, events, Lacks(j))
  {
    RunIsCaused(calls, events);
    var content := RunAll(Fresh(calls), events).tables.results[j].content;
    assert Caused(calls, events, CauseOf(calls, j, content));
  }

  /** An execution by approval was approved by a person before, and one by its gate had a gate that lets it. */
  lemma ExecutionsHaveCauses(calls: seq<ToolCall>, events: seq<Event>, k: nat)
    requires Distinct(Ids(calls)) && k < |RunAll(Fresh(calls), events).tables.log|
    ensures var run := RunAll(Fresh(calls), events).tables.log[k];
            exists i :: 0 <= i < |calls| && calls[i].id == run.key &&
              match run.why
              case ByApproval => Caused(calls, events, Decision(run.key, true))
              case ByGate(gate) => Caused(calls, events, Passes(i, gate))
  {
    var run := RunAll(Fresh(calls), events).tables.log[k];
    RunIsCaused(calls, events);
    assert RunCaused(calls, events, run);
    var i :| 0 <= i < |calls| && calls[i].id == run.key && Caused(calls, events, CauseOfRun(calls, i, run.why));
    assert 0 <= i < |calls|;
  }

  /** A decision of a row that awaits one is recorded there, and any other changes nothing. */
  lemma DecisionIsRecorded(c: Protocol, r: nat, approve: bool)
    ensures var c', rows := Apply(c, Decide(r, approve)), c.tables.approvals;
            if r < |rows| && rows[r].status == Rows.AwaitingDecision then
              && |c'.tables.approvals| == |rows| && c'.(tables := c'.tables.(approvals := rows)) == c
              && c'.tables.approvals[r] == ApprovalRow(rows[r].key, if approve then Rows.Approved else Rows.Denied)
              && forall q :: 0 <= q < |rows| && q != r ==> c'.tables.approvals[q] == rows[q]
            else c' == c
  {
  }

  /** A call whose row a person turns down never executes again, whatever happens before and after. */
  lemma TurnedDownNeverExecutes(calls: seq<ToolCall>, before: seq<Event>, e: Event, after: seq<Event>, id: string)
    requires Distinct(Ids(calls)) && Causes(RunAll(Fresh(calls), before), e, Decision(id, false))
    ensures Count(LoggedKeys(RunAll(Fresh(calls), before + [e] + after).tables.log), id) ==
            Count(LoggedKeys(RunAll(Fresh(calls), before).tables.log), id)
  {
    var c := RunAll(Fresh(calls), before);
    FreshInv(calls);
    RunInv(Fresh(calls), before);
    FoldAppend(Apply, Fresh(calls), before, e);
    LatestApprovalUpdate(c.tables.approvals, e.r, Rows.Denied, id);
    DeniedNeverExecutesLater(calls, before + [e], after, id);
    FoldConcat(Apply, Fresh(calls), before + [e], after);
  }
}
