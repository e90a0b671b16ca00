/**
  Resolution of one assistant message's tool calls in chat. Any number of walkers (turns, retries,
  double clicks) go over the same stored calls; each call is resolved inside a transaction that
  holds the message's row lock, and people decide approval rows at any time in between.
 */
module Chat {
  import opened Approvals
  import opened Base
  import opened Executions
  import opened Transcript
  import Gates
  import Rows

  // ---------------------------------------------------------------- tables

  /** What a stored result says. */
  datatype Content = Output(text: string) | DeniedByPerson | DeniedByPolicy | NotAttached

  datatype ResultRow = ResultRow(callId: string, content: Content)

  /** The message's calls, the result and approval rows that belong to it, and the executions so far. */
  datatype Tables = Tables(
    calls: seq<ToolCall>,
    results: seq<ResultRow>,
    approvals: seq<ApprovalRow<string>>,
    log: seq<Execution<string>>)

  predicate Stored(results: seq<ResultRow>, callId: string) {
    exists i :: 0 <= i < |results| && results[i].callId == callId
  }

  predicate HasResult(t: Tables, callId: string) {
    Stored(t.results, callId)
  }

  /** `_has_unresolved_tool_calls`. */
  predicate HasUnresolved(t: Tables) {
    exists i :: 0 <= i < |t.calls| && !HasResult(t, t.calls[i].id)
  }

  /** What a turn reads once, at its start: attached tools with their risk, profile and floor. */
  datatype Config = Config(tools: map<string, string>, profile: map<string, string>, floor: map<string, string>)

  /** What a turn reads anew for each call. */
  datatype Policies = Policies(org: Gates.Effect, standing: bool)

  datatype Finding =
    | AlreadyResolved
    | Waiting
    | Run(why: Why)
    | Record(content: Content)
    | Unasked

  function GateInputOf(config: Config, name: string, policies: Policies): Gates.GateInput
    requires name in config.tools
  {
    Gates.GateInput(config.tools[name], config.profile, config.floor, policies.org, policies.standing)
  }

  /** What the transaction finds out about a call, in the order in which it asks. */
  function Inspect(t: Tables, config: Config, call: ToolCall, policies: Policies): Finding {
    if HasResult(t, call.id) then AlreadyResolved
    else
      match LatestApproval(t.approvals, call.id)
      case Some(AwaitingDecision) => Waiting
      case Some(Approved) => Run(ByApproval)
      case Some(_) => Record(DeniedByPerson)
      case None =>
        if call.name !in config.tools then Record(NotAttached)
        else
          var gate := GateInputOf(config, call.name, policies);
          match Gates.ChatVerdict(gate)
          case Refuse => Record(DeniedByPolicy)
          case Ask => Unasked
          case Execute => Run(ByGate(gate))
  }

  function Store(t: Tables, callId: string, content: Content): Tables {
    t.(results := t.results + [ResultRow(callId, content)])
  }

  function Request(t: Tables, callId: string): Tables {
    t.(approvals := t.approvals + [ApprovalRow(callId, Rows.AwaitingDecision)])
  }

  function LogRun(t: Tables, callId: string, why: Why): Tables {
    t.(log := t.log + [Execution(callId, why)])
  }

  // ---------------------------------------------------------------- the protocol

  datatype Pc =
    | Ready(i: nat)                      // about to lock the message for call i
    | Holding(i: nat)                    // lock held, nothing read yet
    | Running(i: nat, why: Why)          // lock held, about to execute the tool
    | Saving(i: nat, content: Content)   // lock held, about to store a result and commit
    | Asking(i: nat)                     // lock held, about to create an approval row and commit
    | Stopped

  predicate InTransaction(pc: Pc) {
    !pc.Ready? && !pc.Stopped?
  }

  datatype Walker = Walker(config: Config, pc: Pc)

  /** `lost` lists the executions whose transaction died before its result was committed. */
  datatype Protocol = Protocol(tables: Tables, lock: Option<nat>, walkers: map<nat, Walker>, lost: seq<string>)

  datatype Event =
    | Begin(w: nat, config: Config)
    | Acquire(w: nat)
    | Look(w: nat, policies: Policies)
    | Execute(w: nat, output: string)
    | ExecuteRaises(w: nat)
    | Commit(w: nat)
    | Crash(w: nat)
    | Decide(r: nat, approve: bool)

  function Move(c: Protocol, w: nat, pc: Pc): Protocol
    requires w in c.walkers
  {
    c.(walkers := c.walkers[w := c.walkers[w].(pc := pc)])
  }

  function Release(c: Protocol, w: nat, pc: Pc): Protocol
    requires w in c.walkers
  {
    Move(c, w, pc).(lock := None)
  }

  /** A person decides an approval row; a row that does not await a decision stays as it is. */
  function Decided(t: Tables, r: nat, approve: bool): Tables {
    if r < |t.approvals| && t.approvals[r].status == Rows.AwaitingDecision then
      t.(approvals := t.approvals[r := t.approvals[r].(status := Rows.DecisionStatus(approve))])
    else t
  }

  /** Where the lock holder goes once it has read the rows of call `i`. */
  function AfterLook(c: Protocol, w: nat, i: nat, found: Finding): Protocol
    requires w in c.walkers
  {
    match found
    case AlreadyResolved => Release(c, w, Ready(i + 1))
    case Waiting => Release(c, w, Stopped)
    case Run(why) => Move(c, w, Running(i, why))
    case Record(content) => Move(c, w, Saving(i, content))
    case Unasked => Move(c, w, Asking(i))
  }

  /** One event; an event that does not apply changes nothing. */
  function Apply(c: Protocol, e: Event): Protocol {
    match e
    case Begin(w, config) =>
      if w in c.walkers && InTransaction(c.walkers[w].pc) then c
      else c.(walkers := c.walkers[w := Walker(config, Ready(0))])
    case Decide(r, approve) => c.(tables := Decided(c.tables, r, approve))
    case _ =>
      if e.w in c.walkers then Advance(c, e.w, c.walkers[e.w], e) else c
  }

  function Advance(c: Protocol, w: nat, walker: Walker, e: Event): Protocol
    requires w in c.walkers && c.walkers[w] == walker
  {
    match walker.pc
    case Ready(i) =>
      if e.Acquire? && c.lock.None? && i < |c.tables.calls| then Move(c, w, Holding(i)).(lock := Some(w)) else c
    case Holding(i) =>
      if e.Look? && i < |c.tables.calls| then
        AfterLook(c, w, i, Inspect(c.tables, walker.config, c.tables.calls[i], e.policies))
      else if e.Crash? then Release(c, w, Stopped)
      else c
    case Running(i, why) =>
      if i >= |c.tables.calls| then c
      else if e.Execute? then
        Move(c.(tables := LogRun(c.tables, c.tables.calls[i].id, why)), w, Saving(i, Output(e.output)))
      else if e.ExecuteRaises? then
        Release(c.(tables := LogRun(c.tables, c.tables.calls[i].id, why), lost := c.lost + [c.tables.calls[i].id]),
                w, Stopped)
      else if e.Crash? then Release(c, w, Stopped)
      else c
    case Saving(i, content) =>
      if i >= |c.tables.calls| then c
      else if e.Commit? then
        Release(c.(tables := Store(c.tables, c.tables.calls[i].id, content)), w, Ready(i + 1))
      else if e.Crash? then
        Release(c.(lost := if content.Output? then c.lost + [c.tables.calls[i].id] else c.lost), w, Stopped)
      else c
    case Asking(i) =>
      if i >= |c.tables.calls| then c
      else if e.Commit? then Release(c.(tables := Request(c.tables, c.tables.calls[i].id)), w, Stopped)
      else if e.Crash? then Release(c, w, Stopped)
      else c
    case Stopped => c
  }

  function RunAll(c: Protocol, events: seq<Event>): Protocol {
    Fold(Apply, c, events)
  }

  function Fresh(calls: seq<ToolCall>): Protocol {
    Protocol(Tables(calls, [], [], []), None, map[], [])
  }

  // ---------------------------------------------------------------- invariants

  /** Ids of the stored results that hold a tool's output. */
  function OutputIds(results: seq<ResultRow>): seq<string> {
    if results == [] then []
    else
      var last := results[|results| - 1];
      OutputIds(results[..|results| - 1]) + if last.content.Output? then [last.callId] else []
  }

  /** The executed call whose result the lock holder has yet to commit, if there is one. */
  function InFlight(c: Protocol): seq<string> {
    if c.lock.Some? && c.lock.value in c.walkers then
      var pc := c.walkers[c.lock.value].pc;
      if pc.Saving? && pc.content.Output? && pc.i < |c.tables.calls| then [c.tables.calls[pc.i].id] else []
    else []
  }

  ghost predicate Justified(t: Tables, e: Execution<string>) {
    match e.why
    case ByApproval => LatestApproval(t.approvals, e.key) == Some(Rows.Approved)
    case ByGate(gate) => Gates.Unattended(gate)
  }

  /** A call that is resolved or the first unresolved one. */
  ghost predicate Reached(t: Tables, callId: string) {
    exists j :: 0 <= j < |t.calls| && j <= |t.results| && t.calls[j].id == callId
  }

  /** Results answer the calls in order and without gaps; approvals never run ahead of them. */
  ghost predicate TablesOk(t: Tables) {
    && Distinct(Ids(t.calls))
    && |t.results| <= |t.calls|
    && (forall j :: 0 <= j < |t.results| ==> t.results[j].callId == t.calls[j].id)
    && OneRowEach(t.approvals)
    && (forall r :: 0 <= r < |t.approvals| ==> Reached(t, t.approvals[r].key))
    && (forall r :: 0 <= r < |t.approvals| && t.approvals[r].status == Rows.AwaitingDecision ==>
          |t.results| < |t.calls| && t.approvals[r].key == t.calls[|t.results|].id)
    && (forall k :: 0 <= k < |t.log| ==> Justified(t, t.log[k]))
  }

  /** Inside a transaction that writes, the call is the first unresolved one and nobody is asked about it. */
  ghost predicate AtFrontier(t: Tables, i: nat) {
    i == |t.results| < |t.calls| && LatestApproval(t.approvals, t.calls[i].id) != Some(Rows.AwaitingDecision)
  }

  ghost predicate PcOk(t: Tables, pc: Pc) {
    match pc
    case Ready(i) => i <= |t.results|
    case Holding(i) => i <= |t.results| && i < |t.calls|
    case Running(i, why) =>
      && AtFrontier(t, i)
      && (match why
          case ByApproval => LatestApproval(t.approvals, t.calls[i].id) == Some(Rows.Approved)
          case ByGate(gate) => LatestApproval(t.approvals, t.calls[i].id).None? && Gates.Unattended(gate))
    case Saving(i, _) => AtFrontier(t, i)
    case Asking(i) => AtFrontier(t, i) && LatestApproval(t.approvals, t.calls[i].id).None?
    case Stopped => true
  }

  /** Exactly the lock holder is inside a transaction. */
  ghost predicate LockOk(c: Protocol) {
    && (forall w :: w in c.walkers ==> (InTransaction(c.walkers[w].pc) <==> c.lock == Some(w)))
    && (c.lock.Some? ==> c.lock.value in c.walkers)
  }

  /** Conservation: every execution is stored, in flight, or was lost in a crash. */
  ghost predicate Conserved(c: Protocol) {
    forall id :: Count(LoggedKeys(c.tables.log), id) ==
                 Count(OutputIds(c.tables.results), id) + Count(InFlight(c), id) + Count(c.lost, id)
  }

  ghost predicate Inv(c: Protocol) {
    && TablesOk(c.tables)
    && LockOk(c)
    && (forall w :: w in c.walkers ==> PcOk(c.tables, c.walkers[w].pc))
    && Conserved(c)
  }

  lemma FreshInv(calls: seq<ToolCall>)
    requires Distinct(Ids(calls))
    ensures Inv(Fresh(calls))
  {
  }

  // ---------------------------------------------------------------- preservation

  lemma NothingPending(t: Tables, i: nat)
    requires TablesOk(t) && AtFrontier(t, i)
    ensures forall r :: 0 <= r < |t.approvals| ==> t.approvals[r].status != Rows.AwaitingDecision
  {
    forall r | 0 <= r < |t.approvals| && t.approvals[r].status == Rows.AwaitingDecision ensures false {
      LatestApprovalOf(t.approvals, r);
    }
  }

  lemma ReachedStays(t: Tables, t': Tables, callId: string)
    requires Reached(t, callId) && t'.calls == t.calls && |t.results| <= |t'.results|
    ensures Reached(t', callId)
  {
    var j :| 0 <= j < |t.calls| && j <= |t.results| && t.calls[j].id == callId;
    assert t'.calls[j].id == callId;
  }

  lemma StoreOk(t: Tables, i: nat, content: Content)
    requires TablesOk(t) && AtFrontier(t, i)
    ensures TablesOk(Store(t, t.calls[i].id, content))
  {
    var t' := Store(t, t.calls[i].id, content);
    NothingPending(t, i);
    forall r | 0 <= r < |t'.approvals| ensures Reached(t', t'.approvals[r].key) {
      ReachedStays(t, t', t.approvals[r].key);
    }
    forall k | 0 <= k < |t'.log| ensures Justified(t', t'.log[k]) { assert Justified(t, t.log[k]); }
  }

  lemma RequestOk(t: Tables, i: nat)
    requires TablesOk(t) && AtFrontier(t, i) && LatestApproval(t.approvals, t.calls[i].id).None?
    ensures TablesOk(Request(t, t.calls[i].id))
  {
    var id := t.calls[i].id;
    var t' := Request(t, id);
    NothingPending(t, i);
    LatestApprovalNone(t.approvals, id);
    forall r | 0 <= r < |t'.approvals| ensures Reached(t', t'.approvals[r].key) {
      if r < |t.approvals| {
        ReachedStays(t, t', t.approvals[r].key);
      } else {
        assert t'.calls[i].id == t'.approvals[r].key;
      }
    }
    forall k | 0 <= k < |t'.log| ensures Justified(t', t'.log[k]) {
      assert Justified(t, t.log[k]);
      LatestApprovalAppend(t.approvals, ApprovalRow(id, Rows.AwaitingDecision), t.log[k].key);
    }
  }

  lemma LogRunOk(t: Tables, id: string, why: Why)
    requires TablesOk(t) && Justified(t, Execution(id, why))
    ensures TablesOk(LogRun(t, id, why))
  {
    var t' := LogRun(t, id, why);
    forall r | 0 <= r < |t'.approvals| ensures Reached(t', t'.approvals[r].key) {
      ReachedStays(t, t', t.approvals[r].key);
    }
    forall k | 0 <= k < |t'.log| ensures Justified(t', t'.log[k]) {
      assert Justified(t, if k < |t.log| then t.log[k] else Execution(id, why));
    }
  }

  /** Another walker outside any transaction minds neither new rows nor decisions. */
  lemma OutsideStaysOk(t: Tables, t': Tables, pc: Pc)
    requires PcOk(t, pc) && !InTransaction(pc) && |t.results| <= |t'.results|
    ensures PcOk(t', pc)
  {
  }

  lemma DecidedOk(t: Tables, r: nat, approve: bool)
    requires TablesOk(t)
    ensures TablesOk(Decided(t, r, approve))
  {
    var t' := Decided(t, r, approve);
    if t' != t {
      LatestApprovalOf(t.approvals, r);
      forall id: string { LatestApprovalUpdate(t.approvals, r, Rows.DecisionStatus(approve), id); }
      forall q | 0 <= q < |t'.approvals| ensures Reached(t', t'.approvals[q].key) {
        ReachedStays(t, t', t.approvals[q].key);
      }
      forall k | 0 <= k < |t'.log| ensures Justified(t', t'.log[k]) { assert Justified(t, t.log[k]); }
    }
  }

  lemma DecideInv(c: Protocol, r: nat, approve: bool)
    requires Inv(c)
    ensures Inv(Apply(c, Decide(r, approve)))
  {
    var c' := Apply(c, Decide(r, approve));
    var t, t' := c.tables, c'.tables;
    if t' != t {
      LatestApprovalOf(t.approvals, r);
      DecidedOk(t, r, approve);
      forall id: string { LatestApprovalUpdate(t.approvals, r, Rows.DecisionStatus(approve), id); }
      forall w | w in c'.walkers ensures PcOk(t', c'.walkers[w].pc) { assert PcOk(t, c.walkers[w].pc); }
      assert InFlight(c') == InFlight(c);
    }
  }

  lemma BeginInv(c: Protocol, w: nat, config: Config)
    requires Inv(c)
    ensures Inv(Apply(c, Begin(w, config)))
  {
    var c' := Apply(c, Begin(w, config));
    forall v | v in c'.walkers ensures PcOk(c'.tables, c'.walkers[v].pc) {
      assert v != w ==> PcOk(c.tables, c.walkers[v].pc);
    }
    assert InFlight(c') == InFlight(c);
  }

  /** Every step of a walker: where the walker and the tables end up, and what becomes of the lock. */
  lemma StepInv(c: Protocol, w: nat, tables: Tables, pc: Pc, lost: seq<string>)
    requires Inv(c) && w in c.walkers && c.lock in {None, Some(w)}
    requires TablesOk(tables) && PcOk(tables, pc) && |c.tables.results| <= |tables.results|
    requires var c' := Protocol(tables, if InTransaction(pc) then Some(w) else None,
                                c.walkers[w := c.walkers[w].(pc := pc)], lost);
             Conserved(c')
    ensures Inv(Protocol(tables, if InTransaction(pc) then Some(w) else None,
                         c.walkers[w := c.walkers[w].(pc := pc)], lost))
  {
    var c' := Protocol(tables, if InTransaction(pc) then Some(w) else None,
                       c.walkers[w := c.walkers[w].(pc := pc)], lost);
    forall v | v in c'.walkers ensures PcOk(c'.tables, c'.walkers[v].pc) {
      if v != w {
        assert !InTransaction(c.walkers[v].pc);
        OutsideStaysOk(c.tables, tables, c.walkers[v].pc);
      }
    }
  }

  /** What inspection finds for a call at or below the first unresolved one. */
  lemma FrontierHasNoResult(t: Tables)
    requires TablesOk(t) && |t.results| < |t.calls|
    ensures !HasResult(t, t.calls[|t.results|].id)
  {
    forall j | 0 <= j < |t.results| ensures t.results[j].callId != t.calls[|t.results|].id {
      assert Ids(t.calls)[j] != Ids(t.calls)[|t.results|];
    }
  }

  lemma InspectFacts(t: Tables, config: Config, i: nat, policies: Policies)
    requires TablesOk(t) && i <= |t.results| && i < |t.calls|
    ensures var found := Inspect(t, config, t.calls[i], policies);
            && (found.AlreadyResolved? <==> i < |t.results|)
            && (found.Run? ==> PcOk(t, Running(i, found.why)))
            && (found.Record? ==> AtFrontier(t, i))
            && (found.Unasked? ==> PcOk(t, Asking(i)))
  {
    var call := t.calls[i];
    var found := Inspect(t, config, call, policies);
    if i < |t.results| {
      assert t.results[i].callId == call.id;
    } else {
      FrontierHasNoResult(t);
    }
    if found.Run? && found.why.ByGate? {
      Gates.UnattendedIffGatesExecute(found.why.gate);
    }
  }

  lemma LookInv(c: Protocol, w: nat, policies: Policies)
    requires Inv(c) && w in c.walkers && c.walkers[w].pc.Holding?
    ensures Inv(Apply(c, Look(w, policies)))
  {
    var c' := Apply(c, Look(w, policies));
    assert PcOk(c.tables, c.walkers[w].pc);
    InspectFacts(c.tables, c.walkers[w].config, c.walkers[w].pc.i, policies);
    assert InFlight(c) == [] == InFlight(c');
    StepInv(c, w, c.tables, c'.walkers[w].pc, c.lost);
  }

  lemma ExecuteConserves(c: Protocol, w: nat, e: Event)
    requires Inv(c) && w in c.walkers && c.walkers[w].pc.Running?
    requires e.Execute? || e.ExecuteRaises?
    requires e.w == w
    ensures Conserved(Apply(c, e))
  {
    var c' := Apply(c, e);
    assert PcOk(c.tables, c.walkers[w].pc);
    var id := c.tables.calls[c.walkers[w].pc.i].id;
    assert LoggedKeys(c'.tables.log) == LoggedKeys(c.tables.log) + [id];
    assert InFlight(c) == [];
    if e.Execute? {
      assert c'.lost == c.lost && InFlight(c') == [] + [id];
    } else {
      assert c'.lost == c.lost + [id] && InFlight(c') == [];
    }
    forall x: string
      ensures Count(LoggedKeys(c'.tables.log), x) ==
              Count(OutputIds(c'.tables.results), x) + Count(InFlight(c'), x) + Count(c'.lost, x)
    {
      CountAppend(LoggedKeys(c.tables.log), id, x);
      CountAppend(if e.Execute? then [] else c.lost, id, x);
    }
  }

  lemma ExecuteInv(c: Protocol, w: nat, e: Event)
    requires Inv(c) && w in c.walkers && c.walkers[w].pc.Running?
    requires e.Execute? || e.ExecuteRaises?
    requires e.w == w
    ensures Inv(Apply(c, e))
  {
    var pc := c.walkers[w].pc;
    var c' := Apply(c, e);
    assert PcOk(c.tables, pc);
    LogRunOk(c.tables, c.tables.calls[pc.i].id, pc.why);
    ExecuteConserves(c, w, e);
    StepInv(c, w, c'.tables, c'.walkers[w].pc, c'.lost);
  }

  lemma CommitInv(c: Protocol, w: nat)
    requires Inv(c) && w in c.walkers && (c.walkers[w].pc.Saving? || c.walkers[w].pc.Asking?)
    ensures Inv(Apply(c, Commit(w)))
  {
    var pc := c.walkers[w].pc;
    var t := c.tables;
    var id := t.calls[pc.i].id;
    var c' := Apply(c, Commit(w));
    assert PcOk(t, pc);
    assert InFlight(c') == [];
    if pc.Saving? {
      StoreOk(t, pc.i, pc.content);
      assert c'.tables.results[..|t.results|] == t.results;
      forall x: string
        ensures Count(LoggedKeys(c'.tables.log), x) ==
                Count(OutputIds(c'.tables.results), x) + Count(InFlight(c'), x) + Count(c'.lost, x)
      {
        CountConcat(OutputIds(t.results), if pc.content.Output? then [id] else [], x);
        assert InFlight(c) == if pc.content.Output? then [id] else [];
      }
    } else {
      RequestOk(t, pc.i);
      assert InFlight(c) == [];
    }
    StepInv(c, w, c'.tables, c'.walkers[w].pc, c'.lost);
  }

  lemma CrashInv(c: Protocol, w: nat)
    requires Inv(c) && w in c.walkers && InTransaction(c.walkers[w].pc)
    ensures Inv(Apply(c, Crash(w)))
  {
    var pc := c.walkers[w].pc;
    var c' := Apply(c, Crash(w));
    assert PcOk(c.tables, pc);
    assert InFlight(c') == [];
    forall x: string
      ensures Count(LoggedKeys(c'.tables.log), x) ==
              Count(OutputIds(c'.tables.results), x) + Count(InFlight(c'), x) + Count(c'.lost, x)
    {
      CountConcat(c.lost, InFlight(c), x);
      assert c.lost + InFlight(c) == c'.lost;
    }
    StepInv(c, w, c'.tables, c'.walkers[w].pc, c'.lost);
  }

  lemma AcquireInv(c: Protocol, w: nat)
    requires Inv(c) && w in c.walkers && c.walkers[w].pc.Ready?
    ensures Inv(Apply(c, Acquire(w)))
  {
    var c' := Apply(c, Acquire(w));
    if c' != c {
      assert PcOk(c.tables, c.walkers[w].pc);
      assert InFlight(c) == [] == InFlight(c');
      StepInv(c, w, c.tables, c'.walkers[w].pc, c.lost);
    }
  }

  lemma ApplyInv(c: Protocol, e: Event)
    requires Inv(c)
    ensures Inv(Apply(c, e))
  {
    if e.Begin? {
      BeginInv(c, e.w, e.config);
    } else if e.Decide? {
      DecideInv(c, e.r, e.approve);
    } else if e.w in c.walkers && Apply(c, e) != c {
      if e.Execute? || e.ExecuteRaises? {
        ExecuteInv(c, e.w, e);
      } else {
        WalkerInv(c, e);
      }
    }
  }

  lemma WalkerInv(c: Protocol, e: Event)
    requires Inv(c) && (e.Acquire? || e.Look? || e.Commit? || e.Crash?) && e.w in c.walkers && Apply(c, e) != c
    ensures Inv(Apply(c, e))
  {
    match e
    case Acquire(w) => AcquireInv(c, w);
    case Look(w, policies) => LookInv(c, w, policies);
    case Commit(w) => CommitInv(c, w);
    case Crash(w) => CrashInv(c, w);
  }

  lemma {:induction false} RunInv(c: Protocol, events: seq<Event>)
    requires Inv(c)
    ensures Inv(RunAll(c, events))
  {
    if events != [] {
      RunInv(c, events[..|events| - 1]);
      ApplyInv(RunAll(c, events[..|events| - 1]), events[|events| - 1]);
    }
  }

  // ---------------------------------------------------------------- main results: every interleaving

  ghost predicate OneInside(walkers: map<nat, Walker>) {
    forall w, v :: w in walkers && v in walkers && InTransaction(walkers[w].pc) && InTransaction(walkers[v].pc)
      ==> w == v
  }

  /**
    Whatever walkers, crashes and decisions interleave: the stored results answer a prefix of the
    calls, in call order and once each; each call has at most one approval row and a pending one
    belongs to the first unresolved call; one walker at most is inside a transaction; every
    execution was approved by a person or passes the gate without one.
   */
  lemma ProtocolIsSafe(calls: seq<ToolCall>, events: seq<Event>)
    requires Distinct(Ids(calls))
    ensures var c := RunAll(Fresh(calls), events);
            && TablesOk(c.tables)
            && OneInside(c.walkers)
  {
    FreshInv(calls);
    RunInv(Fresh(calls), events);
  }

  lemma {:induction false} OutputsAreStored(t: Tables, id: string)
    requires |t.results| <= |t.calls|
    requires forall j :: 0 <= j < |t.results| ==> t.results[j].callId == t.calls[j].id
    ensures Count(OutputIds(t.results), id) <= Count(Ids(t.calls[..|t.results|]), id)
    decreases |t.results|
  {
    if t.results != [] {
      var n := |t.results| - 1;
      var earlier := t.(results := t.results[..n]);
      OutputsAreStored(earlier, id);
      assert Ids(t.calls[..n + 1]) == Ids(t.calls[..n]) + [t.results[n].callId];
      CountAppend(Ids(t.calls[..n]), t.results[n].callId, id);
      CountAppend(OutputIds(t.results[..n]), t.results[n].callId, id);
      assert OutputIds(t.results[..n]) + [] == OutputIds(t.results[..n]);
    }
  }

  lemma PrefixIdsDistinct(calls: seq<ToolCall>, n: nat)
    requires Distinct(Ids(calls)) && n <= |calls|
    ensures Distinct(Ids(calls[..n]))
  {
    assert Ids(calls[..n]) == Ids(calls)[..n];
  }

  /** What is stored and what is in flight together concern a call at most once. */
  lemma StoredOrInFlight(c: Protocol, id: string)
    requires Inv(c)
    ensures Count(OutputIds(c.tables.results), id) + Count(InFlight(c), id) <= 1
  {
    var t := c.tables;
    OutputsAreStored(t, id);
    if InFlight(c) == [] {
      OncePerPrefix(t.calls, |t.results|, id);
    } else {
      assert PcOk(t, c.walkers[c.lock.value].pc);
      NextCallIsNew(t.calls, |t.results|, id);
      assert InFlight(c) == [t.calls[|t.results|].id];
    }
  }

  lemma OncePerPrefix(calls: seq<ToolCall>, n: nat, id: string)
    requires Distinct(Ids(calls)) && n <= |calls|
    ensures Count(Ids(calls[..n]), id) <= 1
  {
    PrefixIdsDistinct(calls, n);
    CountDistinct(Ids(calls[..n]), id);
  }

  lemma NextCallIsNew(calls: seq<ToolCall>, n: nat, id: string)
    requires Distinct(Ids(calls)) && n < |calls|
    ensures Count(Ids(calls[..n]), id) + Count([calls[n].id], id) <= 1
  {
    OncePerPrefix(calls, n + 1, id);
    assert Ids(calls[..n + 1]) == Ids(calls[..n]) + [calls[n].id];
    CountConcat(Ids(calls[..n]), [calls[n].id], id);
  }

  /**
    Conservation and at-most-once: a call runs once more than its executions were lost in crashes,
    at the very most; it runs at most once exactly when no execution was lost, or one was and none has
    survived since.
   */
  lemma ExecutedOnceUnlessLost(calls: seq<ToolCall>, events: seq<Event>, id: string)
    requires Distinct(Ids(calls))
    ensures var c := RunAll(Fresh(calls), events);
            var ran, lost := Count(LoggedKeys(c.tables.log), id), Count(c.lost, id);
            && lost <= ran <= 1 + lost
            && (ran == 1 + lost <==> id in OutputIds(c.tables.results) || id in InFlight(c))
            && (ran <= 1 <==> lost == 0 || (lost == 1 && id !in OutputIds(c.tables.results) && id !in InFlight(c)))
  {
    FreshInv(calls);
    RunInv(Fresh(calls), events);
    var c := RunAll(Fresh(calls), events);
    StoredOrInFlight(c, id);
    CountPositive(OutputIds(c.tables.results), id);
    CountPositive(InFlight(c), id);
  }

  lemma {:induction false} NothingLostWithoutCrash(calls: seq<ToolCall>, events: seq<Event>)
    requires forall k :: 0 <= k < |events| ==> !events[k].Crash? && !events[k].ExecuteRaises?
    ensures RunAll(Fresh(calls), events).lost == []
  {
    if events != [] {
      NothingLostWithoutCrash(calls, events[..|events| - 1]);
      assert !events[|events| - 1].Crash? && !events[|events| - 1].ExecuteRaises?;
    }
  }

  /** With no transaction dying, every call of the message executes at most once. */
  lemma AtMostOnceWithoutCrash(calls: seq<ToolCall>, events: seq<Event>, id: string)
    requires Distinct(Ids(calls))
    requires forall k :: 0 <= k < |events| ==> !events[k].Crash? && !events[k].ExecuteRaises?
    ensures Count(LoggedKeys(RunAll(Fresh(calls), events).tables.log), id) <= 1
  {
    NothingLostWithoutCrash(calls, events);
    ExecutedOnceUnlessLost(calls, events, id);
  }

  /** A walker that dies after executing and before committing. */
  function CrashedAttempt(config: Config, policies: Policies): seq<Event> {
    [Begin(0, config), Acquire(0), Look(0, policies), Execute(0, "output"), Crash(0)]
  }

  lemma CrashedAttemptRuns(c: Protocol, config: Config, policies: Policies, why: Why)
    requires c.lock.None? && (0 in c.walkers ==> c.walkers[0].pc.Stopped?)
    requires c.tables.calls != [] && Inspect(c.tables, config, c.tables.calls[0], policies) == Run(why)
    ensures var id := c.tables.calls[0].id;
            RunAll(c, CrashedAttempt(config, policies)) ==
            Protocol(LogRun(c.tables, id, why), None, c.walkers[0 := Walker(config, Stopped)], c.lost + [id])
  {
    var first := [Begin(0, config), Acquire(0), Look(0, policies), Execute(0, "output")];
    FoldFour(Apply, c, first[0], first[1], first[2], first[3]);
    BeginsRunning(c, config, policies, why);
    RunsAndCrashes(c, config, why);
    FoldAppend(Apply, c, first, Crash(0));
    assert first + [Crash(0)] == CrashedAttempt(config, policies);
  }

  lemma RunsAndCrashes(c: Protocol, config: Config, why: Why)
    requires c.tables.calls != []
    ensures var running := c.(walkers := c.walkers[0 := Walker(config, Running(0, why))], lock := Some(0));
            var id := c.tables.calls[0].id;
            Apply(Apply(running, Execute(0, "output")), Crash(0)) ==
            Protocol(LogRun(c.tables, id, why), None, c.walkers[0 := Walker(config, Stopped)], c.lost + [id])
  {
    var running := c.(walkers := c.walkers[0 := Walker(config, Running(0, why))], lock := Some(0));
    var executed := Apply(running, Execute(0, "output"));
    assert executed.tables == LogRun(c.tables, c.tables.calls[0].id, why);
    assert Apply(executed, Crash(0)).walkers == c.walkers[0 := Walker(config, Stopped)];
  }

  lemma BeginsRunning(c: Protocol, config: Config, policies: Policies, why: Why)
    requires c.lock.None? && (0 in c.walkers ==> c.walkers[0].pc.Stopped?)
    requires c.tables.calls != [] && Inspect(c.tables, config, c.tables.calls[0], policies) == Run(why)
    ensures Apply(Apply(Apply(c, Begin(0, config)), Acquire(0)), Look(0, policies)) ==
            c.(walkers := c.walkers[0 := Walker(config, Running(0, why))], lock := Some(0))
  {
    var begun := c.(walkers := c.walkers[0 := Walker(config, Ready(0))]);
    assert Apply(c, Begin(0, config)) == begun;
    var held := begun.(walkers := c.walkers[0 := Walker(config, Holding(0))], lock := Some(0));
    assert Apply(begun, Acquire(0)) == held by {
      assert held.walkers == begun.walkers[0 := Walker(config, Holding(0))];
    }
    assert Apply(held, Look(0, policies)).walkers == c.walkers[0 := Walker(config, Running(0, why))];
  }

  /** With crashes the guarantee is false: a transaction that dies at the wrong time lets its call run again. */
  lemma CrashAfterExecutionRunsTwice()
    ensures exists calls, events ::
              && Distinct(Ids(calls))
              && Count(LoggedKeys(RunAll(Fresh(calls), events).tables.log), "a") == 2
  {
    var calls := [ToolCall("a", "search", "")];
    var config, policies := Config(map["search" := "safe"], map["safe" := "auto"], map[]), Policies(Gates.Allow, false);
    var c, attempt := Fresh(calls), CrashedAttempt(config, policies);
    RunsTwice(config, policies, ByGate(GateInputOf(config, "search", policies)));
    assert |Ids(calls)| == 1;
    assert Count(LoggedKeys(RunAll(c, attempt + attempt).tables.log), "a") == 2;
  }

  lemma RunsTwice(config: Config, policies: Policies, why: Why)
    requires Inspect(Fresh([ToolCall("a", "search", "")]).tables, config, ToolCall("a", "search", ""), policies)
             == Run(why)
    ensures var attempt := CrashedAttempt(config, policies);
            Count(LoggedKeys(RunAll(Fresh([ToolCall("a", "search", "")]), attempt + attempt).tables.log), "a") == 2
  {
    var c, attempt := Fresh([ToolCall("a", "search", "")]), CrashedAttempt(config, policies);
    CrashedAttemptRuns(c, config, policies, why);
    CrashedAttemptRuns(RunAll(c, attempt), config, policies, why);
    FoldConcat(Apply, c, attempt, attempt);
    assert LoggedKeys(RunAll(c, attempt + attempt).tables.log) == ["a"] + ["a"];
    CountAppend(["a"], "a", "a");
    assert Count(["a"], "a") == 1;
  }

  lemma DenialHolds(c: Protocol, e: Event, id: string)
    requires Inv(c) && TurnedDown(LatestApproval(c.tables.approvals, id))
    ensures TurnedDown(LatestApproval(Apply(c, e).tables.approvals, id))
    ensures Count(LoggedKeys(Apply(c, e).tables.log), id) == Count(LoggedKeys(c.tables.log), id)
  {
    var c' := Apply(c, e);
    if e.Decide? {
      if c' != c {
        LatestApprovalOf(c.tables.approvals, e.r);
        LatestApprovalUpdate(c.tables.approvals, e.r, Rows.DecisionStatus(e.approve), id);
      }
    } else if !e.Begin? && e.w in c.walkers {
      assert PcOk(c.tables, c.walkers[e.w].pc);
      DenialHoldsForWalker(c, e.w, e, id);
    }
  }

  lemma DenialHoldsForWalker(c: Protocol, w: nat, e: Event, id: string)
    requires w in c.walkers && PcOk(c.tables, c.walkers[w].pc) && TurnedDown(LatestApproval(c.tables.approvals, id))
    ensures var c' := Advance(c, w, c.walkers[w], e);
            && TurnedDown(LatestApproval(c'.tables.approvals, id))
            && Count(LoggedKeys(c'.tables.log), id) == Count(LoggedKeys(c.tables.log), id)
  {
    var pc := c.walkers[w].pc;
    if pc.Running? {
      var other := c.tables.calls[pc.i].id;
      assert LoggedKeys(LogRun(c.tables, other, pc.why).log) == LoggedKeys(c.tables.log) + [other];
      CountAppend(LoggedKeys(c.tables.log), other, id);
    } else if pc.Asking? {
      LatestApprovalAppend(c.tables.approvals, ApprovalRow(c.tables.calls[pc.i].id, Rows.AwaitingDecision), id);
    }
  }

  /** A denial is final: from then on the call is never executed again, however the run goes on. */
  lemma {:induction false} DeniedNeverExecutesLater(calls: seq<ToolCall>, before: seq<Event>, after: seq<Event>,
                                                    id: string)
    requires Distinct(Ids(calls)) && TurnedDown(LatestApproval(RunAll(Fresh(calls), before).tables.approvals, id))
    ensures var c := RunAll(Fresh(calls), before);
            && TurnedDown(LatestApproval(RunAll(c, after).tables.approvals, id))
            && Count(LoggedKeys(RunAll(c, after).tables.log), id) == Count(LoggedKeys(c.tables.log), id)
  {
    if after != [] {
      var c := RunAll(Fresh(calls), before);
      var earlier := after[..|after| - 1];
      DeniedNeverExecutesLater(calls, before, earlier, id);
      assert Inv(RunAll(c, earlier)) by {
        FreshInv(calls);
        RunInv(Fresh(calls), before);
        RunInv(c, earlier);
      }
      DenialHolds(RunAll(c, earlier), after[|after| - 1], id);
    }
  }

  // ---------------------------------------------------------------- one walker, start to end

  datatype Outcome = Skipped | Resolved | Blocked

  /** `_resolve_one_tool_call`: one transaction, seen from outside. */
  function Resolve(t: Tables, config: Config, call: ToolCall, policies: Policies, output: string): (Tables, Outcome) {
    match Inspect(t, config, call, policies)
    case AlreadyResolved => (t, Skipped)
    case Waiting => (t, Blocked)
    case Run(why) => (Store(LogRun(t, call.id, why), call.id, Output(output)), Resolved)
    case Record(content) => (Store(t, call.id, content), Resolved)
    case Unasked => (Request(t, call.id), Blocked)
  }

  /** The transaction is the protocol's own steps: taken alone they have exactly the outside view's effect. */
  lemma ResolveIsAtomic(c: Protocol, w: nat, policies: Policies, output: string)
    requires w in c.walkers && c.walkers[w].pc.Ready? && c.lock.None?
    requires c.walkers[w].pc.i < |c.tables.calls|
    ensures var i := c.walkers[w].pc.i;
            var (t', outcome) := Resolve(c.tables, c.walkers[w].config, c.tables.calls[i], policies, output);
            RunAll(c, [Acquire(w), Look(w, policies), Execute(w, output), Commit(w)]) ==
            Release(c, w, if outcome.Blocked? then Stopped else Ready(i + 1)).(tables := t')
  {
    FoldFour(Apply, c, Acquire(w), Look(w, policies), Execute(w, output), Commit(w));
    var i, config := c.walkers[w].pc.i, c.walkers[w].config;
    var held := Move(c, w, Holding(i)).(lock := Some(w));
    assert Apply(c, Acquire(w)) == held;
    var looked := AfterLook(held, w, i, Inspect(c.tables, config, c.tables.calls[i], policies));
    assert Apply(held, Look(w, policies)) == looked;
    RestOfTransaction(held, w, i, policies, output);
    var outcome := Resolve(c.tables, config, c.tables.calls[i], policies, output).1;
    ReleaseForgetsMove(c, w, Holding(i), if outcome.Blocked? then Stopped else Ready(i + 1));
  }

  lemma RestOfTransaction(c: Protocol, w: nat, i: nat, policies: Policies, output: string)
    requires w in c.walkers && c.walkers[w].pc == Holding(i) && i < |c.tables.calls|
    ensures var config := c.walkers[w].config;
            var found := Inspect(c.tables, config, c.tables.calls[i], policies);
            var (t', outcome) := Resolve(c.tables, config, c.tables.calls[i], policies, output);
            Apply(Apply(AfterLook(c, w, i, found), Execute(w, output)), Commit(w)) ==
            Release(c, w, if outcome.Blocked? then Stopped else Ready(i + 1)).(tables := t')
  {
    var found := Inspect(c.tables, c.walkers[w].config, c.tables.calls[i], policies);
    var looked := AfterLook(c, w, i, found);
    if found.AlreadyResolved? || found.Waiting? {
      assert Apply(looked, Execute(w, output)) == looked;
    } else if !found.Run? {
      assert Apply(looked, Execute(w, output)) == looked;
    }
  }

  lemma ReleaseForgetsMove(c: Protocol, w: nat, pc: Pc, pc': Pc)
    requires w in c.walkers
    ensures Release(Move(c, w, pc).(lock := Some(w)), w, pc') == Release(c, w, pc')
  {
    assert c.walkers[w := c.walkers[w].(pc := pc)][w := c.walkers[w].(pc := pc')]
           == c.walkers[w := c.walkers[w].(pc := pc')];
  }

  /** `_advance_message_tool_calls` from call `i` on. */
  function Walk(t: Tables, config: Config, i: nat, policies: nat -> Policies, output: nat -> string): Tables
    decreases |t.calls| - i
  {
    if i >= |t.calls| then t
    else
      var (t', outcome) := Resolve(t, config, t.calls[i], policies(i), output(i));
      if outcome == Blocked then t' else Walk(t', config, i + 1, policies, output)
  }

  lemma ResolveFacts(t: Tables, config: Config, i: nat, policies: Policies, output: string)
    requires TablesOk(t) && i <= |t.results| && i < |t.calls|
    ensures var (t', outcome) := Resolve(t, config, t.calls[i], policies, output);
            && TablesOk(t') && t'.calls == t.calls
            && match outcome
               case Skipped => i < |t.results| && t' == t
               case Resolved => i == |t.results| && |t'.results| == i + 1
               case Blocked =>
                 && i == |t.results| == |t'.results|
                 && LatestApproval(t'.approvals, t.calls[i].id) == Some(Rows.AwaitingDecision)
  {
    var id := t.calls[i].id;
    InspectFacts(t, config, i, policies);
    match Inspect(t, config, t.calls[i], policies)
    case AlreadyResolved =>
    case Waiting =>
    case Run(why) =>
      LogRunOk(t, id, why);
      StoreOk(LogRun(t, id, why), i, Output(output));
    case Record(content) => StoreOk(t, i, content);
    case Unasked =>
      RequestOk(t, i);
      LatestApprovalAppend(t.approvals, ApprovalRow(id, Rows.AwaitingDecision), id);
  }

  /**
    A walk resolves whatever prefix can be resolved now: it ends with every call resolved, or in
    front of a call that a person has yet to decide.
   */
  lemma {:induction false} WalkResolvesWhatItCan(t: Tables, config: Config, i: nat, policies: nat -> Policies,
                                                 output: nat -> string)
    requires TablesOk(t) && i <= |t.results|
    ensures var t' := Walk(t, config, i, policies, output);
            && TablesOk(t') && t'.calls == t.calls && |t.results| <= |t'.results|
            && (|t'.results| < |t.calls| ==>
                  LatestApproval(t'.approvals, t.calls[|t'.results|].id) == Some(Rows.AwaitingDecision))
    decreases |t.calls| - i
  {
    if i < |t.calls| {
      ResolveFacts(t, config, i, policies(i), output(i));
      var (t', outcome) := Resolve(t, config, t.calls[i], policies(i), output(i));
      if outcome != Blocked {
        WalkResolvesWhatItCan(t', config, i + 1, policies, output);
      }
    }
  }

  /**
    A deny rule stops every call but an approved one: while the rule is in force a transaction adds to the
    history exactly when the call has no result yet and a person has approved it.
   */
  lemma OnlyApprovalOutranksDenial(t: Tables, config: Config, call: ToolCall, policies: Policies, output: string)
    requires policies.org == Gates.Deny
    ensures |Resolve(t, config, call, policies, output).0.log| > |t.log| <==>
            !HasResult(t, call.id) && LatestApproval(t.approvals, call.id) == Some(Rows.Approved)
  {
    if call.name in config.tools {
      Gates.RefusedIffRuleDenies(GateInputOf(config, call.name, policies), false);
    }
  }

  /** On an approved call of an attached tool chat and the task engine agree exactly when no rule denies it. */
  lemma EnginesAgreeOnApprovedIff(t: Tables, config: Config, call: ToolCall, policies: Policies)
    requires !HasResult(t, call.id) && LatestApproval(t.approvals, call.id) == Some(Rows.Approved)
    requires call.name in config.tools
    ensures var taskRuns := Gates.TaskVerdict(GateInputOf(config, call.name, policies), true) == Gates.Execute;
            Inspect(t, config, call, policies).Run? == taskRuns <==> policies.org != Gates.Deny
  {
    Gates.RefusedIffRuleDenies(GateInputOf(config, call.name, policies), true);
  }

  lemma UnresolvedIffShort(t: Tables)
    requires TablesOk(t)
    ensures HasUnresolved(t) <==> |t.results| < |t.calls|
  {
    var n := |t.results|;
    if n < |t.calls| {
      FrontierHasNoResult(t);
    } else {
      forall i | 0 <= i < |t.calls| ensures HasResult(t, t.calls[i].id) {
        assert t.results[i].callId == t.calls[i].id;
      }
    }
  }

  /** A single call that someone is asked about is unresolved. */
  lemma AskedOk(call: ToolCall)
    ensures var t := Request(Fresh([call]).tables, call.id);
            TablesOk(t) && HasUnresolved(t)
  {
    var t := Fresh([call]).tables;
    assert |Ids([call])| == 1;
    FreshInv([call]);
    RequestOk(t, 0);
    UnresolvedIffShort(Request(t, call.id));
  }

  lemma {:induction false} WalkStuck(t: Tables, config: Config, i: nat, policies: nat -> Policies,
                                     output: nat -> string)
    requires TablesOk(t) && i <= |t.results|
    requires |t.results| < |t.calls| ==>
               LatestApproval(t.approvals, t.calls[|t.results|].id) == Some(Rows.AwaitingDecision)
    ensures Walk(t, config, i, policies, output) == t
    decreases |t.calls| - i
  {
    if i < |t.calls| {
      InspectFacts(t, config, i, policies(i));
      if i < |t.results| {
        WalkStuck(t, config, i + 1, policies, output);
      }
    }
  }

  /** Idempotent by construction: with no decision in between, a second walk changes nothing at all. */
  lemma SecondWalkChangesNothing(t: Tables, config: Config, policies: nat -> Policies, output: nat -> string,
                                 config': Config, policies': nat -> Policies, output': nat -> string)
    requires TablesOk(t)
    ensures var t' := Walk(t, config, 0, policies, output);
            Walk(t', config', 0, policies', output') == t'
  {
    WalkResolvesWhatItCan(t, config, 0, policies, output);
    WalkStuck(Walk(t, config, 0, policies, output), config', 0, policies', output');
  }

  /** An assistant message with its rows; `log` is the history of tool executions. */
  class AssistantTurn {
    const calls: seq<ToolCall>
    var results: seq<ResultRow>
    var approvals: seq<ApprovalRow<string>>
    ghost var log: seq<Execution<string>>

    ghost function Snapshot(): Tables
      reads this
    {
      Tables(calls, results, approvals, log)
    }

    constructor (calls: seq<ToolCall>)
      ensures Snapshot() == Fresh(calls).tables
    {
      this.calls := calls;
      results, approvals, log := [], [], [];
    }

    method StoreToolResult(callId: string, content: Content)
      modifies this`results
      ensures Snapshot() == Store(old(Snapshot()), callId, content)
    {
      results := results + [ResultRow(callId, content)];
    }

    method ResolveOneToolCall(config: Config, call: ToolCall, policies: Policies, output: string)
        returns (outcome: Outcome)
      modifies this
      ensures (Snapshot(), outcome) == Resolve(old(Snapshot()), config, call, policies, output)
    {
      if Stored(results, call.id) {
        return Skipped;
      }
      var existing := LatestApproval(approvals, call.id);
      if existing.Some? {
        if existing.value == Rows.AwaitingDecision {
          return Blocked;
        }
        if existing.value == Rows.Approved {
          log := log + [Execution(call.id, ByApproval)];
          StoreToolResult(call.id, Output(output));
        } else {
          StoreToolResult(call.id, DeniedByPerson);
        }
        return Resolved;
      }
      if call.name !in config.tools {
        StoreToolResult(call.id, NotAttached);
        return Resolved;
      }
      if policies.org == Gates.Deny {
        StoreToolResult(call.id, DeniedByPolicy);
        return Resolved;
      }
      var gate := GateInputOf(config, call.name, policies);
      var decision := Gates.ResolveToolPermission(gate.risk, gate.profile, gate.floor);
      if policies.org == Gates.RequireApproval {
        decision := Gates.Approval;
      } else if decision == Gates.Approval && !Gates.FloorForces(gate) && policies.standing {
        decision := Gates.Auto;
      }
      if decision == Gates.Approval {
        approvals := approvals + [ApprovalRow(call.id, Rows.AwaitingDecision)];
        return Blocked;
      }
      log := log + [Execution(call.id, ByGate(gate))];
      StoreToolResult(call.id, Output(output));
      return Resolved;
    }

    method AdvanceMessageToolCalls(config: Config, policies: nat -> Policies, output: nat -> string)
      modifies this
      ensures Snapshot() == Walk(old(Snapshot()), config, 0, policies, output)
    {
      for i := 0 to |calls|
        invariant Walk(Snapshot(), config, i, policies, output) == Walk(old(Snapshot()), config, 0, policies, output)
      {
        var outcome := ResolveOneToolCall(config, calls[i], policies(i), output(i));
        if outcome == Blocked {
          return;
        }
      }
    }
  }
}
