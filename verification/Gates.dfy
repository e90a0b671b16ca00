/**
  The permission gates of the chat orchestrator, the background task engine and the workflow
  engine: organization rules, permission profiles, organization floors and standing approval
  policies.
 */
module Gates {
  import opened Base

  datatype Decision = Auto | Approval

  datatype Effect = Allow | Deny | RequireApproval

  /** What a gate does with a call of an attached tool that has no approval row yet. */
  datatype Verdict = Execute | Ask | Refuse

  function Strictness(v: Verdict): nat {
    match v
    case Execute => 0
    case Ask => 1
    case Refuse => 2
  }

  /** What a gate sees of one call: `org` and `standing` are the answers of the two resolvers. */
  datatype GateInput = GateInput(
    risk: string,
    profile: map<string, string>,
    floor: map<string, string>,
    org: Effect,
    standing: bool)

  function Lookup(m: map<string, string>, key: string, default: string): string {
    if key in m then m[key] else default
  }

  /** `resolve_tool_permission`. */
  function ResolveToolPermission(risk: string, profile: map<string, string>, floor: map<string, string>): Decision {
    if risk == "dangerous" then
      Approval
    else if risk !in ["safe", "sensitive"] then
      Approval
    else if Lookup(profile, risk, "approval") != "auto" || Lookup(floor, risk, "auto") != "auto" then
      Approval
    else
      Auto
  }

  /** The floor check of both orchestrators: does an enforced floor cover this risk? */
  predicate FloorForces(g: GateInput) {
    Lookup(g.floor, g.risk, "auto") != "auto"
  }

  /** The chat orchestrator's gate. */
  function ChatVerdict(g: GateInput): Verdict {
    if g.org == Deny then
      Refuse
    else
      var decision := ResolveToolPermission(g.risk, g.profile, g.floor);
      var decision' :=
        if g.org == RequireApproval then Approval
        else if decision == Approval && !FloorForces(g) && g.standing then Auto
        else decision;
      if decision' == Approval then Ask else Execute
  }

  /** The task engine's gate; `approved` says that the call's own approval row is approved. */
  function TaskVerdict(g: GateInput, approved: bool): Verdict {
    if g.org == Deny then
      Refuse
    else
      var decision := ResolveToolPermission(g.risk, g.profile, g.floor);
      var decision' :=
        if g.org == RequireApproval then Approval
        else if decision == Approval && !approved && !FloorForces(g) && g.standing then Auto
        else decision;
      if !approved && decision' == Approval then Ask else Execute
  }

  /** The workflow engine's gate: standing policies are never consulted. */
  function WorkflowVerdict(g: GateInput, hasRow: bool): Verdict {
    if g.org == Deny then
      Refuse
    else
      var decision := ResolveToolPermission(g.risk, g.profile, g.floor);
      var decision' := if g.org == RequireApproval then Approval else decision;
      if decision' == Approval && !hasRow then Ask else Execute
  }

  /** The only ways a call may run without a person having approved that very call. */
  predicate Unattended(g: GateInput) {
    && g.org == Allow
    && (|| (&& g.risk in ["safe", "sensitive"]
            && g.risk in g.profile && g.profile[g.risk] == "auto"
            && (g.risk in g.floor ==> g.floor[g.risk] == "auto"))
        || ((g.risk in g.floor ==> g.floor[g.risk] == "auto") && g.standing))
  }

  lemma UnattendedIffGatesExecute(g: GateInput)
    ensures Unattended(g) <==> ChatVerdict(g) == Execute
    ensures Unattended(g) <==> TaskVerdict(g, false) == Execute
    ensures WorkflowVerdict(g, false) == Execute <==> Unattended(g.(standing := false))
  {
  }

  /** A call is refused exactly under a deny rule, approved or not; an approved call is not asked about again. */
  lemma RefusedIffRuleDenies(g: GateInput, hasRow: bool)
    ensures g.org == Deny <==> ChatVerdict(g) == Refuse
    ensures g.org == Deny <==> TaskVerdict(g, hasRow) == Refuse
    ensures g.org == Deny <==> WorkflowVerdict(g, hasRow) == Refuse
    ensures TaskVerdict(g, true) != Ask && WorkflowVerdict(g, true) != Ask
  {
  }

  lemma GatesAgree(g: GateInput)
    ensures ChatVerdict(g) == TaskVerdict(g, false)
    ensures Strictness(ChatVerdict(g)) <= Strictness(WorkflowVerdict(g, false))
    ensures !g.standing ==> ChatVerdict(g) == WorkflowVerdict(g, false)
  {
  }

  // ---------------------------------------------------------------- organization floors

  datatype FloorRow = FloorRow(risk: string, policy: string, enforced: bool)

  /** The dictionary `get_coworker_config` builds from the workspace's enforced floor rows. */
  function FloorOf(rows: seq<FloorRow>): map<string, string> {
    if rows == [] then map[]
    else
      var last := rows[|rows| - 1];
      var earlier := FloorOf(rows[..|rows| - 1]);
      if last.enforced then earlier[last.risk := last.policy] else earlier
  }

  /** The table's unique constraint: one row per risk tier. */
  ghost predicate OneRowPerRisk(rows: seq<FloorRow>) {
    forall i, j :: 0 <= i < j < |rows| ==> rows[i].risk != rows[j].risk
  }

  lemma {:induction false} FloorLookup(rows: seq<FloorRow>, risk: string)
    requires OneRowPerRisk(rows)
    ensures risk in FloorOf(rows) <==> exists i :: 0 <= i < |rows| && rows[i].risk == risk && rows[i].enforced
    ensures forall i :: 0 <= i < |rows| && rows[i].risk == risk && rows[i].enforced ==>
              risk in FloorOf(rows) && FloorOf(rows)[risk] == rows[i].policy
  {
    if rows != [] {
      var earlier := rows[..|rows| - 1];
      FloorLookup(earlier, risk);
      assert forall i :: 0 <= i < |earlier| ==> rows[i] == earlier[i];
      if risk in FloorOf(earlier) {
        var i :| 0 <= i < |earlier| && earlier[i].risk == risk && earlier[i].enforced;
        assert rows[i].risk == risk;
      }
    }
  }

  lemma WithoutOneRow(before: seq<FloorRow>, row: FloorRow, after: seq<FloorRow>)
    requires OneRowPerRisk(before + [row] + after)
    ensures OneRowPerRisk(before + after)
  {
    var small, big := before + after, before + [row] + after;
    forall i, j | 0 <= i < j < |small| ensures small[i].risk != small[j].risk {
      var i' := if i < |before| then i else i + 1;
      var j' := if j < |before| then j else j + 1;
      assert small[i] == big[i'] && small[j] == big[j'];
    }
  }

  /**
    Inserting a floor row anywhere in the table leaves every other tier's entry alone and sets
    the entry of its own tier exactly when it is enforced.
   */
  lemma InsertFloor(before: seq<FloorRow>, row: FloorRow, after: seq<FloorRow>, risk: string)
    requires OneRowPerRisk(before + [row] + after)
    ensures Lookup(FloorOf(before + [row] + after), risk, "auto") ==
            if row.enforced && row.risk == risk then row.policy else Lookup(FloorOf(before + after), risk, "auto")
    ensures row.risk == risk ==> risk !in FloorOf(before + after)
  {
    var small, big := before + after, before + [row] + after;
    WithoutOneRow(before, row, after);
    FloorLookup(small, risk);
    FloorLookup(big, risk);
    assert big[|before|] == row;
    forall i | 0 <= i < |small| ensures small[i] in big && small[i].risk != row.risk {
      var i' := if i < |before| then i else i + 1;
      assert big[i'] == small[i] && big[i'].risk != big[|before|].risk;
    }
    forall i | 0 <= i < |big| && i != |before| ensures big[i] in small {
      assert big[i] == small[if i < |before| then i else i - 1];
    }
  }

  /** Governance only tightens: one more enforced floor never makes any of the three gates laxer. */
  lemma AddingFloorNeverLoosens(g: GateInput, before: seq<FloorRow>, row: FloorRow, after: seq<FloorRow>, hasRow: bool)
    requires OneRowPerRisk(before + [row] + after)
    ensures var without := g.(floor := FloorOf(before + after));
            var with := g.(floor := FloorOf(before + [row] + after));
            && Strictness(ChatVerdict(without)) <= Strictness(ChatVerdict(with))
            && Strictness(TaskVerdict(without, hasRow)) <= Strictness(TaskVerdict(with, hasRow))
            && Strictness(WorkflowVerdict(without, hasRow)) <= Strictness(WorkflowVerdict(with, hasRow))
  {
    InsertFloor(before, row, after, g.risk);
  }

  // ---------------------------------------------------------------- organization action rules

  datatype Json =
    | Null
    | Bool(b: bool)
    | Number(n: real)
    | Text(s: string)
    | List(items: seq<Json>)
    | Object(members: map<string, Json>)

  datatype Rule = Rule(
    resourceType: string,
    action: string,
    conditions: map<string, Json>,
    effect: Effect,
    enabled: bool)

  predicate RuleApplies(rule: Rule, resourceType: string, action: string, context: map<string, Json>) {
    && rule.enabled
    && rule.resourceType in [resourceType, "*"]
    && rule.action in [action, "*"]
    && forall key <- rule.conditions ::
         rule.conditions[key] == if key in context then context[key] else Null
  }

  /** A context in which every field that is not given reads as null. */
  ghost predicate Widens(wider: map<string, Json>, context: map<string, Json>) {
    && (forall key :: key in context ==> key in wider && wider[key] == context[key])
    && forall key :: key in wider && key !in context ==> wider[key] == Null
  }

  ghost predicate Contained(small: map<string, Json>, big: map<string, Json>) {
    forall key :: key in small ==> key in big && big[key] == small[key]
  }

  /** A rule applies to what it names, or to everything, when its conditions are among the context's fields or null. */
  lemma AppliesIffConditionsHold(rule: Rule, resourceType: string, action: string, context: map<string, Json>)
    ensures RuleApplies(rule, resourceType, action, context) <==>
            && rule.enabled
            && (rule.resourceType == resourceType || rule.resourceType == "*")
            && (rule.action == action || rule.action == "*")
            && exists wider :: Widens(wider, context) && Contained(rule.conditions, wider)
  {
    var wider := map key | key in context.Keys + rule.conditions.Keys :: if key in context then context[key] else Null;
    assert Widens(wider, context);
    if RuleApplies(rule, resourceType, action, context) {
      assert Contained(rule.conditions, wider);
    }
  }

  /** `resolve_org_action_policy`; `rules` come in (priority, created_at) order. */
  method ResolveOrgAction(rules: seq<Rule>, resourceType: string, action: string, context: map<string, Json>)
      returns (effect: Effect)
    ensures (forall i :: 0 <= i < |rules| ==> !RuleApplies(rules[i], resourceType, action, context)) ==> effect == Allow
    ensures forall i :: (&& 0 <= i < |rules| && RuleApplies(rules[i], resourceType, action, context)
                         && forall j :: 0 <= j < i ==> !RuleApplies(rules[j], resourceType, action, context))
                        ==> effect == rules[i].effect
  {
    for k := 0 to |rules|
      invariant forall j :: 0 <= j < k ==> !RuleApplies(rules[j], resourceType, action, context)
    {
      if RuleApplies(rules[k], resourceType, action, context) {
        return rules[k].effect;
      }
    }
    return Allow;
  }

  // ---------------------------------------------------------------- standing approval policies

  /** `path` is the dotted argument path split at its dots; the empty path is a blanket policy. */
  datatype Policy = Policy(
    id: nat,
    coworker: Option<string>,
    enabled: bool,
    path: seq<string>,
    maxAmount: Option<real>)

  /** The value a dotted path addresses in the call's arguments, if every part exists. */
  ghost function Addressed(value: Json, path: seq<string>): Option<Json>
    decreases |path|
  {
    if path == [] then Some(value)
    else if value.Object? && path[0] in value.members then Addressed(value.members[path[0]], path[1..])
    else None
  }

  /** What `Decimal` reads from a number or a text: the two infinities and not-a-number are among its values. */
  datatype Decimal = Finite(value: real) | Infinity | MinusInfinity | NotANumber

  /** `Decimal(str(value))` for a value that is neither null nor a boolean. */
  function Amount(value: Json, parse: string -> Option<Decimal>): Option<Decimal> {
    match value
    case Number(n) => Some(Finite(n))
    case Text(s) => parse(s)
    case _ => None
  }

  /** A policy lets the call run, has nothing to say, or its comparison raises. */
  datatype Ruling = Matches | Passes | Breaks

  function Within(amount: Decimal, limit: real): Ruling {
    match amount
    case Finite(x) => if x <= limit then Matches else Passes
    case Infinity => Passes
    case MinusInfinity => Matches
    case NotANumber => Breaks
  }

  /** Fail closed: a limit matches only an argument that exists, is read as a number and stays at or below it. */
  ghost function RulingOf(p: Policy, coworker: string, arguments: Json, parse: string -> Option<Decimal>): Ruling {
    if !p.enabled || (p.coworker.Some? && p.coworker.value != coworker) then Passes
    else if p.path == [] then Matches
    else if p.maxAmount.None? then Passes
    else
      match Addressed(arguments, p.path)
      case None => Passes
      case Some(value) =>
        match Amount(value, parse)
        case None => Passes
        case Some(amount) => Within(amount, p.maxAmount.value)
  }

  /** The argument a policy's limit is about exists and reads as this amount. */
  ghost predicate LimitSees(p: Policy, arguments: Json, parse: string -> Option<Decimal>, amount: Decimal) {
    && p.path != [] && p.maxAmount.Some? && Addressed(arguments, p.path).Some?
    && match Addressed(arguments, p.path).value
       case Number(n) => amount == Finite(n)
       case Text(s) => parse(s) == Some(amount)
       case _ => false
  }

  /**
    A policy lets a call run exactly when it is enabled, for this coworker or all, and a blanket one or its limit sees
    an amount at or below it, minus infinity among these; it raises exactly when the limit sees not-a-number.
   */
  lemma RulingIff(p: Policy, coworker: string, arguments: Json, parse: string -> Option<Decimal>)
    ensures RulingOf(p, coworker, arguments, parse) == Matches <==>
            && p.enabled && p.coworker in {None, Some(coworker)}
            && (|| p.path == []
                || LimitSees(p, arguments, parse, MinusInfinity)
                || exists x :: LimitSees(p, arguments, parse, Finite(x)) && x <= p.maxAmount.value)
    ensures RulingOf(p, coworker, arguments, parse) == Breaks <==>
            p.enabled && p.coworker in {None, Some(coworker)} && LimitSees(p, arguments, parse, NotANumber)
  {
    assert p.coworker in {None, Some(coworker)} <==> p.coworker.None? || p.coworker.value == coworker;
    if p.path != [] && p.maxAmount.Some? && Addressed(arguments, p.path).Some? {
      var amount := Amount(Addressed(arguments, p.path).value, parse);
      assert forall seen :: LimitSees(p, arguments, parse, seen) <==> amount == Some(seen);
      assert amount.Some? && amount.value.Finite? ==> LimitSees(p, arguments, parse, Finite(amount.value.value));
    }
  }

  datatype Resolution = Found(id: nat) | NoPolicy | Raised

  /** `resolve_approval_policy`: the first policy that does not pass settles it. */
  method ResolveApprovalPolicy(policies: seq<Policy>, coworker: string, arguments: Json,
                               parse: string -> Option<Decimal>)
      returns (r: Resolution)
    ensures r.NoPolicy? ==>
              forall i :: 0 <= i < |policies| ==> RulingOf(policies[i], coworker, arguments, parse).Passes?
    ensures !r.NoPolicy? ==> exists i ::
              && 0 <= i < |policies|
              && (forall j :: 0 <= j < i ==> RulingOf(policies[j], coworker, arguments, parse).Passes?)
              && (if r.Raised? then RulingOf(policies[i], coworker, arguments, parse).Breaks?
                  else RulingOf(policies[i], coworker, arguments, parse).Matches? && policies[i].id == r.id)
  {
    for k := 0 to |policies|
      invariant forall j :: 0 <= j < k ==> RulingOf(policies[j], coworker, arguments, parse).Passes?
    {
      var policy := policies[k];
      if policy.enabled && (policy.coworker.None? || policy.coworker.value == coworker) {
        if policy.path == [] {
          return Found(policy.id);
        }
        if policy.maxAmount.Some? {
          var value := Some(arguments);
          var part := 0;
          while part < |policy.path| && value.Some?
            invariant 0 <= part <= |policy.path|
            invariant match value
                      case None => Addressed(arguments, policy.path).None?
                      case Some(v) => Addressed(arguments, policy.path) == Addressed(v, policy.path[part..])
            decreases |policy.path| - part, value.Some?
          {
            if value.value.Object? && policy.path[part] in value.value.members {
              value := Some(value.value.members[policy.path[part]]);
              part := part + 1;
            } else {
              value := None;
            }
          }
          if value.Some? && Amount(value.value, parse).Some? {
            var ruling := Within(Amount(value.value, parse).value, policy.maxAmount.value);
            if ruling.Matches? {
              return Found(policy.id);
            }
            if ruling.Breaks? {
              return Raised;
            }
          }
        }
      }
    }
    return NoPolicy;
  }
}
