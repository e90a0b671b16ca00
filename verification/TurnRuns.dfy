/**
  The two views of a chat turn agree: a turn that nothing disturbs is a sequence of its own steps among those of the
  interleaved conversation, and so is a whole conversation whose turns follow one another.
 */
module TurnRuns {
  import opened Base
  import opened ChatTurns
  import opened Interleaving
  import opened Transcript
  import Chat
  import Conversations

  /** The conversation while turn `w`, with the variables `t`, is in this phase; `others` are the turns before it. */
  function Held(others: map<nat, Progress>, sent: seq<Sent>, w: nat, t: State, phase: Phase): Conv {
    Conv(t.rows, others[w := Progress(t.view, phase)], sent + t.asked)
  }

  lemma Moves(others: map<nat, Progress>, sent: seq<Sent>, w: nat, t: State, phase: Phase, phase': Phase)
    ensures MoveTo(Held(others, sent, w, t, phase), w, phase') == Held(others, sent, w, t, phase')
  {
    assert others[w := Progress(t.view, phase)][w := Progress(t.view, phase')] == others[w := Progress(t.view, phase')];
  }

  // ---------------------------------------------------------------- walking one message

  /** The steps that walk the calls from number `c` on. */
  function Calls(env: Env, k: nat, w: nat, c: nat, n: nat): seq<Event>
    decreases n - c
  {
    if c >= n then [] else [WalkCall(w, env.config, env.policies(k)(c), env.output(k)(c))] + Calls(env, k, w, c + 1, n)
  }

  lemma RunFirst(s: Conv, e: Event, rest: seq<Event>)
    ensures Run(s, [e] + rest) == Run(Apply(s, e), rest)
  {
    FoldConcat(Apply, s, [e], rest);
    assert Fold(Apply, s, [e]) == Apply(s, e);
  }

  /** At the end of a walk its steps do nothing more. */
  lemma {:induction false} NothingToWalk(env: Env, k: nat, w: nat, c: nat, n: nat, s: Conv, i: nat)
    requires PhaseOf(s, w) == Walking(i, n) && AtMessage(s, i) && |s.rows[i].tables.calls| == n
    ensures Run(s, Calls(env, k, w, c, n)) == s
    decreases n - c
  {
    if c < n {
      RunFirst(s, WalkCall(w, env.config, env.policies(k)(c), env.output(k)(c)), Calls(env, k, w, c + 1, n));
      NothingToWalk(env, k, w, c + 1, n, s, i);
    }
  }

  lemma StampsTwice(r: Row, t: Chat.Tables, t': Chat.Tables, now: nat)
    requires r.ToolMessage? && |t.results| <= |t'.results|
    ensures WithTables(WithTables(r, t, now), t', now) == WithTables(r, t', now)
  {
  }

  lemma {:induction false} WalkAdds(t: Chat.Tables, config: Chat.Config, c: nat, policies: nat -> Chat.Policies,
                                    output: nat -> string)
    ensures var t' := Chat.Walk(t, config, c, policies, output);
            t'.calls == t.calls && |t.results| <= |t'.results|
    decreases |t.calls| - c
  {
    if c < |t.calls| {
      var (t', outcome) := Chat.Resolve(t, config, t.calls[c], policies(c), output(c));
      if outcome != Chat.Blocked {
        WalkAdds(t', config, c + 1, policies, output);
      }
    }
  }

  /** The variables of a turn once message `i` has the tables `t'`. */
  function Walked(t: State, i: nat, t': Chat.Tables): State
    requires i < |t.rows| && t.rows[i].ToolMessage?
  {
    t.(rows := t.rows[i := WithTables(t.rows[i], t', |t.rows|)])
  }

  lemma WalkedTwice(t: State, i: nat, t': Chat.Tables, t'': Chat.Tables)
    requires i < |t.rows| && t.rows[i].ToolMessage? && |t'.results| <= |t''.results|
    ensures Walked(Walked(t, i, t'), i, t'') == Walked(t, i, t'')
  {
    StampsTwice(t.rows[i], t', t'', |t.rows|);
    assert t.rows[i := WithTables(t.rows[i], t', |t.rows|)][i := WithTables(t.rows[i], t'', |t.rows|)]
           == t.rows[i := WithTables(t.rows[i], t'', |t.rows|)];
  }

  lemma OneCall(env: Env, k: nat, others: map<nat, Progress>, sent: seq<Sent>, w: nat, t: State, i: nat, c: nat)
    requires i < |t.rows| && t.rows[i].ToolMessage? && c < |t.rows[i].tables.calls|
    ensures var was := t.rows[i].tables;
            var (t', outcome) := Chat.Resolve(was, env.config, was.calls[c], env.policies(k)(c), env.output(k)(c));
            Apply(Held(others, sent, w, t, Walking(i, c)),
                  WalkCall(w, env.config, env.policies(k)(c), env.output(k)(c)))
            == Held(others, sent, w, Walked(t, i, t'),
                    Walking(i, if outcome.Blocked? then |was.calls| else c + 1))
  {
    var was := t.rows[i].tables;
    var outcome := Chat.Resolve(was, env.config, was.calls[c], env.policies(k)(c), env.output(k)(c)).1;
    Moves(others, sent, w, t, Walking(i, c), Walking(i, if outcome.Blocked? then |was.calls| else c + 1));
  }

  lemma FirstCall(env: Env, k: nat, others: map<nat, Progress>, sent: seq<Sent>, w: nat, t: State, i: nat, c: nat,
                  t': Chat.Tables, outcome: Chat.Outcome)
    requires i < |t.rows| && t.rows[i].ToolMessage? && c < |t.rows[i].tables.calls|
    requires var was := t.rows[i].tables;
             (t', outcome) == Chat.Resolve(was, env.config, was.calls[c], env.policies(k)(c), env.output(k)(c))
    ensures var n := |t.rows[i].tables.calls|;
            Run(Held(others, sent, w, t, Walking(i, c)), Calls(env, k, w, c, n)) ==
            Run(Held(others, sent, w, Walked(t, i, t'), Walking(i, if outcome.Blocked? then n else c + 1)),
                Calls(env, k, w, c + 1, n))
  {
    var n := |t.rows[i].tables.calls|;
    OneCall(env, k, others, sent, w, t, i, c);
    RunFirst(Held(others, sent, w, t, Walking(i, c)), WalkCall(w, env.config, env.policies(k)(c), env.output(k)(c)),
             Calls(env, k, w, c + 1, n));
  }

  /** What a walk leaves after its first call. */
  lemma WalkGoesOn(env: Env, k: nat, was: Chat.Tables, c: nat, t': Chat.Tables, outcome: Chat.Outcome,
                   end: Chat.Tables)
    requires c < |was.calls| && end == Chat.Walk(was, env.config, c, env.policies(k), env.output(k))
    requires (t', outcome) == Chat.Resolve(was, env.config, was.calls[c], env.policies(k)(c), env.output(k)(c))
    ensures t'.calls == was.calls && |was.results| <= |t'.results| <= |end.results|
    ensures end == if outcome.Blocked? then t' else Chat.Walk(t', env.config, c + 1, env.policies(k), env.output(k))
  {
    WalkAdds(t', env.config, c + 1, env.policies(k), env.output(k));
  }

  /** From call `c` on the steps of the walk leave message `i` with the tables `end`. */
  ghost predicate WalksTo(env: Env, k: nat, others: map<nat, Progress>, sent: seq<Sent>, w: nat, t: State, i: nat,
                          c: nat, end: Chat.Tables)
    requires i < |t.rows| && t.rows[i].ToolMessage?
  {
    var n := |t.rows[i].tables.calls|;
    Run(Held(others, sent, w, t, Walking(i, c)), Calls(env, k, w, c, n))
    == Held(others, sent, w, Walked(t, i, end), Walking(i, n))
  }

  lemma WalksNowhere(env: Env, k: nat, others: map<nat, Progress>, sent: seq<Sent>, w: nat, t: State, i: nat)
    requires i < |t.rows| && t.rows[i].ToolMessage? && |t.rows[i].tables.results| <= |t.rows[i].stamps|
    ensures WalksTo(env, k, others, sent, w, t, i, |t.rows[i].tables.calls|, t.rows[i].tables)
  {
    assert t.rows[i := WithTables(t.rows[i], t.rows[i].tables, |t.rows|)] == t.rows;
  }

  /** A call that must wait is the walk's last. */
  lemma WalksNoFurther(env: Env, k: nat, others: map<nat, Progress>, sent: seq<Sent>, w: nat, t: State, i: nat, c: nat,
                       t': Chat.Tables)
    requires i < |t.rows| && t.rows[i].ToolMessage? && c < |t.rows[i].tables.calls|
    requires var was := t.rows[i].tables;
             (t', Chat.Blocked) == Chat.Resolve(was, env.config, was.calls[c], env.policies(k)(c), env.output(k)(c))
    requires t'.calls == t.rows[i].tables.calls
    ensures WalksTo(env, k, others, sent, w, t, i, c, t')
  {
    var n := |t.rows[i].tables.calls|;
    FirstCall(env, k, others, sent, w, t, i, c, t', Chat.Blocked);
    NothingToWalk(env, k, w, c + 1, n, Held(others, sent, w, Walked(t, i, t'), Walking(i, n)), i);
  }

  lemma WalksFurther(env: Env, k: nat, others: map<nat, Progress>, sent: seq<Sent>, w: nat, t: State, i: nat, c: nat,
                     t': Chat.Tables, outcome: Chat.Outcome, end: Chat.Tables)
    requires i < |t.rows| && t.rows[i].ToolMessage? && c < |t.rows[i].tables.calls| && !outcome.Blocked?
    requires var was := t.rows[i].tables;
             (t', outcome) == Chat.Resolve(was, env.config, was.calls[c], env.policies(k)(c), env.output(k)(c))
    requires t'.calls == t.rows[i].tables.calls && |t'.results| <= |end.results|
    requires WalksTo(env, k, others, sent, w, Walked(t, i, t'), i, c + 1, end)
    ensures WalksTo(env, k, others, sent, w, t, i, c, end)
  {
    FirstCall(env, k, others, sent, w, t, i, c, t', outcome);
    WalkedTwice(t, i, t', end);
  }

  /** The steps of a walk together are the walk. */
  lemma {:induction false} StepsAreWalk(env: Env, k: nat, others: map<nat, Progress>, sent: seq<Sent>, w: nat, t: State,
                                        i: nat, c: nat, end: Chat.Tables)
    requires i < |t.rows| && t.rows[i].ToolMessage? && c <= |t.rows[i].tables.calls|
    requires |t.rows[i].tables.results| <= |t.rows[i].stamps|
    requires end == Chat.Walk(t.rows[i].tables, env.config, c, env.policies(k), env.output(k))
    ensures WalksTo(env, k, others, sent, w, t, i, c, end)
    decreases |t.rows[i].tables.calls| - c
  {
    var was := t.rows[i].tables;
    if c == |was.calls| {
      WalksNowhere(env, k, others, sent, w, t, i);
    } else {
      var (t', outcome) := Chat.Resolve(was, env.config, was.calls[c], env.policies(k)(c), env.output(k)(c));
      WalkGoesOn(env, k, was, c, t', outcome, end);
      if outcome.Blocked? {
        WalksNoFurther(env, k, others, sent, w, t, i, c, t');
      } else {
        StepsAreWalk(env, k, others, sent, w, Walked(t, i, t'), i, c + 1, end);
        WalksFurther(env, k, others, sent, w, t, i, c, t', outcome, end);
      }
    }
  }

  // ---------------------------------------------------------------- one iteration

  /** Finishing message `i`: its walk, and what the turn does at its end. */
  function Finishing(env: Env, k: nat, w: nat, n: nat, ending: Option<Ending>): seq<Event> {
    Calls(env, k, w, 0, n) + [EndWalk(w, ending == Some(RepeatedFailure))]
  }

  lemma RunLast(s: Conv, es: seq<Event>, e: Event)
    ensures Run(s, es + [e]) == Apply(Run(s, es), e)
  {
    FoldAppend(Apply, s, es, e);
  }

  lemma FinishIsARun(env: Env, k: nat, others: map<nat, Progress>, sent: seq<Sent>, w: nat, t: State, i: nat)
    requires i < |t.rows| && t.rows[i].ToolMessage? && |t.rows[i].tables.results| <= |t.rows[i].stamps|
    ensures var (t', ending) := FinishMessage(env, k, t, i);
            Run(Held(others, sent, w, t, Walking(i, 0)), Finishing(env, k, w, |t.rows[i].tables.calls|, ending))
            == Held(others, sent, w, t', if ending.Some? then Idle else Looking)
  {
    var was := t.rows[i].tables;
    var n := |was.calls|;
    var tables := Chat.Walk(was, env.config, 0, env.policies(k), env.output(k));
    var (t', ending) := FinishMessage(env, k, t, i);
    var s := Held(others, sent, w, t, Walking(i, 0));
    StepsAreWalk(env, k, others, sent, w, t, i, 0, tables);
    RunLast(s, Calls(env, k, w, 0, n), EndWalk(w, ending == Some(RepeatedFailure)));
    WalkAdds(was, env.config, 0, env.policies(k), env.output(k));
    Moves(others, sent, w, Walked(t, i, tables), Walking(i, n), if ending.Some? then Idle else Looking);
    var row := WithTables(t.rows[i], tables, |t.rows|);
    assert t.rows[i := row][i := row.(complete := true)] == t.rows[i := row.(complete := true)];
  }

  /** What a turn does in iteration `k`. */
  function Steps(env: Env, k: nat, w: nat, t: State): seq<Event> {
    var ending := Iteration(env, k, t).1;
    match FindUnresolved(t.view, t.rows)
    case Some(i) =>
      [Find(w), Check(w)] + Finishing(env, k, w, |t.rows[i].tables.calls|, ending)
    case None =>
      var search := if NewestTool(t.view, t.rows).Some? then [Find(w), Check(w)] else [Find(w)];
      search + ([Build(w), Respond(w, env.model(k))] +
                if env.model(k).Some? && env.model(k).value != []
                then Finishing(env, k, w, |env.model(k).value|, ending) else [])
  }

  lemma RunsOn(s: Conv, es: seq<Event>, s': Conv, rest: seq<Event>)
    requires Run(s, es) == s'
    ensures Run(s, es + rest) == Run(s', rest)
  {
    FoldConcat(Apply, s, es, rest);
  }

  lemma SearchIsARun(others: map<nat, Progress>, sent: seq<Sent>, w: nat, t: State)
    ensures var s := Held(others, sent, w, t, Looking);
            match FindUnresolved(t.view, t.rows)
            case Some(i) => Run(s, [Find(w), Check(w)]) == Held(others, sent, w, t, Walking(i, 0))
            case None =>
              Run(s, if NewestTool(t.view, t.rows).Some? then [Find(w), Check(w)] else [Find(w)])
              == Held(others, sent, w, t, Building(|t.rows|))
  {
    var s, n := Held(others, sent, w, t, Looking), |t.rows|;
    RunFirst(s, Find(w), []);
    match NewestTool(t.view, t.rows)
    case None => Moves(others, sent, w, t, Looking, Building(n));
    case Some(i) =>
      Moves(others, sent, w, t, Looking, Checking(i, n));
      Moves(others, sent, w, t, Checking(i, n), Walking(i, 0));
      Moves(others, sent, w, t, Checking(i, n), Building(n));
      RunFirst(s, Find(w), [Check(w)]);
      RunFirst(Held(others, sent, w, t, Checking(i, n)), Check(w), []);
      assert [Find(w)] + [Check(w)] == [Find(w), Check(w)] && [Check(w)] + [] == [Check(w)];
  }

  lemma AskIsARun(env: Env, k: nat, others: map<nat, Progress>, sent: seq<Sent>, w: nat, t: State)
    ensures var s := Held(others, sent, w, t, Building(|t.rows|));
            var asked := t.(asked := t.asked + [Sent(t.view, t.rows)]);
            Run(s, [Build(w), Respond(w, env.model(k))]) ==
            match env.model(k)
            case None => Held(others, sent, w, asked, Idle)
            case Some(calls) =>
              if calls == [] then Held(others, sent, w, asked.(rows := t.rows + [Answer]), Idle)
              else Held(others, sent, w, asked.(rows := t.rows + [NewMessage(calls)]), Walking(|t.rows|, 0))
  {
    var s := Held(others, sent, w, t, Building(|t.rows|));
    var asked := t.(asked := t.asked + [Sent(t.view, t.rows)]);
    Moves(others, sent, w, t, Building(|t.rows|), Asking);
    assert sent + asked.asked == sent + t.asked + [Sent(t.view, t.rows)];
    RunFirst(s, Build(w), [Respond(w, env.model(k))]);
    RunFirst(Held(others, sent, w, asked, Asking), Respond(w, env.model(k)), []);
    Moves(others, sent, w, asked, Asking, Idle);
    Moves(others, sent, w, asked, Asking, Walking(|t.rows|, 0));
    assert [Build(w)] + [Respond(w, env.model(k))] == [Build(w), Respond(w, env.model(k))];
    assert [Respond(w, env.model(k))] + [] == [Respond(w, env.model(k))];
  }

  lemma IterationIsARun(env: Env, k: nat, others: map<nat, Progress>, sent: seq<Sent>, w: nat, t: State)
    requires forall i :: 0 <= i < |t.rows| ==> RowOk(t.rows[i])
    ensures var (t', ending) := Iteration(env, k, t);
            Run(Held(others, sent, w, t, Looking), Steps(env, k, w, t))
            == Held(others, sent, w, t', if ending.Some? then Idle else Looking)
  {
    var s := Held(others, sent, w, t, Looking);
    SearchIsARun(others, sent, w, t);
    match FindUnresolved(t.view, t.rows)
    case Some(i) =>
      var finishing := Finishing(env, k, w, |t.rows[i].tables.calls|, Iteration(env, k, t).1);
      RunsOn(s, [Find(w), Check(w)], Held(others, sent, w, t, Walking(i, 0)), finishing);
      FinishIsARun(env, k, others, sent, w, t, i);
    case None => AskingIsARun(env, k, others, sent, w, t);
  }

  lemma AskingIsARun(env: Env, k: nat, others: map<nat, Progress>, sent: seq<Sent>, w: nat, t: State)
    requires FindUnresolved(t.view, t.rows).None?
    ensures var (t', ending) := Iteration(env, k, t);
            Run(Held(others, sent, w, t, Looking), Steps(env, k, w, t))
            == Held(others, sent, w, t', if ending.Some? then Idle else Looking)
  {
    var s, building := Held(others, sent, w, t, Looking), Held(others, sent, w, t, Building(|t.rows|));
    var search := if NewestTool(t.view, t.rows).Some? then [Find(w), Check(w)] else [Find(w)];
    var ask := [Build(w), Respond(w, env.model(k))];
    var asked := t.(asked := t.asked + [Sent(t.view, t.rows)]);
    SearchIsARun(others, sent, w, t);
    AskIsARun(env, k, others, sent, w, t);
    if env.model(k).Some? && env.model(k).value != [] {
      var calls := env.model(k).value;
      var mid := asked.(rows := t.rows + [NewMessage(calls)]);
      var finishing := Finishing(env, k, w, |calls|, Iteration(env, k, t).1);
      RunsOn(building, ask, Held(others, sent, w, mid, Walking(|t.rows|, 0)), finishing);
      FinishIsARun(env, k, others, sent, w, mid, |t.rows|);
      RunsOn(s, search, building, ask + finishing);
    } else {
      assert ask + [] == ask;
      RunsOn(s, search, building, ask);
    }
  }

  // ---------------------------------------------------------------- a whole turn

  lemma StepsBehave(env: Env, k: nat, w: nat, t: State)
    requires WellBehaved(env)
    ensures AllBehave(Steps(env, k, w, t))
  {
    forall c: nat, n: nat { CallsBehave(env, k, w, c, n); }
  }

  lemma {:induction false} CallsBehave(env: Env, k: nat, w: nat, c: nat, n: nat)
    ensures AllBehave(Calls(env, k, w, c, n))
    decreases n - c
  {
    if c < n {
      CallsBehave(env, k, w, c + 1, n);
    }
  }

  lemma {:induction false} RunKeeps(s: Conv, es: seq<Event>)
    requires Inv(s) && AllBehave(es)
    ensures Inv(Run(s, es))
  {
    if es != [] {
      RunKeeps(s, es[..|es| - 1]);
      StepKeepsOrderIff(Run(s, es[..|es| - 1]), es[|es| - 1]);
    }
  }

  /** The steps of one iteration, after which the conversation is as safe as before. */
  lemma OneIteration(env: Env, others: map<nat, Progress>, sent: seq<Sent>, w: nat, k: nat, t: State, t': State,
                     ending: Option<Ending>) returns (es: seq<Event>)
    requires WellBehaved(env) && Inv(Held(others, sent, w, t, Looking)) && Iteration(env, k, t) == (t', ending)
    ensures AllBehave(es)
    ensures var s' := Held(others, sent, w, t', if ending.Some? then Idle else Looking);
            Run(Held(others, sent, w, t, Looking), es) == s' && Inv(s')
  {
    es := Steps(env, k, w, t);
    IterationIsARun(env, k, others, sent, w, t);
    StepsBehave(env, k, w, t);
    RunKeeps(Held(others, sent, w, t, Looking), es);
  }

  /** Steps of turn `w` lead from `t` to `t'`, where it is in this phase. */
  ghost predicate Leads(others: map<nat, Progress>, sent: seq<Sent>, w: nat, t: State, t': State, phase: Phase) {
    exists es :: AllBehave(es) && Run(Held(others, sent, w, t, Looking), es) == Held(others, sent, w, t', phase)
  }

  lemma GivesUp(others: map<nat, Progress>, sent: seq<Sent>, w: nat, t: State, t': State)
    requires Leads(others, sent, w, t, t', Looking)
    ensures Leads(others, sent, w, t, t', Idle)
  {
    var s' := Held(others, sent, w, t', Looking);
    RunFirst(s', Die(w), []);
    Moves(others, sent, w, t', Looking, Idle);
    LeadsOn(others, sent, w, t, t', [Die(w)] + [], t', Idle);
  }

  lemma LeadsOn(others: map<nat, Progress>, sent: seq<Sent>, w: nat, t: State, t': State, rest: seq<Event>, t'': State,
                phase: Phase)
    requires Leads(others, sent, w, t, t', Looking) && AllBehave(rest)
    requires Run(Held(others, sent, w, t', Looking), rest) == Held(others, sent, w, t'', phase)
    ensures Leads(others, sent, w, t, t'', phase)
  {
    var s, s' := Held(others, sent, w, t, Looking), Held(others, sent, w, t', Looking);
    var es :| AllBehave(es) && Run(s, es) == s';
    RunsOn(s, es, s', rest);
    assert AllBehave(es + rest);
  }

  ghost function Underway(others: map<nat, Progress>, sent: seq<Sent>, w: nat, t: State): (nat, State) -> bool {
    (k: nat, t': State) => Inv(Held(others, sent, w, t', Looking)) && Leads(others, sent, w, t, t', Looking)
  }

  ghost function Over(others: map<nat, Progress>, sent: seq<Sent>, w: nat, t: State): (State, Ending) -> bool {
    (t': State, _: Ending) => Leads(others, sent, w, t, t', Idle)
  }

  lemma RoundLeadsOn(env: Env, others: map<nat, Progress>, sent: seq<Sent>, w: nat, t: State, k: nat, t': State)
    requires WellBehaved(env)
    ensures KeepsOrEnds(Iterations(env), Underway(others, sent, w, t), Over(others, sent, w, t), k, t')
  {
    if Inv(Held(others, sent, w, t', Looking)) && Leads(others, sent, w, t, t', Looking) {
      var (t'', ending) := Iteration(env, k, t');
      var es := OneIteration(env, others, sent, w, k, t', t'', ending);
      LeadsOn(others, sent, w, t, t', es, t'', if ending.Some? then Idle else Looking);
    }
  }

  /** A turn leads from its first iteration to its end; one that uses up its iterations just ends. */
  lemma TurnLeads(env: Env, limit: nat, others: map<nat, Progress>, sent: seq<Sent>, w: nat, t: State)
    requires WellBehaved(env) && Inv(Held(others, sent, w, t, Looking))
    ensures Leads(others, sent, w, t, Turn(env, limit, t).0, Idle)
  {
    var inv, ends := Underway(others, sent, w, t), Over(others, sent, w, t);
    assert AllBehave([]) && Run(Held(others, sent, w, t, Looking), []) == Held(others, sent, w, t, Looking);
    forall k: nat, t': State | k < limit ensures KeepsOrEnds(Iterations(env), inv, ends, k, t') {
      RoundLeadsOn(env, others, sent, w, t, k, t');
    }
    forall t': State | inv(limit, t') ensures ends(t', TooManySteps) {
      GivesUp(others, sent, w, t, t');
    }
    RepeatKeeps(Iterations(env), TooManySteps, inv, ends, 0, limit, t);
  }

  /**
    A turn that nothing disturbs: from where it begins steps of its own lead to the messages that the turn as a whole
    leaves, and to the requests it sends.
   */
  lemma TurnIsARun(env: Env, limit: nat, s: Conv, w: nat) returns (es: seq<Event>)
    requires WellBehaved(env) && Inv(s) && PhaseOf(s, w).Looking?
    ensures var (t', _) := Turn(env, limit, Opening(ViewOf(s, w), s.rows));
            var s' := Run(s, es);
            AllBehave(es) && s'.rows == t'.rows && s'.sent == s.sent + t'.asked && PhaseOf(s', w).Idle?
  {
    var t := Opening(ViewOf(s, w), s.rows);
    assert s.turns[w := Progress(t.view, Looking)] == s.turns && s.sent + [] == s.sent;
    assert Held(s.turns, s.sent, w, t, Looking) == s;
    TurnLeads(env, limit, s.turns, s.sent, w, t);
    es :| AllBehave(es) && Run(s, es) == Held(s.turns, s.sent, w, Turn(env, limit, t).0, Idle);
  }

  // ---------------------------------------------------------------- a whole conversation

  /** A turn from its first step on. */
  lemma BegunTurnIsARun(env: Env, limit: nat, s: Conv, e: Event, v: View, rows: seq<Row>) returns (es: seq<Event>)
    requires WellBehaved(env) && Inv(s) && Behaves(e)
    requires Apply(s, e) == Conv(rows, s.turns[0 := Progress(v, Looking)], s.sent)
    ensures var t' := Turn(env, limit, Opening(v, rows)).0;
            && AllBehave(es) && Run(s, es).rows == t'.rows && Run(s, es).sent == s.sent + t'.asked
            && PhaseOf(Run(s, es), 0).Idle?
  {
    StepKeepsOrderIff(s, e);
    var rest := TurnIsARun(env, limit, Apply(s, e), 0);
    RunFirst(s, e, rest);
    es := [e] + rest;
  }

  /** One event of a conversation whose turns follow one another; turn 0 takes all their steps. */
  lemma EventIsARun(limit: nat, s: Conv, e: Conversations.Event) returns (es: seq<Event>)
    requires Inv(s) && PhaseOf(s, 0).Idle? && Conversations.EventBehaves(e)
    ensures var (rows, asked) := Conversations.Apply(limit, s.rows, e);
            && AllBehave(es) && Run(s, es).rows == rows && Run(s, es).sent == s.sent + asked
            && PhaseOf(Run(s, es), 0).Idle?
  {
    es := [];
    match e
    case Send(env) => es := BegunTurnIsARun(env, limit, s, Begin(0, true), EVERYTHING, s.rows + [UserText]);
    case Resume(env) => es := BegunTurnIsARun(env, limit, s, Begin(0, false), EVERYTHING, s.rows);
    case Regenerate(env, target) =>
      if target < |s.rows| && Regenerable(s.rows[target]) {
        es := BegunTurnIsARun(env, limit, s, Regenerate(0, target), View(target, s.rows), s.rows);
      }
    case Decide(m, r, approve) =>
      es := [Decision(m, r, approve)] + [];
      RunFirst(s, Decision(m, r, approve), []);
  }

  /** Everything the conversation has sent to the model. */
  function Requests(limit: nat, events: seq<Conversations.Event>): seq<Sent> {
    if events == [] then []
    else
      var earlier := events[..|events| - 1];
      Requests(limit, earlier)
        + Conversations.Apply(limit, Conversations.Converse(limit, earlier), events[|events| - 1]).1
  }

  /** A conversation whose turns follow one another is one of the interleaved conversations, requests included. */
  lemma {:induction false} ConverseIsARun(limit: nat, events: seq<Conversations.Event>) returns (es: seq<Event>)
    requires forall k :: 0 <= k < |events| ==> Conversations.EventBehaves(events[k])
    ensures AllBehave(es) && PhaseOf(Run(NOTHING, es), 0).Idle?
    ensures Run(NOTHING, es).rows == Conversations.Converse(limit, events)
    ensures Run(NOTHING, es).sent == Requests(limit, events)
  {
    es := [];
    if events != [] {
      var e := events[|events| - 1];
      var first := ConverseIsARun(limit, events[..|events| - 1]);
      var s := Run(NOTHING, first);
      MessagesStaySafe(first);
      var more := EventIsARun(limit, s, e);
      es := first + more;
      FoldConcat(Apply, NOTHING, first, more);
    }
  }
}
