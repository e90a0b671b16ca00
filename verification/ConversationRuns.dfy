/**
  Concrete conversations with regenerated answers: one leaves a waiting call behind, the other sends the model a call
  without the result it has.
 */
module ConversationRuns {
  import opened Approvals
  import opened Base
  import opened ChatTurns
  import opened Conversations
  import opened Transcript
  import Chat
  import Gates
  import Rows

  function SomeEnv(tools: map<string, string>, response: seq<ToolCall>): Env {
    Env(Chat.Config(tools, map[], map[]), (k: nat) => Some(response),
        (k: nat) => (i: nat) => Chat.Policies(Gates.Allow, false), (k: nat) => (i: nat) => "",
        (text: string) => false, (text: string) => text)
  }

  const PLAIN := SomeEnv(map[], [])
  const ASKING := SomeEnv(map["send" := "dangerous"], [ToolCall("a", "send", "")])

  /** A person writes and is answered, then writes again and the model asks for a dangerous tool. */
  function AnsweredThenAsked(): seq<Event> {
    [Send(PLAIN), Send(ASKING)]
  }

  function WaitingTables(): Chat.Tables {
    Chat.Request(Chat.Fresh([ToolCall("a", "send", "")]).tables, "a")
  }

  /** The conversation after that. */
  function AskedRows(): seq<Row> {
    [UserText, Answer, UserText, ToolMessage(WaitingTables(), false, [])]
  }

  lemma WalkAsks()
    ensures Chat.Walk(Chat.Fresh([ToolCall("a", "send", "")]).tables, ASKING.config, 0, ASKING.policies(0),
                      ASKING.output(0)) == WaitingTables()
  {
  }

  lemma TurnAsksPerson(limit: nat, rows: seq<Row>)
    requires limit > 0 && FindUnresolved(EVERYTHING, rows).None?
    ensures Turn(ASKING, limit, Opening(EVERYTHING, rows)).0.rows == rows + [ToolMessage(WaitingTables(), false, [])]
  {
    WalkAsks();
    Chat.AskedOk(ToolCall("a", "send", ""));
    var (s, ending) := Iteration(ASKING, 0, Opening(EVERYTHING, rows));
    assert s.rows == rows + [ToolMessage(WaitingTables(), false, [])] && ending == Some(Blocked);
  }

  lemma ConverseAppend(limit: nat, events: seq<Event>, e: Event)
    ensures Converse(limit, events + [e]) == Apply(limit, Converse(limit, events), e).0
  {
    assert (events + [e])[..|events|] == events;
  }

  lemma FirstAnswer(limit: nat)
    requires limit > 0
    ensures Apply(limit, [], Send(PLAIN)).0 == [UserText, Answer]
  {
    assert [] + [UserText] == [UserText];
    TurnAddsNoMessage(PLAIN, limit, EVERYTHING, [UserText]);
  }

  lemma AskedRowsOk()
    ensures ConversationOk(AskedRows()) && !Settled(AskedRows()[3])
  {
    Chat.AskedOk(ToolCall("a", "send", ""));
  }

  lemma SecondAsks(limit: nat)
    requires limit > 0
    ensures Apply(limit, [UserText, Answer], Send(ASKING)).0 == AskedRows()
  {
    assert [UserText, Answer] + [UserText] == [UserText, Answer, UserText];
    TurnAsksPerson(limit, [UserText, Answer, UserText]);
  }

  lemma AnsweredThenAskedGives(limit: nat)
    requires limit > 0
    ensures Converse(limit, AnsweredThenAsked()) == AskedRows() && ConversationOk(AskedRows())
  {
    ConverseAppend(limit, [], Send(PLAIN));
    ConverseAppend(limit, [Send(PLAIN)], Send(ASKING));
    assert [] + [Send(PLAIN)] == [Send(PLAIN)] && [Send(PLAIN)] + [Send(ASKING)] == AnsweredThenAsked();
    FirstAnswer(limit);
    SecondAsks(limit);
    AskedRowsOk();
  }

  /** The answer of that conversation is regenerated, and the model asks for a tool again: the waiting call is no
      longer in the newest message. */
  lemma RegenerationLosesACall(env: Env, limit: nat)
    requires WellBehaved(env) && limit > 0 && !CallsNothing(env)
    ensures var rows := Converse(limit, AnsweredThenAsked());
            && ConversationOk(rows) && Regenerates(rows, Regenerate(env, 1))
            && !ConversationOk(Apply(limit, rows, Regenerate(env, 1)).0)
  {
    AnsweredThenAskedGives(limit);
    LosesAskedCall(env, limit, AskedRows());
  }

  lemma LosesAskedCall(env: Env, limit: nat, rows: seq<Row>)
    requires WellBehaved(env) && limit > 0 && !CallsNothing(env) && rows == AskedRows()
    ensures ConversationOk(rows) && Regenerates(rows, Regenerate(env, 1))
    ensures !ConversationOk(Apply(limit, rows, Regenerate(env, 1)).0)
  {
    AskedRowsOk();
    WaitingCallIsHidden(env, limit);
  }

  lemma WaitingCallIsHidden(env: Env, limit: nat)
    requires WellBehaved(env) && limit > 0 && !CallsNothing(env)
    ensures !ConversationOk(Regenerated(env, limit, AskedRows(), 1).rows)
  {
    AskedRowsOk();
    assert !AllSettled(AskedRows()[1..]) by { assert !Settled(AskedRows()[1..][2]); }
    RegenerationKeepsIff(env, limit, AskedRows(), 1);
  }

  // ---------------------------------------------------------------- how a result gets newer than the target

  /**
    The answer before the waiting message is regenerated plainly, the waiting call is then turned down, and a
    resumed turn stores that as its result: after the regenerated answer.
   */
  function ResultAfterAnswer(): seq<Event> {
    AnsweredThenAsked() + [Regenerate(PLAIN, 1)] + [Decide(3, 0, false)] + [Resume(PLAIN)]
  }

  function DeniedRow(): Row {
    ToolMessage(Chat.Decided(WaitingTables(), 0, false), false, [])
  }

  function AnsweredTables(): Chat.Tables {
    Chat.Store(Chat.Decided(WaitingTables(), 0, false), "a", Chat.DeniedByPerson)
  }

  lemma PlainRegeneration(limit: nat)
    requires limit > 0
    ensures Apply(limit, AskedRows(), Regenerate(PLAIN, 1)).0 == AskedRows() + [Answer]
    ensures LosesNothing(limit, AskedRows(), Regenerate(PLAIN, 1))
  {
    AskedRowsOk();
    assert !AllSettled(AskedRows()[1..]) by { assert !Settled(AskedRows()[1..][2]); }
    SettledBefore(AskedRows(), 1);
    TurnAddsNoMessage(PLAIN, limit, View(1, AskedRows()), AskedRows());
  }

  lemma TurnedDown(limit: nat)
    ensures Apply(limit, AskedRows() + [Answer], Decide(3, 0, false)).0 ==
            DeniedRows()
  {
    assert AskedRows() + [Answer] == [UserText, Answer, UserText, ToolMessage(WaitingTables(), false, []), Answer];
  }

  lemma DenialIsStored()
    ensures Chat.Walk(DeniedRow().tables, PLAIN.config, 0, PLAIN.policies(0), PLAIN.output(0)) == AnsweredTables()
    ensures !Settled(DeniedRow()) && RowOk(DeniedRow()) && !Chat.HasUnresolved(AnsweredTables())
  {
    Chat.AskedOk(ToolCall("a", "send", ""));
    Chat.DecidedOk(WaitingTables(), 0, false);
    var t := DeniedRow().tables;
    assert t.calls == [ToolCall("a", "send", "")] && t.results == [];
    assert t.approvals == [ApprovalRow("a", Rows.Denied)];
    assert Chat.HasResult(AnsweredTables(), "a") by { assert AnsweredTables().results[0].callId == "a"; }
  }

  function DeniedRows(): seq<Row> {
    [UserText, Answer, UserText, DeniedRow(), Answer]
  }

  lemma DenialIsOpen()
    ensures ConversationOk(DeniedRows()) && FindUnresolved(EVERYTHING, DeniedRows()) == Some(3)
  {
    DenialIsStored();
    OnlyOneMessage(DeniedRows(), 3);
  }

  lemma OnlyOneMessage(rows: seq<Row>, i: nat)
    requires i < |rows| && rows[i].ToolMessage? && RowOk(rows[i]) && !Settled(rows[i])
    requires forall j :: 0 <= j < |rows| && j != i ==> !rows[j].ToolMessage?
    ensures ConversationOk(rows) && FindUnresolved(EVERYTHING, rows) == Some(i)
  {
    NewestIsNewest(EVERYTHING, rows);
    assert Visible(EVERYTHING, i);
  }

  /** An iteration that answers the rest of a message completes it. */
  lemma IterationFinishes(env: Env, s: State, i: nat)
    requires FindUnresolved(s.view, s.rows) == Some(i)
    requires !Chat.HasUnresolved(Chat.Walk(s.rows[i].tables, env.config, 0, env.policies(0), env.output(0)))
    ensures var t := Chat.Walk(s.rows[i].tables, env.config, 0, env.policies(0), env.output(0));
            Iteration(env, 0, s).0.rows == s.rows[i := WithTables(s.rows[i], t, |s.rows|).(complete := true)]
  {
  }

  lemma FirstIterationStores()
    ensures var s := Iteration(PLAIN, 0, Opening(EVERYTHING, DeniedRows())).0;
            && s.rows == DeniedRows()[3 := ToolMessage(AnsweredTables(), true, [5])] && s.view == EVERYTHING
            && ConversationOk(s.rows) && AllSettled(s.rows)
  {
    DenialIsStored();
    DenialIsOpen();
    IterationFinishes(PLAIN, Opening(EVERYTHING, DeniedRows()), 3);
    assert Stamps([], 1, 5) == [5];
    IterationGrows(PLAIN, 0, Opening(EVERYTHING, DeniedRows()));
  }

  lemma DenialIsNewest(limit: nat)
    requires limit > 0
    ensures var rows := Apply(limit, DeniedRows(), Resume(PLAIN)).0;
            5 <= |rows| && rows[..5] == DeniedRows()[3 := ToolMessage(AnsweredTables(), true, [5])]
  {
    FirstIterationStores();
    var (s, ending) := Iteration(PLAIN, 0, Opening(EVERYTHING, DeniedRows()));
    TurnUnfolds(PLAIN, limit, Opening(EVERYTHING, DeniedRows()), s, ending);
    if ending.None? {
      LaterRowsStay(PLAIN, limit - 1, s);
    }
  }

  lemma ResultAfterAnswerGives(limit: nat)
    requires limit > 0
    ensures var rows := Converse(limit, ResultAfterAnswer());
            5 <= |rows| && rows[..5] == [UserText, Answer, UserText, ToolMessage(AnsweredTables(), true, [5]), Answer]
  {
    var first := AnsweredThenAsked();
    var second := first + [Regenerate(PLAIN, 1)];
    var third := second + [Decide(3, 0, false)];
    AnsweredThenAskedGives(limit);
    PlainRegeneration(limit);
    ConverseAppend(limit, first, Regenerate(PLAIN, 1));
    TurnedDown(limit);
    ConverseAppend(limit, second, Decide(3, 0, false));
    DenialIsNewest(limit);
    ConverseAppend(limit, third, Resume(PLAIN));
  }

  lemma ResultAfterAnswerIsCareful(limit: nat)
    requires limit > 0
    ensures Careful(limit, ResultAfterAnswer())
  {
    var first := AnsweredThenAsked();
    AnsweredThenAskedGives(limit);
    PlainRegeneration(limit);
    CarefulAppend(limit, [], Send(PLAIN));
    CarefulAppend(limit, [Send(PLAIN)], Send(ASKING));
    assert [] + [Send(PLAIN)] == [Send(PLAIN)] && [Send(PLAIN)] + [Send(ASKING)] == first;
    CarefulAppend(limit, first, Regenerate(PLAIN, 1));
    CarefulAppend(limit, first + [Regenerate(PLAIN, 1)], Decide(3, 0, false));
    CarefulAppend(limit, first + [Regenerate(PLAIN, 1)] + [Decide(3, 0, false)], Resume(PLAIN));
  }

  lemma CarefulAppend(limit: nat, events: seq<Event>, e: Event)
    ensures Careful(limit, events + [e]) <==> Careful(limit, events) && LosesNothing(limit, Converse(limit, events), e)
  {
    assert (events + [e])[..|events|] == events;
  }

  /** So it does happen, although no regeneration has lost a call: the model is sent a call whose result it is not. */
  lemma NewResultIsWithheld(limit: nat)
    requires limit > 0
    ensures Careful(limit, ResultAfterAnswer() + [Regenerate(PLAIN, 4)])
    ensures var rows := Converse(limit, ResultAfterAnswer());
            && ConversationOk(rows) && Regenerates(rows, Regenerate(PLAIN, 4)) && LateResult(View(4, rows))
            && var asked := Apply(limit, rows, Regenerate(PLAIN, 4)).1; asked != [] && !AllAnswered(asked[0])
  {
    ResultAfterAnswerGives(limit);
    ResultAfterAnswerOk(limit);
    WithheldFrom(limit, Converse(limit, ResultAfterAnswer()));
  }

  lemma ResultAfterAnswerOk(limit: nat)
    requires limit > 0
    ensures ConversationOk(Converse(limit, ResultAfterAnswer()))
    ensures Careful(limit, ResultAfterAnswer() + [Regenerate(PLAIN, 4)])
  {
    ResultAfterAnswerIsCareful(limit);
    EverythingBehaves();
    ConverseOk(limit, ResultAfterAnswer());
    CarefulAppend(limit, ResultAfterAnswer(), Regenerate(PLAIN, 4));
  }

  lemma EverythingBehaves()
    ensures forall k :: 0 <= k < |ResultAfterAnswer()| ==> EventBehaves(ResultAfterAnswer()[k])
  {
    assert |Ids([ToolCall("a", "send", "")])| == 1;
  }

  lemma WithheldFrom(limit: nat, rows: seq<Row>)
    requires limit > 0 && ConversationOk(rows) && 5 <= |rows|
    requires rows[..5] == [UserText, Answer, UserText, ToolMessage(AnsweredTables(), true, [5]), Answer]
    ensures Regenerates(rows, Regenerate(PLAIN, 4)) && LateResult(View(4, rows))
    ensures var asked := Apply(limit, rows, Regenerate(PLAIN, 4)).1; asked != [] && !AllAnswered(asked[0])
  {
    var v := View(4, rows);
    assert rows[3] == rows[..5][3] && rows[4] == rows[..5][4];
    assert HiddenResult(v, 3, 0);
    NewestIsNewest(v, rows);
    PartIsOk(v, rows);
    FindsWhatIsOpen(v, rows);
    assert forall i :: 0 <= i < 4 ==> rows[i] == rows[..5][i];
    FirstAsk(PLAIN, limit, v, rows);
    RegenerationSends(PLAIN, limit, rows, 4);
  }
}
