/**
  Concrete interleavings of two turns: one leaves a call behind, the other sends a call without its result.
 */
module Overlaps {
  import opened Base
  import opened ChatTurns
  import opened Interleaving
  import opened LostCalls
  import opened Transcript
  import Chat

  function Reading(phase: Phase): Progress {
    Progress(EVERYTHING, phase)
  }

  /** The first two turns, both reading everything. */
  function Two(one: Phase, other: Phase): map<nat, Progress> {
    map[0 := Reading(one), 1 := Reading(other)]
  }

  lemma MoveFirst(rows: seq<Row>, one: Phase, other: Phase, sent: seq<Sent>, phase: Phase)
    ensures MoveTo(Conv(rows, Two(one, other), sent), 0, phase) == Conv(rows, Two(phase, other), sent)
  {
    assert Two(one, other)[0 := Reading(phase)] == Two(phase, other);
  }

  lemma MoveSecond(rows: seq<Row>, one: Phase, other: Phase, sent: seq<Sent>, phase: Phase)
    ensures MoveTo(Conv(rows, Two(one, other), sent), 1, phase) == Conv(rows, Two(one, phase), sent)
  {
    assert Two(one, other)[1 := Reading(phase)] == Two(one, phase);
  }

  /** Two turns search and read an empty conversation, and both receive calls from the model. */
  function Overlap(a: ToolCall, b: ToolCall): seq<Event> {
    [Begin(0, false), Begin(1, false)] + [Find(0), Find(1)] + [Build(0), Build(1)]
    + [Respond(0, Some([a])), Respond(1, Some([b]))]
  }

  const EMPTY := Sent(EVERYTHING, [])

  function Received(a: ToolCall, b: ToolCall): Conv {
    Conv([NewMessage([a]), NewMessage([b])], Two(Walking(0, 0), Walking(1, 0)), [EMPTY, EMPTY])
  }

  lemma RunTwo(s: Conv, e: Event, f: Event)
    ensures Run(s, [e, f]) == Apply(Apply(s, e), f)
  {
    assert [e, f][..0] == [] && [e, f][..2] == [e, f];
    FoldTwo(Apply, s, [e, f], 0);
  }

  lemma BothBegin()
    ensures Run(NOTHING, [Begin(0, false), Begin(1, false)]) == Conv([], Two(Looking, Looking), [])
  {
    RunTwo(NOTHING, Begin(0, false), Begin(1, false));
    assert map[0 := Reading(Looking)][1 := Reading(Looking)] == Two(Looking, Looking);
  }

  lemma BothFind()
    ensures Run(Conv([], Two(Looking, Looking), []), [Find(0), Find(1)]) == Conv([], Two(Building(0), Building(0)), [])
  {
    RunTwo(Conv([], Two(Looking, Looking), []), Find(0), Find(1));
    MoveFirst([], Looking, Looking, [], Building(0));
    MoveSecond([], Building(0), Looking, [], Building(0));
  }

  lemma BothBuild()
    ensures Run(Conv([], Two(Building(0), Building(0)), []), [Build(0), Build(1)])
            == Conv([], Two(Asking, Asking), [EMPTY, EMPTY])
  {
    RunTwo(Conv([], Two(Building(0), Building(0)), []), Build(0), Build(1));
    MoveFirst([], Building(0), Building(0), [], Asking);
    MoveSecond([], Asking, Building(0), [EMPTY], Asking);
  }

  lemma BothReceive(a: ToolCall, b: ToolCall)
    ensures Run(Conv([], Two(Asking, Asking), [EMPTY, EMPTY]), [Respond(0, Some([a])), Respond(1, Some([b]))])
            == Received(a, b)
  {
    RunTwo(Conv([], Two(Asking, Asking), [EMPTY, EMPTY]), Respond(0, Some([a])), Respond(1, Some([b])));
    MoveFirst([], Asking, Asking, [EMPTY, EMPTY], Walking(0, 0));
    MoveSecond([NewMessage([a])], Walking(0, 0), Asking, [EMPTY, EMPTY], Walking(1, 0));
  }

  lemma OverlapReceives(a: ToolCall, b: ToolCall)
    ensures Run(NOTHING, Overlap(a, b)) == Received(a, b)
  {
    var begin, find, build := [Begin(0, false), Begin(1, false)], [Find(0), Find(1)], [Build(0), Build(1)];
    var respond := [Respond(0, Some([a])), Respond(1, Some([b]))];
    FoldConcat(Apply, NOTHING, begin + find + build, respond);
    FoldConcat(Apply, NOTHING, begin + find, build);
    FoldConcat(Apply, NOTHING, begin, find);
    BothBegin();
    BothFind();
    BothBuild();
    BothReceive(a, b);
  }

  function Dangerous(a: ToolCall): Chat.Config {
    Chat.Config(map[a.name := "dangerous"], map[], map[])
  }

  /** The first turn then finds that a person must decide its call, and ends. */
  function AskAndEnd(a: ToolCall): seq<Event> {
    [WalkCall(0, Dangerous(a), NO_RULES, ""), EndWalk(0, false)]
  }

  function AskedRow(a: ToolCall): Row {
    ToolMessage(Chat.Request(Chat.Fresh([a]).tables, a.id), false, [])
  }

  function Asked(a: ToolCall, b: ToolCall): Conv {
    Conv([AskedRow(a), NewMessage([b])], Two(Idle, Walking(1, 0)), [EMPTY, EMPTY])
  }

  lemma FirstTurnAsks(a: ToolCall, b: ToolCall)
    ensures Run(Received(a, b), AskAndEnd(a)) == Asked(a, b)
  {
    var s := Received(a, b);
    RunTwo(s, AskAndEnd(a)[0], AskAndEnd(a)[1]);
    Chat.AskedOk(a);
    assert s.rows[0 := AskedRow(a)] == Asked(a, b).rows;
    MoveFirst(s.rows, Walking(0, 0), Walking(1, 0), s.sent, Walking(0, 1));
    MoveFirst(Asked(a, b).rows, Walking(0, 1), Walking(1, 0), s.sent, Idle);
  }

  /** The second turn's tool is not attached, which is its result. */
  function AnsweredRow(b: ToolCall): Row {
    ToolMessage(Chat.Store(Chat.Fresh([b]).tables, b.id, Chat.NotAttached), false, [2])
  }

  lemma AnsweredRowOk(b: ToolCall)
    ensures Settled(AnsweredRow(b)) && !Settled(NewMessage([b]))
  {
    assert |Ids([b])| == 1;
    Chat.FreshInv([b]);
    Chat.UnresolvedIffShort(Chat.Fresh([b]).tables);
    assert AnsweredRow(b).tables.results[0].callId == b.id;
  }

  lemma SecondTurnAnswers(a: ToolCall, b: ToolCall)
    ensures Apply(Asked(a, b), WalkCall(1, NO_TOOLS, NO_RULES, "")) ==
            Conv([AskedRow(a), AnsweredRow(b)], Two(Idle, Walking(1, 1)), [EMPTY, EMPTY])
  {
    var s := Asked(a, b);
    assert Stamps([], 1, 2) == [2];
    assert s.rows[1 := AnsweredRow(b)] == [AskedRow(a), AnsweredRow(b)];
    MoveSecond(s.rows, Idle, Walking(1, 0), s.sent, Walking(1, 1));
  }

  /** The second turn answers its own call; then it dies, or completes its message. */
  function AnswerAnd(a: ToolCall, b: ToolCall, last: Event): seq<Event> {
    Overlap(a, b) + AskAndEnd(a) + [WalkCall(1, NO_TOOLS, NO_RULES, ""), last]
  }

  lemma AnswerAndGives(a: ToolCall, b: ToolCall, last: Event)
    ensures Run(NOTHING, AnswerAnd(a, b, last)) ==
            Apply(Conv([AskedRow(a), AnsweredRow(b)], Two(Idle, Walking(1, 1)), [EMPTY, EMPTY]), last)
  {
    OverlapReceives(a, b);
    FirstTurnAsks(a, b);
    SecondTurnAnswers(a, b);
    RunTwo(Asked(a, b), WalkCall(1, NO_TOOLS, NO_RULES, ""), last);
    FoldConcat(Apply, NOTHING, Overlap(a, b) + AskAndEnd(a), [WalkCall(1, NO_TOOLS, NO_RULES, ""), last]);
    FoldConcat(Apply, NOTHING, Overlap(a, b), AskAndEnd(a));
  }

  lemma OverlapBehaves(a: ToolCall, b: ToolCall, last: Event)
    requires Behaves(last)
    ensures AllBehave(AnswerAnd(a, b, last))
  {
    assert |Ids([a])| == 1 && |Ids([b])| == 1;
  }

  /**
    So it does happen: the first turn's call waits for a person in front of a newer message with calls. If the turn
    that answered the newer message died before completing it, nothing will ever answer the older one; if it
    completed it, a regeneration of the newer message can, and no other turn will find it.
   */
  lemma OverlappingTurnsLoseACall(a: ToolCall, b: ToolCall)
    ensures AllBehave(AnswerAnd(a, b, Die(1))) && Lost(Run(NOTHING, AnswerAnd(a, b, Die(1))), 0)
    ensures var s := Run(NOTHING, AnswerAnd(a, b, EndWalk(1, true)));
            && AtMessage(s, 0) && !Settled(s.rows[0]) && !Lost(s, 0) && FindUnresolved(EVERYTHING, s.rows).None?
  {
    OverlapBehaves(a, b, Die(1));
    AnswerAndGives(a, b, Die(1));
    AnswerAndGives(a, b, EndWalk(1, true));
    Chat.AskedOk(a);
    AnsweredRowOk(b);
    IncompleteHides(a, b);
    CompleteIsFindable(a, b);
  }

  lemma IncompleteHides(a: ToolCall, b: ToolCall)
    ensures Lost(Apply(Conv([AskedRow(a), AnsweredRow(b)], Two(Idle, Walking(1, 1)), [EMPTY, EMPTY]), Die(1)), 0)
  {
    var rows := [AskedRow(a), AnsweredRow(b)];
    MoveSecond(rows, Idle, Walking(1, 1), [EMPTY, EMPTY], Idle);
    Chat.AskedOk(a);
    AnsweredRowOk(b);
    var s := Conv(rows, Two(Idle, Idle), [EMPTY, EMPTY]);
    assert !Walked(s, 1) && !Walked(s, 0) && !Picked(s, 0);
    assert NextTool(rows, 1) == Some(1);
    assert !CanComplete(s, 1);
    assert !Findable(s, 0);
  }

  lemma CompleteIsFindable(a: ToolCall, b: ToolCall)
    ensures var s := Apply(Conv([AskedRow(a), AnsweredRow(b)], Two(Idle, Walking(1, 1)), [EMPTY, EMPTY]),
                           EndWalk(1, true));
            && AtMessage(s, 0) && !Settled(s.rows[0]) && !Lost(s, 0) && FindUnresolved(EVERYTHING, s.rows).None?
  {
    var rows := [AskedRow(a), AnsweredRow(b)];
    var rows' := rows[1 := AnsweredRow(b).(complete := true)];
    Chat.AskedOk(a);
    AnsweredRowOk(b);
    MoveSecond(rows, Idle, Walking(1, 1), [EMPTY, EMPTY], Idle);
    var s := Conv(rows', Two(Idle, Idle), [EMPTY, EMPTY]);
    assert NextTool(rows', 1) == Some(1) && CanComplete(s, 1);
    assert Findable(s, 0);
    NewestIsNewest(EVERYTHING, rows');
  }

  /** A turn has searched an empty conversation; before it reads the history another one stores a call. */
  function StaleSearch(a: ToolCall): seq<Event> {
    [Begin(0, false), Begin(1, false)] + [Find(0), Find(1)] + [Build(1), Respond(1, Some([a]))] + [Build(0)]
  }

  lemma StaleSearchGives(a: ToolCall)
    ensures Run(NOTHING, StaleSearch(a)).sent == [EMPTY, Sent(EVERYTHING, [NewMessage([a])])]
  {
    var begin, find := [Begin(0, false), Begin(1, false)], [Find(0), Find(1)];
    var answer := [Build(1), Respond(1, Some([a]))];
    FoldConcat(Apply, NOTHING, begin + find + answer, [Build(0)]);
    FoldConcat(Apply, NOTHING, begin + find, answer);
    FoldConcat(Apply, NOTHING, begin, find);
    BothBegin();
    BothFind();
    SecondIsFaster(a);
    RunOne(Conv([NewMessage([a])], Two(Building(0), Walking(0, 0)), [EMPTY]), Build(0));
  }

  lemma SecondIsFaster(a: ToolCall)
    ensures Run(Conv([], Two(Building(0), Building(0)), []), [Build(1), Respond(1, Some([a]))])
            == Conv([NewMessage([a])], Two(Building(0), Walking(0, 0)), [EMPTY])
  {
    RunTwo(Conv([], Two(Building(0), Building(0)), []), Build(1), Respond(1, Some([a])));
    MoveSecond([], Building(0), Building(0), [], Asking);
    MoveSecond([], Building(0), Asking, [EMPTY], Walking(0, 0));
  }

  /** The run is orderly all the same, and the model is sent a call without its result. */
  lemma StaleSearchSendsOpenCall(a: ToolCall)
    ensures AllBehave(StaleSearch(a)) && Orderly(StaleSearch(a)) && !SentOk(Run(NOTHING, StaleSearch(a)))
  {
    assert |Ids([a])| == 1;
    StaleSearchGives(a);
    AnsweredRowOk(a);
    var p := Sent(EVERYTHING, [NewMessage([a])]);
    assert Run(NOTHING, StaleSearch(a)).sent[1] == p;
    OpenCallIsSent(p, 0);
    NothingStoredYet(a);
    FirstMessageIsOrderly(StaleSearch(a), 5);
  }

  lemma NothingStoredYet(a: ToolCall)
    ensures Run(NOTHING, StaleSearch(a)[..5]).rows == []
  {
    var begin, find := [Begin(0, false), Begin(1, false)], [Find(0), Find(1)];
    assert StaleSearch(a)[..5] == begin + find + [Build(1)];
    FoldConcat(Apply, NOTHING, begin + find, [Build(1)]);
    FoldConcat(Apply, NOTHING, begin, find);
    BothBegin();
    BothFind();
    RunOne(Conv([], Two(Building(0), Building(0)), []), Build(1));
  }

  /** With a single event that stores calls, in an empty conversation, a run is orderly. */
  lemma {:induction false} FirstMessageIsOrderly(events: seq<Event>, at: nat)
    requires forall k :: 0 <= k < |events| && k != at ==> !events[k].Respond?
    requires at < |events| ==> Run(NOTHING, events[..at]).rows == []
    ensures Orderly(events)
  {
    if events != [] {
      var earlier := events[..|events| - 1];
      assert at < |earlier| ==> earlier[..at] == events[..at];
      FirstMessageIsOrderly(earlier, at);
    }
  }
}
