/**
  The task engine's transcript: messages, their stored form, which tool call is owed a reply next,
  and what any transcript the engine can build looks like.
 */
module Transcript {
  import opened Base

  datatype Role = System | User | Assistant | Tool

  datatype ToolCall = ToolCall(id: string, name: string, arguments: string)

  datatype ChatMessage = ChatMessage(
    role: Role,
    content: string,
    toolCallId: Option<string>,
    name: Option<string>,
    toolCalls: Option<seq<ToolCall>>)

  /** A message in `execution_state`; None stands for an absent or null key. */
  datatype RawMessage = RawMessage(
    role: Role,
    content: Option<string>,
    toolCallId: Option<string>,
    toolCalls: Option<seq<ToolCall>>)

  // ---------------------------------------------------------------- storing and reloading

  function Serialize(m: ChatMessage): RawMessage {
    RawMessage(m.role, Some(m.content), m.toolCallId, Some(if m.toolCalls.Some? then m.toolCalls.value else []))
  }

  function Deserialize(raw: RawMessage): ChatMessage {
    ChatMessage(
      raw.role,
      if raw.content.Some? then raw.content.value else "",
      raw.toolCallId,
      None,
      if raw.toolCalls.Some? && raw.toolCalls.value != [] then raw.toolCalls else None)
  }

  function SerializeAll(ms: seq<ChatMessage>): seq<RawMessage> {
    seq(|ms|, i requires 0 <= i < |ms| => Serialize(ms[i]))
  }

  function DeserializeAll(raws: seq<RawMessage>): seq<ChatMessage> {
    seq(|raws|, i requires 0 <= i < |raws| => Deserialize(raws[i]))
  }

  /** Messages the engine itself makes: no name, and no empty list of calls. */
  predicate Plain(m: ChatMessage) {
    m.name.None? && m.toolCalls != Some([])
  }

  predicate AllPlain(ms: seq<ChatMessage>) {
    forall i :: 0 <= i < |ms| ==> Plain(ms[i])
  }

  /** Reloading undoes storing on exactly the transcripts made of plain messages. */
  lemma ReloadUndoesStore(ms: seq<ChatMessage>)
    ensures DeserializeAll(SerializeAll(ms)) == ms <==> AllPlain(ms)
  {
    var back := DeserializeAll(SerializeAll(ms));
    assert forall i :: 0 <= i < |ms| ==> (back[i] == ms[i] <==> Plain(ms[i]));
  }

  /** The engine's reply to a tool call. */
  function Reply(id: string, content: string): ChatMessage {
    ChatMessage(Tool, content, Some(id), None, None)
  }

  /** The dictionary the respond view appends by hand. */
  function RawAnswer(id: string, content: string): RawMessage {
    RawMessage(Tool, Some(content), Some(id), Some([]))
  }

  lemma AnswerReadsBackAsReply(raws: seq<RawMessage>, id: string, content: string)
    ensures DeserializeAll(raws + [RawAnswer(id, content)]) == DeserializeAll(raws) + [Reply(id, content)]
    ensures RawAnswer(id, content) == Serialize(Reply(id, content))
  {
  }

  // ---------------------------------------------------------------- what is owed next

  predicate IsReplyTo(m: ChatMessage, id: string) {
    m.role == Tool && m.toolCallId == Some(id)
  }

  predicate HasReply(ms: seq<ChatMessage>, id: string) {
    exists i :: 0 <= i < |ms| && IsReplyTo(ms[i], id)
  }

  lemma HasReplyAppend(ms: seq<ChatMessage>, m: ChatMessage, id: string)
    ensures HasReply(ms + [m], id) <==> HasReply(ms, id) || IsReplyTo(m, id)
  {
    var all := ms + [m];
    assert all[|ms|] == m;
    if HasReply(ms, id) {
      var i :| 0 <= i < |ms| && IsReplyTo(ms[i], id);
      assert IsReplyTo(all[i], id);
    }
  }

  function Calls(m: ChatMessage): seq<ToolCall> {
    if m.role == Assistant && m.toolCalls.Some? then m.toolCalls.value else []
  }

  predicate Unanswered(ms: seq<ChatMessage>, calls: seq<ToolCall>) {
    exists i :: 0 <= i < |calls| && !HasReply(ms, calls[i].id)
  }

  /** The newest of the first `n` messages with an unanswered call. */
  function UnresolvedBelow(ms: seq<ChatMessage>, n: nat): Option<seq<ToolCall>>
    requires n <= |ms|
  {
    if n == 0 then None
    else if Unanswered(ms, Calls(ms[n - 1])) then Some(Calls(ms[n - 1]))
    else UnresolvedBelow(ms, n - 1)
  }

  /** The engine's search in `reversed(messages)`. */
  function Unresolved(ms: seq<ChatMessage>): Option<seq<ToolCall>> {
    UnresolvedBelow(ms, |ms|)
  }

  lemma {:induction false} UnresolvedIsUnanswered(ms: seq<ChatMessage>, n: nat)
    requires n <= |ms|
    ensures UnresolvedBelow(ms, n).Some? ==> Unanswered(ms, UnresolvedBelow(ms, n).value)
    ensures UnresolvedBelow(ms, n).None? ==> forall i :: 0 <= i < n ==> !Unanswered(ms, Calls(ms[i]))
  {
    if n > 0 {
      UnresolvedIsUnanswered(ms, n - 1);
    }
  }

  /** The first call without a reply. */
  function FirstOpen(ms: seq<ChatMessage>, calls: seq<ToolCall>): ToolCall
    requires Unanswered(ms, calls)
  {
    if !HasReply(ms, calls[0].id) then calls[0]
    else
      assert Unanswered(ms, calls[1..]) by {
        var i :| 0 <= i < |calls| && !HasReply(ms, calls[i].id);
        assert calls[1..][i - 1] == calls[i];
      }
      FirstOpen(ms, calls[1..])
  }

  lemma {:induction false} FirstOpenAt(ms: seq<ChatMessage>, calls: seq<ToolCall>, i: nat)
    requires i < |calls| && !HasReply(ms, calls[i].id)
    requires forall j :: 0 <= j < i ==> HasReply(ms, calls[j].id)
    ensures Unanswered(ms, calls) && FirstOpen(ms, calls) == calls[i]
  {
    if i > 0 {
      assert HasReply(ms, calls[0].id);
      FirstOpenAt(ms, calls[1..], i - 1);
    }
  }

  /** The call the engine resolves next, if any. */
  function Owed(ms: seq<ChatMessage>): Option<ToolCall> {
    match Unresolved(ms)
    case None => None
    case Some(calls) =>
      UnresolvedIsUnanswered(ms, |ms|);
      Some(FirstOpen(ms, calls))
  }

  lemma {:induction false} UnresolvedAfterReply(ms: seq<ChatMessage>, n: nat, m: ChatMessage)
    requires n <= |ms| && UnresolvedBelow(ms, n).Some?
    requires Unanswered(ms + [m], UnresolvedBelow(ms, n).value)
    ensures UnresolvedBelow(ms + [m], n) == UnresolvedBelow(ms, n)
  {
    if n > 0 {
      var calls := Calls(ms[n - 1]);
      assert (ms + [m])[n - 1] == ms[n - 1];
      if !Unanswered(ms, calls) {
        forall i | 0 <= i < |calls| ensures HasReply(ms + [m], calls[i].id) {
          HasReplyAppend(ms, m, calls[i].id);
        }
        UnresolvedAfterReply(ms, n - 1, m);
      }
    }
  }

  // ---------------------------------------------------------------- transcripts the engine builds

  /** What `_initial_messages` returns: the opening system and user messages. */
  predicate ValidOpening(opening: seq<ChatMessage>) {
    && opening != []
    && AllPlain(opening)
    && forall i :: 0 <= i < |opening| ==> opening[i].role in {System, User} && opening[i].toolCalls.None?
  }

  datatype Response = Response(content: string, calls: seq<ToolCall>)

  /** How a model response enters the transcript. */
  function AssistantMessage(r: Response): ChatMessage {
    ChatMessage(Assistant, r.content, None, None, if r.calls == [] then None else Some(r.calls))
  }

  /** The model has answered without asking for tools. */
  predicate Finished(ms: seq<ChatMessage>) {
    ms != [] && ms[|ms| - 1].role == Assistant && Calls(ms[|ms| - 1]) == []
  }

  /** `m` may follow `ms`: the owed reply or, when nothing is owed, a new model response. */
  ghost predicate Follows(ms: seq<ChatMessage>, m: ChatMessage) {
    match Owed(ms)
    case Some(call) => m == Reply(call.id, m.content)
    case None => !Finished(ms) && exists r :: m == AssistantMessage(r)
  }

  ghost predicate Generated(opening: seq<ChatMessage>, ms: seq<ChatMessage>) {
    || ms == opening
    || (&& |ms| > |opening|
        && Generated(opening, ms[..|ms| - 1])
        && Follows(ms[..|ms| - 1], ms[|ms| - 1]))
  }

  lemma GeneratedAppend(opening: seq<ChatMessage>, ms: seq<ChatMessage>, m: ChatMessage)
    requires Generated(opening, ms) && Follows(ms, m) && |ms| >= |opening|
    ensures Generated(opening, ms + [m])
  {
    assert (ms + [m])[..|ms|] == ms;
  }

  lemma {:induction false} GeneratedIsPlain(opening: seq<ChatMessage>, ms: seq<ChatMessage>)
    requires ValidOpening(opening) && Generated(opening, ms)
    ensures |opening| <= |ms| && ms[..|opening|] == opening && AllPlain(ms)
  {
    if ms != opening {
      var earlier, last := ms[..|ms| - 1], ms[|ms| - 1];
      GeneratedIsPlain(opening, earlier);
      FollowerIsPlain(earlier, last);
      assert ms == earlier + [last];
    }
  }

  lemma FollowerIsPlain(ms: seq<ChatMessage>, m: ChatMessage)
    requires Follows(ms, m)
    ensures Plain(m)
  {
  }

  // ---------------------------------------------------------------- shape of a transcript

  function Ids(calls: seq<ToolCall>): seq<string> {
    seq(|calls|, i requires 0 <= i < |calls| => calls[i].id)
  }

  /** Ids of all requested calls, in order. */
  function CallIds(ms: seq<ChatMessage>): seq<string> {
    if ms == [] then [] else CallIds(ms[..|ms| - 1]) + Ids(Calls(ms[|ms| - 1]))
  }

  /** Ids of all replies, in order. */
  function ReplyIds(ms: seq<ChatMessage>): seq<string> {
    if ms == [] then []
    else
      var last := ms[|ms| - 1];
      ReplyIds(ms[..|ms| - 1]) + if last.role == Tool && last.toolCallId.Some? then [last.toolCallId.value] else []
  }

  /**
    The transcript grammar as an automaton: after the opening come blocks of one assistant message
    followed by the replies to its calls in call order. The value is what the last block still
    lacks; None means that the messages do not fit the grammar.
   */
  function Due(opening: seq<ChatMessage>, ms: seq<ChatMessage>): Option<seq<ToolCall>> {
    if |ms| <= |opening| then (if ms == opening then Some([]) else None)
    else
      var last := ms[|ms| - 1];
      match Due(opening, ms[..|ms| - 1])
      case None => None
      case Some(due) =>
        if due != [] then (if IsReplyTo(last, due[0].id) then Some(due[1..]) else None)
        else if last.role == Assistant then Some(Calls(last))
        else None
  }

  /** The calls of the last assistant message. */
  function LastCalls(ms: seq<ChatMessage>): seq<ToolCall> {
    if ms == [] then []
    else if ms[|ms| - 1].role == Assistant then Calls(ms[|ms| - 1])
    else LastCalls(ms[..|ms| - 1])
  }

  lemma {:induction false} ReplyIdsAreReplies(ms: seq<ChatMessage>, id: string)
    ensures id in ReplyIds(ms) <==> HasReply(ms, id)
  {
    if ms != [] {
      ReplyIdsAreReplies(ms[..|ms| - 1], id);
      assert ms == ms[..|ms| - 1] + [ms[|ms| - 1]];
      HasReplyAppend(ms[..|ms| - 1], ms[|ms| - 1], id);
    }
  }

  lemma {:induction false} CallsAreListed(ms: seq<ChatMessage>, k: nat, i: nat)
    requires k < |ms| && i < |Calls(ms[k])|
    ensures Calls(ms[k])[i].id in CallIds(ms)
  {
    if k < |ms| - 1 {
      CallsAreListed(ms[..|ms| - 1], k, i);
    } else {
      assert Ids(Calls(ms[k]))[i] == Calls(ms[k])[i].id;
    }
  }

  /** The last block splits into answered calls and the calls still due. */
  ghost predicate LastBlock(ms: seq<ChatMessage>, due: seq<ToolCall>) {
    var calls := LastCalls(ms);
    && |due| <= |calls|
    && calls[|calls| - |due|..] == due
    && forall i :: 0 <= i < |calls| - |due| ==> calls[i].id in ReplyIds(ms)
  }

  lemma {:induction false} UnresolvedIsLastBlock(ms: seq<ChatMessage>, n: nat)
    requires n <= |ms| && Unanswered(ms, LastCalls(ms[..n]))
    ensures UnresolvedBelow(ms, n) == Some(LastCalls(ms[..n]))
  {
    if n > 0 && ms[n - 1].role != Assistant {
      assert ms[..n][..n - 1] == ms[..n - 1];
      UnresolvedIsLastBlock(ms, n - 1);
    }
  }

  lemma OwedIsFirstDue(ms: seq<ChatMessage>, due: seq<ToolCall>)
    requires LastBlock(ms, due) && ReplyIds(ms) + Ids(due) == CallIds(ms) && Distinct(CallIds(ms))
    ensures Owed(ms) == if due == [] then None else Some(due[0])
  {
    UnresolvedIsUnanswered(ms, |ms|);
    if due == [] {
      assert ReplyIds(ms) == CallIds(ms);
      forall k, i | 0 <= k < |ms| && 0 <= i < |Calls(ms[k])| ensures HasReply(ms, Calls(ms[k])[i].id) {
        CallsAreListed(ms, k, i);
        ReplyIdsAreReplies(ms, Calls(ms[k])[i].id);
      }
      UnresolvedComesFromMessage(ms, |ms|);
    } else {
      var calls := LastCalls(ms);
      var i := |calls| - |due|;
      assert calls[i] == due[0];
      assert !HasReply(ms, due[0].id) by {
        ReplyIdsAreReplies(ms, due[0].id);
        var at := |ReplyIds(ms)|;
        assert CallIds(ms)[at] == Ids(due)[0];
        assert forall j :: 0 <= j < at ==> ReplyIds(ms)[j] == CallIds(ms)[j];
      }
      forall j | 0 <= j < i ensures HasReply(ms, calls[j].id) { ReplyIdsAreReplies(ms, calls[j].id); }
      FirstOpenAt(ms, calls, i);
      assert ms[..|ms|] == ms;
      UnresolvedIsLastBlock(ms, |ms|);
    }
  }

  lemma {:induction false} UnresolvedComesFromMessage(ms: seq<ChatMessage>, n: nat)
    requires n <= |ms|
    ensures UnresolvedBelow(ms, n).Some? ==> exists k :: 0 <= k < n && Calls(ms[k]) == UnresolvedBelow(ms, n).value
  {
    if n > 0 && !Unanswered(ms, Calls(ms[n - 1])) {
      UnresolvedComesFromMessage(ms, n - 1);
    }
  }

  /** The transcript fits the grammar, and its replies followed by what is still due are the requested calls. */
  ghost predicate WellFormed(opening: seq<ChatMessage>, ms: seq<ChatMessage>, due: seq<ToolCall>) {
    && Due(opening, ms) == Some(due)
    && ReplyIds(ms) + Ids(due) == CallIds(ms)
    && LastBlock(ms, due)
  }

  lemma ReplyKeepsForm(opening: seq<ChatMessage>, ms: seq<ChatMessage>, m: ChatMessage, due: seq<ToolCall>)
    requires |ms| >= |opening| && WellFormed(opening, ms, due) && due != [] && m == Reply(due[0].id, m.content)
    ensures WellFormed(opening, ms + [m], due[1..])
  {
    var ms', calls := ms + [m], LastCalls(ms);
    assert ms'[..|ms|] == ms;
    assert Ids(due) == [due[0].id] + Ids(due[1..]);
    assert ReplyIds(ms') == ReplyIds(ms) + [due[0].id];
    assert CallIds(ms') == CallIds(ms);
    assert LastCalls(ms') == calls;
    assert calls[|calls| - |due|] == due[0];
  }

  lemma ResponseKeepsForm(opening: seq<ChatMessage>, ms: seq<ChatMessage>, m: ChatMessage)
    requires |ms| >= |opening| && WellFormed(opening, ms, []) && m.role == Assistant
    ensures WellFormed(opening, ms + [m], Calls(m))
  {
    assert (ms + [m])[..|ms|] == ms;
    assert Ids([]) == [];
  }

  /**
    Well-formedness: with distinct call ids, every transcript the engine builds fits the grammar,
    and the replies followed by what is still due are the requested calls, in order.
   */
  lemma {:induction false} GeneratedIsWellFormed(opening: seq<ChatMessage>, ms: seq<ChatMessage>)
    requires ValidOpening(opening) && Generated(opening, ms) && Distinct(CallIds(ms))
    ensures Due(opening, ms).Some? && WellFormed(opening, ms, Due(opening, ms).value)
  {
    if ms == opening {
      OpeningHasNoCalls(opening);
    } else {
      var earlier, last := ms[..|ms| - 1], ms[|ms| - 1];
      assert ms == earlier + [last];
      EarlierIdsDistinct(ms);
      GeneratedIsWellFormed(opening, earlier);
      FollowerKeepsForm(opening, earlier, last, Due(opening, earlier).value);
    }
  }

  lemma EarlierIdsDistinct(ms: seq<ChatMessage>)
    requires ms != [] && Distinct(CallIds(ms))
    ensures Distinct(CallIds(ms[..|ms| - 1]))
  {
    var earlier := ms[..|ms| - 1];
    assert forall i :: 0 <= i < |CallIds(earlier)| ==> CallIds(earlier)[i] == CallIds(ms)[i];
  }

  lemma FollowerKeepsForm(opening: seq<ChatMessage>, ms: seq<ChatMessage>, m: ChatMessage, due: seq<ToolCall>)
    requires |ms| >= |opening| && WellFormed(opening, ms, due) && Distinct(CallIds(ms)) && Follows(ms, m)
    ensures Due(opening, ms + [m]).Some? && WellFormed(opening, ms + [m], Due(opening, ms + [m]).value)
  {
    OwedIsFirstDue(ms, due);
    if due != [] {
      ReplyKeepsForm(opening, ms, m, due);
    } else {
      ResponseKeepsForm(opening, ms, m);
    }
  }

  lemma {:induction false} OpeningHasNoCalls(opening: seq<ChatMessage>)
    requires forall i :: 0 <= i < |opening| ==> opening[i].role in {System, User}
    ensures CallIds(opening) == [] && ReplyIds(opening) == [] && LastCalls(opening) == []
  {
    if opening != [] {
      OpeningHasNoCalls(opening[..|opening| - 1]);
    }
  }
}
