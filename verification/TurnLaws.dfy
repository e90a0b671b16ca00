/**
  What ends a chat turn and what it leaves behind, said in the terms of the stored rows, of the model's responses and
  of the histories it was sent.
 */
module TurnLaws {
  import opened Approvals
  import opened Base
  import opened ChatTurns
  import opened Transcript
  import Chat
  import ChatLaws
  import Conversations
  import Rows

  // ---------------------------------------------------------------- repeated failures

  /** Result `r` is the last one stored for call `c`, and says that its tool reported an error or is not attached. */
  predicate LastSaysError(env: Env, t: Chat.Tables, c: nat, r: nat)
    requires c < |t.calls| && r < |t.results|
  {
    && t.results[r].callId == t.calls[c].id
    && (forall q :: r < q < |t.results| ==> t.results[q].callId != t.calls[c].id)
    && match t.results[r].content
       case Output(text) => env.isError(text)
       case NotAttached => true
       case DeniedByPerson => false
       case DeniedByPolicy => false
  }

  predicate FailedCall(env: Env, finished: seq<Chat.Tables>, m: nat, c: nat) {
    && m < |finished| && c < |finished[m].calls|
    && exists r :: 0 <= r < |finished[m].results| && LastSaysError(env, finished[m], c, r)
  }

  /** Two calls ask the same tool for the same thing. */
  predicate SameRequest(env: Env, one: ToolCall, other: ToolCall) {
    one.name == other.name && env.canonical(one.arguments) == env.canonical(other.arguments)
  }

  /** No canonical text ends in a colon and another one, as no two JSON texts of objects do. */
  ghost predicate TextsApart(env: Env) {
    forall x, y, u :: env.canonical(x) != u + ":" + env.canonical(y)
  }

  /** Two different calls of finished messages failed, and the texts of their tools and arguments are equal. */
  ghost predicate SameTextTwice(env: Env, finished: seq<Chat.Tables>, m: nat, c: nat, m': nat, d: nat) {
    && (m != m' || c != d) && FailedCall(env, finished, m, c) && FailedCall(env, finished, m', d)
    && (var one, other := finished[m].calls[c], finished[m'].calls[d];
        one.name + "::" + env.canonical(one.arguments) == other.name + "::" + env.canonical(other.arguments))
  }

  ghost predicate SameRequestTwice(env: Env, finished: seq<Chat.Tables>, m: nat, c: nat, m': nat, d: nat) {
    && (m != m' || c != d) && FailedCall(env, finished, m, c) && FailedCall(env, finished, m', d)
    && SameRequest(env, finished[m].calls[c], finished[m'].calls[d])
  }

  lemma {:induction false} LastResult(results: seq<Chat.ResultRow>, id: string)
    ensures match ResultOf(results, id)
            case None => forall r :: 0 <= r < |results| ==> results[r].callId != id
            case Some(content) =>
              exists r :: 0 <= r < |results| && results[r] == Chat.ResultRow(id, content) && NoneAfter(results, id, r)
  {
    if results != [] {
      var n := |results| - 1;
      LastResult(results[..n], id);
      if results[n].callId == id {
        assert NoneAfter(results, id, n);
      } else if ResultOf(results[..n], id).Some? {
        var content := ResultOf(results[..n], id).value;
        var r :| 0 <= r < n && results[..n][r] == Chat.ResultRow(id, content) && NoneAfter(results[..n], id, r);
        assert NoneAfter(results, id, r);
      }
    }
  }

  predicate NoneAfter(results: seq<Chat.ResultRow>, id: string, r: nat) {
    forall q :: r < q < |results| ==> results[q].callId != id
  }

  lemma FailsIffLastSaysError(env: Env, t: Chat.Tables, c: nat)
    requires c < |t.calls|
    ensures Fails(env, t, t.calls[c]) <==> exists r :: 0 <= r < |t.results| && LastSaysError(env, t, c, r)
  {
    LastResult(t.results, t.calls[c].id);
    match ResultOf(t.results, t.calls[c].id)
    case None =>
    case Some(content) =>
      var r :| 0 <= r < |t.results| && t.results[r] == Chat.ResultRow(t.calls[c].id, content)
               && NoneAfter(t.results, t.calls[c].id, r);
      forall q | 0 <= q < |t.results| && LastSaysError(env, t, c, q) ensures q == r {
        assert NoneAfter(t.results, t.calls[c].id, r);
      }
      assert Fails(env, t, t.calls[c]) <==> LastSaysError(env, t, c, r);
  }

  /** Call `c` of the list failed, and `signature` is its tool and arguments. */
  predicate FailedAs(env: Env, t: Chat.Tables, calls: seq<ToolCall>, signature: string, c: nat) {
    c < |calls| && Fails(env, t, calls[c]) && Signature(env, calls[c]) == signature
  }

  lemma {:induction false} FailureIsSomewhere(env: Env, t: Chat.Tables, calls: seq<ToolCall>, signature: string)
    ensures Failures(env, t, calls, signature) >= 1 <==> exists c: nat :: FailedAs(env, t, calls, signature, c)
  {
    if calls != [] {
      FailureIsSomewhere(env, t, calls[1..], signature);
      if FailedAs(env, t, calls, signature, 0) {
      } else if Failures(env, t, calls, signature) >= 1 {
        var c: nat :| FailedAs(env, t, calls[1..], signature, c);
        assert FailedAs(env, t, calls, signature, c + 1);
      } else {
        forall c: nat ensures !FailedAs(env, t, calls, signature, c) {
          assert c > 0 ==> !FailedAs(env, t, calls[1..], signature, c - 1);
        }
      }
    }
  }

  predicate FailedTwiceAs(env: Env, t: Chat.Tables, calls: seq<ToolCall>, signature: string, c: nat, d: nat) {
    c < d && FailedAs(env, t, calls, signature, c) && FailedAs(env, t, calls, signature, d)
  }

  lemma {:induction false} TwoFailuresAreSomewhere(env: Env, t: Chat.Tables, calls: seq<ToolCall>, signature: string)
    ensures Failures(env, t, calls, signature) >= 2 <==>
            exists c: nat, d: nat :: FailedTwiceAs(env, t, calls, signature, c, d)
  {
    if calls != [] {
      var rest := calls[1..];
      FailureIsSomewhere(env, t, rest, signature);
      TwoFailuresAreSomewhere(env, t, rest, signature);
      if Failures(env, t, calls, signature) >= 2 {
        if Failures(env, t, rest, signature) >= 2 {
          var c: nat, d: nat :| FailedTwiceAs(env, t, rest, signature, c, d);
          assert FailedTwiceAs(env, t, calls, signature, c + 1, d + 1);
        } else {
          var d: nat :| FailedAs(env, t, rest, signature, d);
          assert FailedTwiceAs(env, t, calls, signature, 0, d + 1);
        }
      }
      forall c: nat, d: nat | FailedTwiceAs(env, t, calls, signature, c, d)
        ensures Failures(env, t, calls, signature) >= 2
      {
        assert FailedAs(env, t, rest, signature, d - 1);
        assert c > 0 ==> FailedTwiceAs(env, t, rest, signature, c - 1, d - 1);
      }
    }
  }

  /** Call `c` of finished message `m` failed as `signature`. */
  predicate FailedIn(env: Env, finished: seq<Chat.Tables>, signature: string, m: nat, c: nat) {
    m < |finished| && FailedAs(env, finished[m], finished[m].calls, signature, c)
  }

  lemma {:induction false} TurnFailureIsSomewhere(env: Env, finished: seq<Chat.Tables>, signature: string)
    ensures TurnFailures(env, finished, signature) >= 1 <==>
            exists m: nat, c: nat :: FailedIn(env, finished, signature, m, c)
  {
    if finished != [] {
      var n := |finished| - 1;
      var t := finished[n];
      TurnFailureIsSomewhere(env, finished[..n], signature);
      FailureIsSomewhere(env, t, t.calls, signature);
      if Failures(env, t, t.calls, signature) >= 1 {
        var c: nat :| FailedAs(env, t, t.calls, signature, c);
        assert FailedIn(env, finished, signature, n, c);
      } else if TurnFailures(env, finished[..n], signature) >= 1 {
        var m: nat, c: nat :| FailedIn(env, finished[..n], signature, m, c);
        assert FailedIn(env, finished, signature, m, c);
      } else {
        forall m: nat, c: nat ensures !FailedIn(env, finished, signature, m, c) {
          assert m < n ==> !FailedIn(env, finished[..n], signature, m, c);
        }
      }
    }
  }

  predicate FailedTwiceIn(env: Env, finished: seq<Chat.Tables>, signature: string, m: nat, c: nat, m': nat, d: nat) {
    (m != m' || c != d) && FailedIn(env, finished, signature, m, c) && FailedIn(env, finished, signature, m', d)
  }

  lemma {:induction false} RepetitionIsSomewhere(env: Env, finished: seq<Chat.Tables>, signature: string)
    ensures TurnFailures(env, finished, signature) >= 2 <==>
            exists m: nat, c: nat, m': nat, d: nat :: FailedTwiceIn(env, finished, signature, m, c, m', d)
  {
    if finished != [] {
      var n := |finished| - 1;
      var t, earlier := finished[n], finished[..n];
      RepetitionIsSomewhere(env, earlier, signature);
      TurnFailureIsSomewhere(env, earlier, signature);
      FailureIsSomewhere(env, t, t.calls, signature);
      TwoFailuresAreSomewhere(env, t, t.calls, signature);
      if TurnFailures(env, finished, signature) >= 2 {
        if Failures(env, t, t.calls, signature) >= 2 {
          var c: nat, d: nat :| FailedTwiceAs(env, t, t.calls, signature, c, d);
          assert FailedTwiceIn(env, finished, signature, n, c, n, d);
        } else if TurnFailures(env, earlier, signature) >= 2 {
          var m: nat, c: nat, m': nat, d: nat :| FailedTwiceIn(env, earlier, signature, m, c, m', d);
          assert FailedTwiceIn(env, finished, signature, m, c, m', d);
        } else {
          var m: nat, c: nat :| FailedIn(env, earlier, signature, m, c);
          var d: nat :| FailedAs(env, t, t.calls, signature, d);
          assert FailedTwiceIn(env, finished, signature, m, c, n, d);
        }
      }
      forall m: nat, c: nat, m': nat, d: nat | FailedTwiceIn(env, finished, signature, m, c, m', d)
        ensures TurnFailures(env, finished, signature) >= 2
      {
        if m == n && m' == n {
          assert FailedTwiceAs(env, t, t.calls, signature, if c < d then c else d, if c < d then d else c);
        } else {
          PairBelow(env, finished, signature, m, c, m', d);
        }
      }
    }
  }

  lemma PairBelow(env: Env, finished: seq<Chat.Tables>, signature: string, m: nat, c: nat, m': nat, d: nat)
    requires FailedTwiceIn(env, finished, signature, m, c, m', d) && (m < |finished| - 1 || m' < |finished| - 1)
    ensures TurnFailures(env, finished, signature) >= 2
  {
    var n := |finished| - 1;
    var earlier := finished[..n];
    TurnFailureIsSomewhere(env, earlier, signature);
    FailureIsSomewhere(env, finished[n], finished[n].calls, signature);
    if m < n {
      assert FailedIn(env, earlier, signature, m, c);
    }
    if m' < n {
      assert FailedIn(env, earlier, signature, m', d);
    }
    if m < n && m' < n {
      assert FailedTwiceIn(env, earlier, signature, m, c, m', d);
      RepetitionIsSomewhere(env, earlier, signature);
    }
  }

  lemma FailedInIff(env: Env, finished: seq<Chat.Tables>, signature: string, m: nat, c: nat)
    ensures FailedIn(env, finished, signature, m, c) <==>
            && FailedCall(env, finished, m, c)
            && finished[m].calls[c].name + "::" + env.canonical(finished[m].calls[c].arguments) == signature
  {
    if m < |finished| && c < |finished[m].calls| {
      FailsIffLastSaysError(env, finished[m], c);
    }
  }

  /**
    A turn stops for a repeated failure exactly when two different calls of the messages it finished have the same text
    of tool and arguments, and the last result stored for each says that its tool reported an error or is not attached.
   */
  lemma RepetitionStopsTurnIff(env: Env, limit: nat, v: View, rows: seq<Row>)
    ensures var (s, ending) := Turn(env, limit, Opening(v, rows));
            ending == RepeatedFailure <==>
            exists m: nat, c: nat, m': nat, d: nat :: SameTextTwice(env, s.finished, m, c, m', d)
  {
    var (s, ending) := Turn(env, limit, Opening(v, rows));
    RepetitionStopsTurn(env, limit, v, rows);
    RepeatedIff(env, s.finished);
  }

  lemma RepeatedIff(env: Env, finished: seq<Chat.Tables>)
    ensures Repeated(env, finished) <==>
            exists m: nat, c: nat, m': nat, d: nat :: SameTextTwice(env, finished, m, c, m', d)
  {
    if Repeated(env, finished) {
      var signature :| TurnFailures(env, finished, signature) >= 2;
      RepetitionIsSomewhere(env, finished, signature);
      var m: nat, c: nat, m': nat, d: nat :| FailedTwiceIn(env, finished, signature, m, c, m', d);
      FailedInIff(env, finished, signature, m, c);
      FailedInIff(env, finished, signature, m', d);
      assert SameTextTwice(env, finished, m, c, m', d);
    }
    forall m: nat, c: nat, m': nat, d: nat | SameTextTwice(env, finished, m, c, m', d) ensures Repeated(env, finished) {
      var one := finished[m].calls[c];
      var signature := one.name + "::" + env.canonical(one.arguments);
      FailedInIff(env, finished, signature, m, c);
      FailedInIff(env, finished, signature, m', d);
      assert FailedTwiceIn(env, finished, signature, m, c, m', d);
      RepetitionIsSomewhere(env, finished, signature);
    }
  }

  lemma LongerName(env: Env, one: ToolCall, other: ToolCall)
    requires one.name + "::" + env.canonical(one.arguments) == other.name + "::" + env.canonical(other.arguments)
    requires |one.name| < |other.name|
    ensures exists u :: env.canonical(one.arguments) == u + ":" + env.canonical(other.arguments)
  {
    var a, b, d := env.canonical(one.arguments), env.canonical(other.arguments), |other.name| - |one.name|;
    var text := one.name + "::" + a;
    assert a == text[|one.name| + 2..] && b == text[|other.name| + 2..];
    assert text[|other.name| + 1] == ':' by { assert (other.name + "::" + b)[|other.name| + 1] == ':'; }
    assert a == a[..d - 1] + ":" + b;
  }

  /** Where canonical texts are apart, equal texts come from equal names and equal canonical arguments. */
  lemma SameTextIff(env: Env, one: ToolCall, other: ToolCall)
    requires TextsApart(env)
    ensures one.name + "::" + env.canonical(one.arguments) == other.name + "::" + env.canonical(other.arguments) <==>
            SameRequest(env, one, other)
  {
    var a, b := env.canonical(one.arguments), env.canonical(other.arguments);
    var text, text' := one.name + "::" + a, other.name + "::" + b;
    if text == text' {
      if |one.name| < |other.name| {
        LongerName(env, one, other);
      } else if |other.name| < |one.name| {
        LongerName(env, other, one);
      } else {
        assert text[..|one.name|] == one.name && text'[..|one.name|] == other.name;
        assert text[|one.name| + 2..] == a && text'[|one.name| + 2..] == b;
      }
    }
  }

  /** With canonical texts apart: the same tool with the same arguments. */
  lemma SameRequestStopsTurnIff(env: Env, limit: nat, v: View, rows: seq<Row>)
    requires TextsApart(env)
    ensures var (s, ending) := Turn(env, limit, Opening(v, rows));
            ending == RepeatedFailure <==>
            exists m: nat, c: nat, m': nat, d: nat :: SameRequestTwice(env, s.finished, m, c, m', d)
  {
    var (s, ending) := Turn(env, limit, Opening(v, rows));
    RepetitionStopsTurnIff(env, limit, v, rows);
    forall m: nat, c: nat, m': nat, d: nat
      ensures SameTextTwice(env, s.finished, m, c, m', d) <==> SameRequestTwice(env, s.finished, m, c, m', d)
    {
      if FailedCall(env, s.finished, m, c) && FailedCall(env, s.finished, m', d) {
        SameTextIff(env, s.finished[m].calls[c], s.finished[m'].calls[d]);
      }
    }
  }

  // ---------------------------------------------------------------- what a turn leaves

  /** Message `r` as iteration `k` leaves it when `now` messages exist: its calls walked once over from the tables `t`,
      new results stamped, and complete exactly when every call is answered. */
  ghost predicate WalkedRow(env: Env, k: nat, t: Chat.Tables, stamps: seq<nat>, now: nat, r: Row) {
    && r.ToolMessage?
    && ChatLaws.WalkLaw(t, env.config, env.policies(k), env.output(k), r.tables)
    && stamps <= r.stamps && |r.stamps| == |r.tables.results|
    && (forall j :: |stamps| <= j < |r.stamps| ==> r.stamps[j] == now)
    && (r.complete <==> |r.tables.results| == |r.tables.calls|)
  }

  /** The message that iteration `k` adds as number `at`. */
  ghost predicate AddedRow(env: Env, k: nat, at: nat, r: Row) {
    match env.model(k)
    case None => false
    case Some(calls) =>
      if calls == [] then r == Answer
      else WalkedRow(env, k, Chat.Tables(calls, [], [], []), [], at + 1, r) && r.tables.calls == calls
  }

  ghost predicate AddedRows(env: Env, first: nat, rows: seq<Row>, rows': seq<Row>) {
    && |rows| <= |rows'|
    && forall j: nat :: |rows| <= j < |rows'| ==> AddedRow(env, first + j - |rows|, j, rows'[j])
  }

  /** Request `j` shows the messages there were before the turn and the `j` it had added. */
  ghost predicate Requests(v: View, asked: seq<Sent>, rows: seq<Row>, asked': seq<Sent>, rows': seq<Row>) {
    && asked <= asked'
    && forall j: nat :: |asked| <= j < |asked'| ==> Shows(v, asked'[j], rows', |rows| + j - |asked|)
  }

  /** The request shows the first `n` messages. */
  ghost predicate Shows(v: View, sent: Sent, rows: seq<Row>, n: nat) {
    n <= |rows| && sent == Sent(v, rows[..n])
  }

  /** The messages of `after` whose calls are answered there and were not in `before`, in order, up to number `n`. */
  ghost function NewlyAnswered(before: seq<Row>, after: seq<Row>, n: nat): seq<Chat.Tables>
    requires n <= |after|
  {
    if n == 0 then []
    else
      NewlyAnswered(before, after, n - 1) +
        if after[n - 1].ToolMessage? && Settled(after[n - 1]) && (n - 1 < |before| ==> !Settled(before[n - 1]))
        then [after[n - 1].tables] else []
  }

  /** The message a turn takes up again: visible, with unanswered calls. */
  ghost predicate TakesUp(v: View, rows: seq<Row>, i: nat) {
    i < |rows| && Visible(v, i) && rows[i].ToolMessage? && !Settled(rows[i])
  }

  /** Messages that were there before: at most the one taken up has changed, and that one is walked. */
  ghost predicate OldRows(env: Env, v: View, rows: seq<Row>, rows': seq<Row>) {
    && |rows| <= |rows'|
    && forall i: nat :: i < |rows| ==>
         if TakesUp(v, rows, i) then WalkedRow(env, 0, rows[i].tables, rows[i].stamps, |rows|, rows'[i])
         else rows'[i] == rows[i]
  }

  /** The iterations that ask nothing: the first one, when it takes a message up. */
  ghost function First(s: State): nat {
    if VisibleSettled(s.view, s.rows) then 0 else 1
  }

  /**
    The iterations so far: the first takes up the unanswered message there is, any other asks the model and adds what
    it says; nothing else happens to the messages.
   */
  ghost predicate Progress(env: Env, s: State, t: State) {
    && t.view == s.view
    && OldRows(env, s.view, s.rows, t.rows)
    && AddedRows(env, First(s), s.rows, t.rows)
    && Requests(s.view, s.asked, s.rows, t.asked, t.rows)
    && t.finished == s.finished + NewlyAnswered(s.rows, t.rows, |t.rows|)
  }

  /** How many iterations there have been, and why there is no next one. */
  ghost predicate EndsFor(env: Env, limit: nat, s: State, t: State, ending: Ending) {
    var asked, added := |t.asked| - |s.asked|, |t.rows| - |s.rows|;
    && asked >= 0
    && match ending
       case TooManySteps => added == asked && First(s) + asked == limit
       case ModelFailed => First(s) + asked <= limit && added == asked - 1 >= 0 && env.model(First(s) + asked - 1).None?
       case Answered => First(s) + asked <= limit && added == asked >= 1 && env.model(First(s) + asked - 1) == Some([])
       case RepeatedFailure => First(s) + asked <= limit && added == asked
       case Blocked => First(s) + asked <= limit && added == asked && exists i :: TakesUp(s.view, t.rows, i)
  }

  lemma FinishWalks(env: Env, k: nat, s: State, i: nat)
    requires i < |s.rows| && s.rows[i].ToolMessage? && RowOk(s.rows[i]) && !Settled(s.rows[i])
    ensures var (s', ending) := FinishMessage(env, k, s, i);
            && WalkedRow(env, k, s.rows[i].tables, s.rows[i].stamps, |s.rows|, s'.rows[i])
            && s' == s.(rows := s.rows[i := s'.rows[i]], counts := s'.counts, finished := s'.finished)
            && s'.finished == s.finished + (if Settled(s'.rows[i]) then [s'.rows[i].tables] else [])
            && (ending == Some(Blocked) <==> !Settled(s'.rows[i]))
            && ending in {None, Some(Blocked), Some(RepeatedFailure)}
  {
    var was := s.rows[i].tables;
    var t := Chat.Walk(was, env.config, 0, env.policies(k), env.output(k));
    ChatLaws.WalkIsLawful(was, env.config, env.policies(k), env.output(k));
    Chat.WalkResolvesWhatItCan(was, env.config, 0, env.policies(k), env.output(k));
    Chat.UnresolvedIffShort(t);
  }

  lemma {:induction false} NothingNewlyAnswered(rows: seq<Row>, rows': seq<Row>, n: nat)
    requires n <= |rows| && n <= |rows'|
    requires forall j: nat :: j < n && rows'[j].ToolMessage? && Settled(rows'[j]) ==> Settled(rows[j])
    ensures NewlyAnswered(rows, rows', n) == []
  {
    if n > 0 {
      NothingNewlyAnswered(rows, rows', n - 1);
    }
  }

  lemma {:induction false} OneNewlyAnswered(rows: seq<Row>, rows': seq<Row>, i: nat, n: nat)
    requires i < n <= |rows| == |rows'| && rows' == rows[i := rows'[i]]
    requires rows[i].ToolMessage? && !Settled(rows[i]) && rows'[i].ToolMessage?
    ensures NewlyAnswered(rows, rows', n) == if Settled(rows'[i]) then [rows'[i].tables] else []
  {
    if i == n - 1 {
      NothingNewlyAnswered(rows, rows', i);
    } else {
      OneNewlyAnswered(rows, rows', i, n - 1);
    }
  }

  lemma {:induction false} NewlyAnsweredPrefix(rows: seq<Row>, one: seq<Row>, other: seq<Row>, n: nat)
    requires n <= |one| && n <= |other| && one[..n] == other[..n]
    ensures NewlyAnswered(rows, one, n) == NewlyAnswered(rows, other, n)
  {
    if n > 0 {
      assert one[..n][n - 1] == other[..n][n - 1];
      assert one[..n - 1] == one[..n][..n - 1] == other[..n - 1];
      NewlyAnsweredPrefix(rows, one, other, n - 1);
    }
  }

  /** What an iteration finds: nothing has happened yet, or every visible message is answered. */
  ghost predicate Between(env: Env, s: State, k: nat, t: State) {
    if k == 0 then t == s
    else
      && Progress(env, s, t)
      && VisibleSettled(s.view, t.rows)
      && k == First(s) + |t.asked| - |s.asked|
      && |t.rows| - |s.rows| == |t.asked| - |s.asked|
  }

  ghost predicate Over(env: Env, limit: nat, s: State, t: State, ending: Ending) {
    if limit == 0 then t == s && ending == TooManySteps
    else Progress(env, s, t) && EndsFor(env, limit, s, t, ending)
  }

  lemma OnlyOneTakenUp(v: View, rows: seq<Row>, i: nat)
    requires VisibleOk(v, rows) && FindUnresolved(v, rows) == Some(i)
    ensures TakesUp(v, rows, i) && RowOk(rows[i]) && !VisibleSettled(v, rows)
    ensures forall j: nat :: TakesUp(v, rows, j) ==> j == i
  {
    FindsWhatIsOpen(v, rows);
  }

  lemma ResumeProgresses(env: Env, limit: nat, s: State, i: nat)
    requires WellBehaved(env) && VisibleOk(s.view, s.rows) && limit > 0
    requires FindUnresolved(s.view, s.rows) == Some(i)
    ensures var (t, ending) := FinishMessage(env, 0, s, i);
            if ending.Some? then Over(env, limit, s, t, ending.value) else Between(env, s, 1, t)
  {
    var (t, ending) := FinishMessage(env, 0, s, i);
    OnlyOneTakenUp(s.view, s.rows, i);
    FinishWalks(env, 0, s, i);
    OneNewlyAnswered(s.rows, t.rows, i, |s.rows|);
    assert OldRows(env, s.view, s.rows, t.rows);
    if ending == Some(Blocked) {
      assert TakesUp(s.view, t.rows, i);
    }
  }

  lemma RequestMade(s: State, t: State)
    requires Requests(s.view, s.asked, s.rows, t.asked, t.rows) && t.view == s.view
    requires |t.rows| - |s.rows| == |t.asked| - |s.asked|
    ensures Requests(s.view, s.asked, s.rows, t.asked + [Sent(s.view, t.rows)], t.rows)
  {
    assert t.rows[..|t.rows|] == t.rows;
  }

  lemma RowAdded(s: State, asked: seq<Sent>, rows: seq<Row>, r: Row)
    requires Requests(s.view, s.asked, s.rows, asked, rows)
    ensures Requests(s.view, s.asked, s.rows, asked, rows + [r])
  {
    forall j: nat | |s.asked| <= j < |asked|
      ensures Shows(s.view, asked[j], rows + [r], |s.rows| + j - |s.asked|)
    {
      assert Shows(s.view, asked[j], rows, |s.rows| + j - |s.asked|);
      assert (rows + [r])[..|s.rows| + j - |s.asked|] == rows[..|s.rows| + j - |s.asked|];
    }
  }

  lemma AnsweredAdded(before: seq<Row>, was: seq<Chat.Tables>, rows: seq<Row>, r: Row, finished: seq<Chat.Tables>)
    requires |before| <= |rows| && finished == was + NewlyAnswered(before, rows, |rows|)
    ensures finished + (if r.ToolMessage? && Settled(r) then [r.tables] else []) ==
            was + NewlyAnswered(before, rows + [r], |rows + [r]|)
  {
    assert (rows + [r])[..|rows|] == rows[..|rows|];
    NewlyAnsweredPrefix(before, rows + [r], rows, |rows|);
  }

  /** One more message, and the request that brought it. */
  lemma MessageAdded(env: Env, s: State, k: nat, t: State, r: Row, t': State)
    requires Progress(env, s, t) && |t.rows| - |s.rows| == |t.asked| - |s.asked|
    requires k == First(s) + |t.asked| - |s.asked|
    requires AddedRow(env, k, |t.rows|, r)
    requires t' == State(t.view, t.rows + [r], t'.counts,
                         t.finished + (if r.ToolMessage? && Settled(r) then [r.tables] else []),
                         t.asked + [Sent(t.view, t.rows)])
    ensures Progress(env, s, t')
  {
    RequestMade(s, t);
    RowAdded(s, t'.asked, t.rows, r);
    AnsweredAdded(s.rows, s.finished, t.rows, r, t.finished);
    OldRowsStay(env, s.view, s.rows, t.rows, r);
    AddedRowsGrow(env, First(s), s.rows, t.rows, r);
  }

  lemma OldRowsStay(env: Env, v: View, before: seq<Row>, rows: seq<Row>, r: Row)
    requires OldRows(env, v, before, rows)
    ensures OldRows(env, v, before, rows + [r])
  {
  }

  lemma AddedRowsGrow(env: Env, first: nat, before: seq<Row>, rows: seq<Row>, r: Row)
    requires AddedRows(env, first, before, rows) && AddedRow(env, first + |rows| - |before|, |rows|, r)
    ensures AddedRows(env, first, before, rows + [r])
  {
    forall j: nat | |before| <= j < |rows + [r]| ensures AddedRow(env, first + j - |before|, j, (rows + [r])[j]) {
      if j < |rows| {
        assert AddedRow(env, first + j - |before|, j, rows[j]);
      }
    }
  }

  lemma NewMessageWalked(env: Env, k: nat, t: State, calls: seq<ToolCall>)
    requires calls != [] && Distinct(Ids(calls)) && env.model(k) == Some(calls)
    ensures var (t', ending) := AskModel(env, k, t);
            && |t'.rows| == |t.rows| + 1 && t'.rows[|t.rows|].ToolMessage?
            && AddedRow(env, k, |t.rows|, t'.rows[|t.rows|])
            && t' == State(t.view, t.rows + [t'.rows[|t.rows|]], t'.counts,
                           t.finished + (if Settled(t'.rows[|t.rows|]) then [t'.rows[|t.rows|].tables] else []),
                           t.asked + [Sent(t.view, t.rows)])
            && (ending == Some(Blocked) <==> !Settled(t'.rows[|t.rows|]))
            && ending in {None, Some(Blocked), Some(RepeatedFailure)}
  {
    var mid := t.(rows := t.rows + [NewMessage(calls)], asked := t.asked + [Sent(t.view, t.rows)]);
    Chat.FreshInv(calls);
    Chat.UnresolvedIffShort(Chat.Fresh(calls).tables);
    FinishWalks(env, k, mid, |t.rows|);
    var t' := FinishMessage(env, k, mid, |t.rows|).0;
    assert t'.rows == t.rows + [t'.rows[|t.rows|]];
  }

  lemma AskProgresses(env: Env, limit: nat, s: State, k: nat, t: State)
    requires WellBehaved(env) && VisibleSettled(s.view, t.rows) && k < limit
    requires Later(s.view.before, t.rows)
    requires Progress(env, s, t) && |t.rows| - |s.rows| == |t.asked| - |s.asked|
    requires k == First(s) + |t.asked| - |s.asked|
    ensures var (t', ending) := AskModel(env, k, t);
            if ending.Some? then Over(env, limit, s, t', ending.value) else Between(env, s, k + 1, t')
  {
    var (t', ending) := AskModel(env, k, t);
    match env.model(k)
    case None => RequestMade(s, t);
    case Some(calls) =>
      if calls == [] {
        MessageAdded(env, s, k, t, Answer, t');
      } else {
        NewMessageWalked(env, k, t, calls);
        MessageAdded(env, s, k, t, t'.rows[|t.rows|], t');
        if ending == Some(Blocked) {
          assert TakesUp(s.view, t'.rows, |t.rows|);
        }
      }
  }

  lemma IterationProgresses(env: Env, limit: nat, s: State, k: nat, t: State)
    requires WellBehaved(env) && VisibleOk(s.view, s.rows) && Later(s.view.before, s.rows) && k < limit
    requires Between(env, s, k, t) && VisibleOk(s.view, t.rows) && Later(s.rows, t.rows)
    ensures var (t', ending) := Iteration(env, k, t);
            if ending.Some? then Over(env, limit, s, t', ending.value) else Between(env, s, k + 1, t')
  {
    FindsWhatIsOpen(s.view, t.rows);
    LaterStays(s.view.before, s.rows, t.rows);
    if FindUnresolved(s.view, t.rows).Some? {
      ResumeProgresses(env, limit, s, FindUnresolved(s.view, s.rows).value);
    } else {
      if k == 0 {
        NothingHappened(env, s);
      }
      AskProgresses(env, limit, s, k, t);
    }
  }

  lemma NothingHappened(env: Env, s: State)
    requires VisibleSettled(s.view, s.rows)
    ensures Progress(env, s, s)
  {
    NothingNewlyAnswered(s.rows, s.rows, |s.rows|);
  }

  /** What a turn knows of its messages while it runs. */
  ghost function Underway(env: Env, s: State): (nat, State) -> bool {
    (k: nat, t: State) => Between(env, s, k, t) && Grows(s, t, k)
  }

  ghost function Ends(env: Env, limit: nat, s: State): (State, Ending) -> bool {
    (t: State, ending: Ending) => Over(env, limit, s, t, ending)
  }

  lemma IterationStaysUnderway(env: Env, limit: nat, s: State, k: nat, t: State)
    requires WellBehaved(env) && VisibleOk(s.view, s.rows) && Later(s.view.before, s.rows) && k < limit
    requires Between(env, s, k, t) && Grows(s, t, k)
    ensures var (t', ending) := Iteration(env, k, t);
            if ending.Some? then Ends(env, limit, s)(t', ending.value) else Underway(env, s)(k + 1, t')
  {
    LaterStays(s.view.before, s.rows, t.rows);
    IterationGrows(env, k, t);
    GrowsTwice(s, t, Iteration(env, k, t).0, k, 1, k + 1);
    IterationProgresses(env, limit, s, k, t);
  }

  lemma StepStaysUnderway(env: Env, limit: nat, s: State, k: nat, t: State)
    requires WellBehaved(env) && VisibleOk(s.view, s.rows) && Later(s.view.before, s.rows) && k < limit
    ensures KeepsOrEnds(Iterations(env), Underway(env, s), Ends(env, limit, s), k, t)
  {
    assert Iterations(env)(k, t) == Iteration(env, k, t);
    if Underway(env, s)(k, t) {
      IterationStaysUnderway(env, limit, s, k, t);
    }
  }

  /**
    A whole turn: its first iteration takes up the unanswered message it sees, if there is one, and walks its calls;
    each other asks the model, with the messages there are, and adds the answer or the message it gets, its calls
    walked under that iteration's policies and outputs. Nothing else changes, and the ending says which of these was
    the last, or that none was left.
   */
  lemma TurnIsLawful(env: Env, limit: nat, s: State)
    requires WellBehaved(env) && VisibleOk(s.view, s.rows) && Later(s.view.before, s.rows)
    ensures var (t, ending) := Turn(env, limit, s); Over(env, limit, s, t, ending)
  {
    var inv, ends := Underway(env, s), Ends(env, limit, s);
    forall k: nat, t: State | k < limit ensures KeepsOrEnds(Iterations(env), inv, ends, k, t) {
      StepStaysUnderway(env, limit, s, k, t);
    }
    RepeatKeeps(Iterations(env), TooManySteps, inv, ends, 0, limit, s);
  }

  /** The messages among which a turn looks for a repeated failure are those whose calls it left answered. */
  lemma FinishedAreNewlyAnswered(env: Env, limit: nat, v: View, rows: seq<Row>)
    requires WellBehaved(env) && VisibleOk(v, rows) && Later(v.before, rows)
    ensures var (s, ending) := Turn(env, limit, Opening(v, rows));
            && |rows| <= |s.rows|
            && (ending == RepeatedFailure <==>
                exists m: nat, c: nat, m': nat, d: nat ::
                  SameTextTwice(env, NewlyAnswered(rows, s.rows, |s.rows|), m, c, m', d))
  {
    TurnIsLawful(env, limit, Opening(v, rows));
    RepetitionStopsTurnIff(env, limit, v, rows);
    NothingNewlyAnswered(rows, rows, |rows|);
    var (s, ending) := Turn(env, limit, Opening(v, rows));
    assert s.finished == NewlyAnswered(rows, s.rows, |s.rows|);
  }

  // ---------------------------------------------------------------- regenerating what the latest turn added

  /** No result carries a time to come. */
  ghost predicate TimesOk(rows: seq<Row>) {
    forall i: nat :: i < |rows| ==> TimeOk(rows[i], |rows|)
  }

  ghost predicate TimeOk(r: Row, now: nat) {
    r.ToolMessage? ==> forall k :: 0 <= k < |r.stamps| ==> r.stamps[k] <= now
  }

  lemma TurnKeepsTimes(env: Env, limit: nat, v: View, rows: seq<Row>)
    requires WellBehaved(env) && VisibleOk(v, rows) && Later(v.before, rows) && TimesOk(rows)
    ensures TimesOk(Turn(env, limit, Opening(v, rows)).0.rows)
  {
    var s := Opening(v, rows);
    var t := Turn(env, limit, s).0;
    TurnIsLawful(env, limit, s);
    if limit > 0 {
      forall i: nat | i < |t.rows| ensures TimeOk(t.rows[i], |t.rows|) {
        RowStoredInTime(env, v, rows, t.rows, First(s), i);
      }
    }
  }

  /** A message that was there has results of the turn's start at the latest, a new one those of its own iteration. */
  lemma RowStoredInTime(env: Env, v: View, rows: seq<Row>, rows': seq<Row>, first: nat, i: nat)
    requires TimesOk(rows) && OldRows(env, v, rows, rows') && AddedRows(env, first, rows, rows') && i < |rows'|
    ensures TimeOk(rows'[i], if i < |rows| then |rows| else i + 1)
  {
    if i < |rows| {
      assert TimeOk(rows[i], |rows|);
      if TakesUp(v, rows, i) {
        assert WalkedRow(env, 0, rows[i].tables, rows[i].stamps, |rows|, rows'[i]);
      }
    } else {
      assert AddedRow(env, first + i - |rows|, i, rows'[i]);
    }
  }

  /** A turn that sees everything stores each result before the next message. */
  lemma TurnStoresInTime(env: Env, limit: nat, rows: seq<Row>, target: nat)
    requires WellBehaved(env) && ConversationOk(rows) && TimesOk(rows)
    requires |rows| <= target < |Turn(env, limit, Opening(EVERYTHING, rows)).0.rows|
    ensures !LateResult(View(target, Turn(env, limit, Opening(EVERYTHING, rows)).0.rows))
  {
    var s := Opening(EVERYTHING, rows);
    var t := Turn(env, limit, s).0;
    TurnIsLawful(env, limit, s);
    forall i, k | 0 <= i < target && t.rows[i].ToolMessage? && 0 <= k < |t.rows[i].stamps|
      ensures t.rows[i].stamps[k] <= target
    {
      RowStoredInTime(env, EVERYTHING, rows, t.rows, First(s), i);
    }
  }

  lemma {:induction false} ConverseKeepsTimes(limit: nat, events: seq<Conversations.Event>)
    requires forall i :: 0 <= i < |events| ==> Conversations.EventBehaves(events[i])
    requires Conversations.Careful(limit, events)
    ensures TimesOk(Conversations.Converse(limit, events))
  {
    if events != [] {
      var e, earlier := events[|events| - 1], events[..|events| - 1];
      var rows := Conversations.Converse(limit, earlier);
      ConverseKeepsTimes(limit, earlier);
      Conversations.ConverseOk(limit, earlier);
      EventKeepsTimes(limit, rows, e);
    }
  }

  lemma EventKeepsTimes(limit: nat, rows: seq<Row>, e: Conversations.Event)
    requires ConversationOk(rows) && TimesOk(rows) && Conversations.EventBehaves(e)
    ensures TimesOk(Conversations.Apply(limit, rows, e).0)
  {
    match e
    case Send(env) =>
      MessageWritten(rows);
      TurnKeepsTimes(env, limit, EVERYTHING, rows + [UserText]);
    case Resume(env) => TurnKeepsTimes(env, limit, EVERYTHING, rows);
    case Regenerate(env, target) =>
      if target < |rows| && Regenerable(rows[target]) {
        PartIsOk(View(target, rows), rows);
        TurnKeepsTimes(env, limit, View(target, rows), rows);
      }
    case Decide(m, r, approve) =>
      if m < |rows| && rows[m].ToolMessage? {
        var rows' := rows[m := rows[m].(tables := Chat.Decided(rows[m].tables, r, approve))];
        forall i: nat | i < |rows'| ensures TimeOk(rows'[i], |rows|) {
          assert TimeOk(rows[i], |rows|);
        }
      }
  }

  lemma MessageWritten(rows: seq<Row>)
    requires ConversationOk(rows) && TimesOk(rows)
    ensures ConversationOk(rows + [UserText]) && TimesOk(rows + [UserText])
  {
    var rows' := rows + [UserText];
    assert forall i :: 0 <= i < |rows| ==> rows'[i] == rows[i];
    forall i: nat | i < |rows'| ensures TimeOk(rows'[i], |rows'|) {
      assert i < |rows| ==> TimeOk(rows[i], |rows|);
    }
  }

  lemma RegenerationIsShown(limit: nat, rows: seq<Row>, send: Env, again: Env, target: nat, sent: seq<Row>)
    requires ConversationOk(rows) && TimesOk(rows) && WellBehaved(send) && WellBehaved(again)
    requires sent == Turn(send, limit, Opening(EVERYTHING, rows)).0.rows && |rows| <= target < |sent|
    ensures var asked := Conversations.Regenerated(again, limit, sent, target).asked;
            forall k :: 0 <= k < |asked| ==> AllAnswered(asked[k])
  {
    TurnGrows(send, limit, Opening(EVERYTHING, rows));
    TurnStoresInTime(send, limit, rows, target);
    Conversations.RegenerationKeepsIff(again, limit, sent, target);
  }

  /** Whatever a person regenerates of what the latest turn has added, the model is sent a result for every call. */
  lemma LatestTurnIsShown(limit: nat, events: seq<Conversations.Event>, send: Env, again: Env, target: nat)
    requires forall i :: 0 <= i < |events| ==> Conversations.EventBehaves(events[i])
    requires Conversations.Careful(limit, events) && WellBehaved(send) && WellBehaved(again)
    requires var rows := Conversations.Converse(limit, events);
             |rows| < target < |Conversations.Apply(limit, rows, Conversations.Send(send)).0|
    ensures var rows := Conversations.Converse(limit, events);
            var sent := Conversations.Apply(limit, rows, Conversations.Send(send)).0;
            var asked := Conversations.Apply(limit, sent, Conversations.Regenerate(again, target)).1;
            forall k :: 0 <= k < |asked| ==> AllAnswered(asked[k])
  {
    var rows := Conversations.Converse(limit, events);
    var sent := Conversations.Apply(limit, rows, Conversations.Send(send)).0;
    Conversations.ConverseOk(limit, events);
    ConverseKeepsTimes(limit, events);
    MessageWritten(rows);
    RegenerationIsShown(limit, rows + [UserText], send, again, target, sent);
  }
}
