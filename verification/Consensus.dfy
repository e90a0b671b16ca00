/**
  Consensus sessions of an agent team: reading a member's vote, recording it and tallying.
 */
module Consensus {
  import opened Base
  import Bundle
  import Rows

  datatype Method = Majority | Unanimous | ConfidenceWeighted

  datatype Status = Collecting | Decided | Deadlocked

  datatype Vote = Vote(coworker: string, option: string, confidence: real)

  // ---------------------------------------------------------------- what a decision means

  function Weight(m: Method, v: Vote): real {
    if m == ConfidenceWeighted then v.confidence else 1.0
  }

  function Score(m: Method, votes: seq<Vote>, option: string): real {
    if votes == [] then 0.0
    else
      var last := votes[|votes| - 1];
      Score(m, votes[..|votes| - 1], option) + if last.option == option then Weight(m, last) else 0.0
  }

  predicate Voted(votes: seq<Vote>, option: string) {
    exists i :: 0 <= i < |votes| && votes[i].option == option
  }

  /** More than half of the members voted and the option's score beats every other voted option. */
  ghost predicate Leads(m: Method, expected: nat, votes: seq<Vote>, option: string) {
    && 2 * |votes| > expected
    && Voted(votes, option)
    && forall other :: Voted(votes, other) && other != option ==> Score(m, votes, other) < Score(m, votes, option)
  }

  ghost predicate Wins(m: Method, expected: nat, votes: seq<Vote>, option: string) {
    if m == Unanimous then
      votes != [] && |votes| == expected && forall other :: Voted(votes, other) ==> other == option
    else Leads(m, expected, votes, option)
  }

  lemma WinnerIsUnique(m: Method, expected: nat, votes: seq<Vote>, a: string, b: string)
    requires Wins(m, expected, votes, a) && Wins(m, expected, votes, b)
    ensures a == b
  {
    if m == Unanimous {
      assert Voted(votes, votes[0].option);
    }
  }

  /** The result to store: the winning option, or "" exactly when none wins. */
  ghost predicate Outcome(m: Method, expected: nat, votes: seq<Vote>, result: string) {
    && (result != "" ==> Wins(m, expected, votes, result))
    && (result == "" ==> forall o :: !Wins(m, expected, votes, o))
  }

  // ---------------------------------------------------------------- order of votes

  function Without<T>(s: seq<T>, i: nat): seq<T>
    requires i < |s|
  {
    s[..i] + s[i + 1..]
  }

  lemma ScoreAppend(m: Method, votes: seq<Vote>, v: Vote, option: string)
    ensures Score(m, votes + [v], option) == Score(m, votes, option) + if v.option == option then Weight(m, v) else 0.0
  {
    assert (votes + [v])[..|votes|] == votes;
  }

  lemma {:induction false} ScoreWithout(m: Method, votes: seq<Vote>, i: nat, option: string)
    requires i < |votes|
    ensures Score(m, votes, option) ==
            Score(m, Without(votes, i), option) + if votes[i].option == option then Weight(m, votes[i]) else 0.0
  {
    var n := |votes| - 1;
    if i == n {
      assert Without(votes, i) == votes[..n];
    } else {
      ScoreWithout(m, votes[..n], i, option);
      assert Without(votes, i) == Without(votes[..n], i) + [votes[n]];
      ScoreAppend(m, Without(votes[..n], i), votes[n], option);
    }
  }

  lemma MultisetWithout<T>(s: seq<T>, i: nat)
    requires i < |s|
    ensures multiset(Without(s, i)) == multiset(s) - multiset{s[i]}
  {
    assert s == s[..i] + [s[i]] + s[i + 1..];
  }

  /** Where the last element of `a` stands in `b`. */
  lemma SameElement<T>(a: seq<T>, b: seq<T>) returns (i: nat)
    requires multiset(a) == multiset(b) && a != []
    ensures i < |b| && b[i] == a[|a| - 1] && multiset(a[..|a| - 1]) == multiset(Without(b, i))
  {
    var n := |a| - 1;
    assert a[n] in multiset(b);
    i :| 0 <= i < |b| && b[i] == a[n];
    MultisetWithout(a, n);
    MultisetWithout(b, i);
    assert Without(a, n) == a[..n];
  }

  lemma {:induction false} ScoreIgnoresOrder(m: Method, a: seq<Vote>, b: seq<Vote>, option: string)
    requires multiset(a) == multiset(b)
    ensures Score(m, a, option) == Score(m, b, option)
    decreases |a|
  {
    if a == [] {
      assert |multiset(b)| == |b|;
    } else {
      var i := SameElement(a, b);
      ScoreIgnoresOrder(m, a[..|a| - 1], Without(b, i), option);
      ScoreWithout(m, b, i, option);
    }
  }

  lemma VotedIgnoresOrder(a: seq<Vote>, b: seq<Vote>, option: string)
    requires multiset(a) == multiset(b) && Voted(a, option)
    ensures Voted(b, option)
  {
    var i :| 0 <= i < |a| && a[i].option == option;
    assert a[i] in multiset(b);
    var j :| 0 <= j < |b| && b[j] == a[i];
  }

  /** The outcome depends on which votes were cast, never on their order. */
  lemma OrderDoesNotMatter(m: Method, expected: nat, a: seq<Vote>, b: seq<Vote>, option: string)
    requires multiset(a) == multiset(b)
    ensures Wins(m, expected, a, option) <==> Wins(m, expected, b, option)
  {
    assert |a| == |multiset(a)| == |multiset(b)| == |b|;
    forall o: string ensures Score(m, a, o) == Score(m, b, o) && (Voted(a, o) <==> Voted(b, o)) {
      ScoreIgnoresOrder(m, a, b, o);
      if Voted(a, o) { VotedIgnoresOrder(a, b, o); }
      if Voted(b, o) { VotedIgnoresOrder(b, a, o); }
    }
  }

  // ---------------------------------------------------------------- what the scores are

  /** The positions of the votes for an option. */
  function VotesFor(votes: seq<Vote>, option: string): set<nat> {
    set i: nat | i < |votes| && votes[i].option == option
  }

  ghost function Sum(xs: seq<real>): real {
    if xs == [] then 0.0 else Sum(xs[..|xs| - 1]) + xs[|xs| - 1]
  }

  /** The confidences that speak for an option; a vote for another one adds none. */
  ghost function Confidences(votes: seq<Vote>, option: string): seq<real> {
    seq(|votes|, i requires 0 <= i < |votes| => if votes[i].option == option then votes[i].confidence else 0.0)
  }

  lemma {:induction false} ScoreIsCount(m: Method, votes: seq<Vote>, option: string)
    requires m != ConfidenceWeighted
    ensures Score(m, votes, option) == |VotesFor(votes, option)| as real
  {
    if votes != [] {
      var n := |votes| - 1;
      ScoreIsCount(m, votes[..n], option);
      var earlier: set<nat> := if votes[n].option == option then {n} else {};
      assert VotesFor(votes, option) == VotesFor(votes[..n], option) + earlier;
      assert n !in VotesFor(votes[..n], option);
    }
  }

  lemma {:induction false} ScoreIsSum(votes: seq<Vote>, option: string)
    ensures Score(ConfidenceWeighted, votes, option) == Sum(Confidences(votes, option))
  {
    if votes != [] {
      var n := |votes| - 1;
      ScoreIsSum(votes[..n], option);
      assert Confidences(votes, option)[..n] == Confidences(votes[..n], option);
    }
  }

  /** By majority an option wins exactly when more than half of the members voted and no other has as many votes. */
  lemma MajorityWinsIff(expected: nat, votes: seq<Vote>, option: string)
    ensures Wins(Majority, expected, votes, option) <==>
            && 2 * |votes| > expected && VotesFor(votes, option) != {}
            && forall i :: 0 <= i < |votes| && votes[i].option != option ==>
                 |VotesFor(votes, votes[i].option)| < |VotesFor(votes, option)|
  {
    forall o: string ensures Voted(votes, o) <==> VotesFor(votes, o) != {} {
      VotedMeansVotes(votes, o);
    }
    forall o: string { ScoreIsCount(Majority, votes, o); }
    assert forall i :: 0 <= i < |votes| ==> Voted(votes, votes[i].option);
  }

  lemma VotedMeansVotes(votes: seq<Vote>, option: string)
    ensures Voted(votes, option) <==> VotesFor(votes, option) != {}
  {
    if Voted(votes, option) {
      var i :| 0 <= i < |votes| && votes[i].option == option;
      assert i in VotesFor(votes, option);
    }
  }

  /** By confidence it wins exactly when more than half voted and no other's confidences sum up to as much. */
  lemma ConfidenceWinsIff(expected: nat, votes: seq<Vote>, option: string)
    ensures Wins(ConfidenceWeighted, expected, votes, option) <==>
            && 2 * |votes| > expected && VotesFor(votes, option) != {}
            && forall i :: 0 <= i < |votes| && votes[i].option != option ==>
                 Sum(Confidences(votes, votes[i].option)) < Sum(Confidences(votes, option))
  {
    VotedMeansVotes(votes, option);
    forall o: string { ScoreIsSum(votes, o); }
    assert forall i :: 0 <= i < |votes| ==> Voted(votes, votes[i].option);
  }

  // ---------------------------------------------------------------- how decisions relate

  lemma VotedAppend(votes: seq<Vote>, v: Vote, option: string)
    ensures Voted(votes + [v], option) <==> Voted(votes, option) || v.option == option
  {
    var all := votes + [v];
    assert all[|votes|] == v;
    if Voted(votes, option) {
      var i :| 0 <= i < |votes| && votes[i].option == option;
      assert all[i].option == option;
    }
  }

  /**
    When a member votes after the decision, the tally runs again. The result survives exactly when the
    late vote is for it, or leaves the voted-for option behind it; a unanimous result never survives one
    more vote, since then there are more votes than members.
   */
  lemma LateVoteKeepsResultIff(m: Method, expected: nat, votes: seq<Vote>, v: Vote, result: string)
    requires v.confidence >= 0.0 && Wins(m, expected, votes, result)
    ensures Wins(m, expected, votes + [v], result) <==>
            m != Unanimous
            && (v.option == result || Score(m, votes, v.option) + Weight(m, v) < Score(m, votes, result))
  {
    forall o: string { VotedAppend(votes, v, o); }
    forall o: string { ScoreAppend(m, votes, v, o); }
    if m != Unanimous && v.option != result && Wins(m, expected, votes + [v], result) {
      assert Voted(votes + [v], v.option);
    }
  }

  /** One more member voting for the leader keeps the decision. */
  lemma FurtherVoteKeepsWinner(m: Method, expected: nat, votes: seq<Vote>, v: Vote)
    requires m != Unanimous && v.confidence >= 0.0 && Wins(m, expected, votes, v.option)
    ensures Wins(m, expected, votes + [v], v.option)
  {
    forall o: string { VotedAppend(votes, v, o); }
    forall o: string { ScoreAppend(m, votes, v, o); }
  }

  /** What all members agree on is what the majority decides. */
  lemma UnanimousIsMajority(expected: nat, votes: seq<Vote>, option: string)
    requires Wins(Unanimous, expected, votes, option)
    ensures Wins(Majority, expected, votes, option)
  {
    assert Voted(votes, votes[0].option);
  }

  // ---------------------------------------------------------------- reading a vote

  datatype Confidence = Absent | Unparsable | Parsed(value: real)

  /** What JSON decoding makes of a member's answer; `option` is already stripped text. */
  datatype Payload = NotJson | NotAnObject | Fields(option: string, confidence: Confidence)

  datatype Ballot = Ballot(option: string, confidence: real) | NoVote | Raises

  function Clamp(c: Confidence): real {
    match c
    case Absent => 1.0
    case Unparsable => 1.0
    case Parsed(x) => if x < 0.0 then 0.0 else if x > 1.0 then 1.0 else x
  }

  function Distance(x: real, y: real): real {
    if x < y then y - x else x - y
  }

  /** The confidence taken is the given one brought between 0 and 1 by the least change; without a number it is 1. */
  lemma ClampIsNearest(c: Confidence, other: real)
    requires 0.0 <= other <= 1.0
    ensures 0.0 <= Clamp(c) <= 1.0
    ensures match c
            case Parsed(x) => Distance(x, Clamp(c)) <= Distance(x, other)
            case _ => other <= Clamp(c)
  {
  }

  predicate Mentions(raw: string, option: string, fold: string -> string) {
    Bundle.Occurs(fold(raw), fold(option))
  }

  /** `_parse_vote`: the option named in the JSON answer, else the only one the text mentions. */
  method ParseVote(raw: string, payload: Payload, options: seq<string>, fold: string -> string) returns (b: Ballot)
    ensures b.Raises? <==> payload.NotAnObject?
    ensures b.Ballot? ==> b.option in options
    ensures b.Ballot? ==> 0.0 <= b.confidence == Clamp(if payload.Fields? then payload.confidence else Absent) <= 1.0
    ensures var candidate := if payload.Fields? then payload.option else "";
            && (b.Ballot? ==>
                  || fold(b.option) == fold(candidate)
                  || (&& Mentions(raw, b.option, fold)
                      && (forall i :: 0 <= i < |options| ==> fold(options[i]) != fold(candidate))
                      && forall i :: 0 <= i < |options| && Mentions(raw, options[i], fold) ==> options[i] == b.option))
            && (b.NoVote? ==> forall i :: 0 <= i < |options| ==> fold(options[i]) != fold(candidate))
            && (b.NoVote? ==> forall i :: 0 <= i < |options| && Mentions(raw, options[i], fold) ==>
                  exists j :: 0 <= j < |options| && j != i && Mentions(raw, options[j], fold))
  {
    if payload.NotAnObject? {
      return Raises;
    }
    var candidate := if payload.Fields? then payload.option else "";
    var confidence := Clamp(if payload.Fields? then payload.confidence else Absent);
    for i := 0 to |options|
      invariant forall k :: 0 <= k < i ==> fold(options[k]) != fold(candidate)
    {
      if fold(options[i]) == fold(candidate) {
        return Ballot(options[i], confidence);
      }
    }
    var only := OnlyMention(raw, options, fold);
    return if only.Some? then Ballot(options[only.value], confidence) else NoVote;
  }

  /** The index of the only option that the text mentions. */
  method OnlyMention(raw: string, options: seq<string>, fold: string -> string) returns (only: Option<nat>)
    ensures only.Some? ==>
              && only.value < |options| && Mentions(raw, options[only.value], fold)
              && forall i :: 0 <= i < |options| && Mentions(raw, options[i], fold) ==> i == only.value
    ensures only.None? ==> forall i :: 0 <= i < |options| && Mentions(raw, options[i], fold) ==>
              exists j :: 0 <= j < |options| && j != i && Mentions(raw, options[j], fold)
  {
    var matches: seq<nat> := [];
    for i := 0 to |options|
      invariant forall k :: 0 <= k < |matches| ==> matches[k] < i && Mentions(raw, options[matches[k]], fold)
      invariant forall j, k :: 0 <= j < k < |matches| ==> matches[j] != matches[k]
      invariant forall k :: 0 <= k < i && Mentions(raw, options[k], fold) ==> k in matches
    {
      if Mentions(raw, options[i], fold) {
        matches := matches + [i];
      }
    }
    if |matches| == 1 {
      return Some(matches[0]);
    }
    forall i | 0 <= i < |options| && Mentions(raw, options[i], fold)
      ensures exists j :: 0 <= j < |options| && j != i && Mentions(raw, options[j], fold)
    {
      var k :| 0 <= k < |matches| && matches[k] == i;
      var l := if k == 0 then 1 else 0;
      assert matches[l] != i && Mentions(raw, options[matches[l]], fold);
    }
    return None;
  }

  // ---------------------------------------------------------------- a session

  /** `dict` of scores with its keys in insertion order. */
  ghost predicate Tally(m: Method, votes: seq<Vote>, keys: seq<string>, scores: map<string, real>) {
    && Distinct(keys)
    && (forall k :: k in scores <==> k in keys)
    && (forall k :: k in keys <==> Voted(votes, k))
    && forall k :: k in keys ==> scores[k] == Score(m, votes, k)
  }

  /** `winner` beats every other key, or it is "" and every key has an equal or better rival. */
  ghost predicate OnlyBest(keys: seq<string>, scores: map<string, real>, winner: string)
    requires forall k :: k in keys ==> k in scores
  {
    && (winner != "" ==> winner in keys && forall k :: k in keys && k != winner ==> scores[k] < scores[winner])
    && (winner == "" ==> forall k :: k in keys ==> exists l :: l in keys && l != k && scores[l] >= scores[k])
  }

  /** A task that waits for input or is blocked counts as finished, though it has no vote yet. */
  predicate CountsAsFinished(s: Rows.TaskStatus) {
    s !in {Rows.Pending, Rows.InProgress, Rows.NeedsApproval}
  }

  function FinishedCount(tasks: seq<Rows.TaskStatus>): nat {
    if tasks == [] then 0
    else FinishedCount(tasks[..|tasks| - 1]) + if CountsAsFinished(tasks[|tasks| - 1]) then 1 else 0
  }

  /** The positions of the tasks that have ended or wait for a person's input. */
  function Settled(tasks: seq<Rows.TaskStatus>): set<nat> {
    set i: nat | i < |tasks| && tasks[i] in {Rows.Completed, Rows.Failed, Rows.Blocked, Rows.NeedsInput}
  }

  lemma CountsWhenSettled(s: Rows.TaskStatus)
    ensures CountsAsFinished(s) <==> s in {Rows.Completed, Rows.Failed, Rows.Blocked, Rows.NeedsInput}
  {
    match s
    case Pending =>
    case _ =>
  }

  /** So many tasks are counted. */
  lemma {:induction false} FinishedCountIsSettled(tasks: seq<Rows.TaskStatus>)
    ensures FinishedCount(tasks) == |Settled(tasks)|
  {
    if tasks != [] {
      var n := |tasks| - 1;
      FinishedCountIsSettled(tasks[..n]);
      var last: set<nat> := if CountsAsFinished(tasks[n]) then {n} else {};
      CountsWhenSettled(tasks[n]);
      assert CountsAsFinished(tasks[n]) <==> n in Settled(tasks);
      assert forall i: nat :: i in Settled(tasks) && i != n ==> i in Settled(tasks[..n]);
      assert Settled(tasks) == Settled(tasks[..n]) + last;
      assert n !in Settled(tasks[..n]);
    }
  }

  /** With one task per member, comparing counts asks whether every task is finished. */
  lemma {:induction false} FinishedCountMeansAll(tasks: seq<Rows.TaskStatus>)
    ensures FinishedCount(tasks) <= |tasks|
    ensures FinishedCount(tasks) == |tasks| <==> forall i :: 0 <= i < |tasks| ==> CountsAsFinished(tasks[i])
  {
    if tasks != [] {
      var n := |tasks| - 1;
      FinishedCountMeansAll(tasks[..n]);
      assert forall i :: 0 <= i < n ==> tasks[..n][i] == tasks[i];
    }
  }

  /** When all tasks count as finished, they have all ended exactly when none waits for a person's input. */
  lemma AllEndedIffNoneWaits(tasks: seq<Rows.TaskStatus>)
    requires FinishedCount(tasks) == |tasks|
    ensures (forall i :: 0 <= i < |tasks| ==> Rows.Ended(tasks[i])) <==> Rows.NeedsInput !in tasks
  {
    FinishedCountMeansAll(tasks);
    forall i | 0 <= i < |tasks| ensures Rows.Ended(tasks[i]) <==> tasks[i] != Rows.NeedsInput {
      assert CountsAsFinished(tasks[i]);
    }
  }

  /**
    A session can close before a member who waits for input has voted: with two members it deadlocks on
    the first vote, and with three it decides on the first two.
   */
  lemma ClosesBeforeInput()
    ensures FinishedCount([Rows.Completed, Rows.NeedsInput]) == 2
    ensures Outcome(Majority, 2, [Vote("x", "a", 1.0)], "")
    ensures FinishedCount([Rows.Completed, Rows.Completed, Rows.NeedsInput]) == 3
    ensures Outcome(Majority, 3, [Vote("x", "a", 1.0), Vote("y", "a", 1.0)], "a")
  {
    var two, three := [Rows.Completed, Rows.NeedsInput], [Rows.Completed, Rows.Completed, Rows.NeedsInput];
    FinishedCountMeansAll(two);
    FinishedCountMeansAll(three);
    var votes := [Vote("x", "a", 1.0), Vote("y", "a", 1.0)];
    assert votes[0].option == "a";
    assert Leads(Majority, 3, votes, "a");
  }

  class ConsensusSession {
    const options: seq<string>
    const decisionMethod: Method
    var votes: seq<Vote>
    var status: Status
    var resultOption: string

    /** Votes come from `ParseVote` and there is one per coworker; options are stored stripped and not blank. */
    ghost predicate Valid()
      reads this
    {
      && (forall i :: 0 <= i < |votes| ==> votes[i].option in options && votes[i].confidence >= 0.0)
      && (forall i, j :: 0 <= i < j < |votes| ==> votes[i].coworker != votes[j].coworker)
      && (status == Decided ==> resultOption in options)
      && "" !in options
    }

    constructor (options: seq<string>, decisionMethod: Method)
      requires "" !in options
      ensures Valid() && votes == [] && status == Collecting
      ensures this.options == options && this.decisionMethod == decisionMethod
    {
      this.options, this.decisionMethod := options, decisionMethod;
      votes, status, resultOption := [], Collecting, "";
    }

    method CountScores() returns (keys: seq<string>, scores: map<string, real>)
      ensures Tally(decisionMethod, votes, keys, scores)
    {
      keys, scores := [], map[];
      for i := 0 to |votes|
        invariant Tally(decisionMethod, votes[..i], keys, scores)
      {
        var vote := votes[i];
        ghost var before := votes[..i];
        assert votes[..i + 1] == before + [vote];
        forall k: string { ScoreAppend(decisionMethod, before, vote, k); }
        forall k: string { VotedAppend(before, vote, k); }
        if vote.option !in scores {
          NotVotedScoresZero(decisionMethod, before, vote.option);
          keys := keys + [vote.option];
          scores := scores[vote.option := 0.0];
        }
        scores := scores[vote.option := scores[vote.option] + Weight(decisionMethod, vote)];
      }
      assert votes[..|votes|] == votes;
    }

    /** The only best-scored key, or "" when several share the best score. */
    method Best(keys: seq<string>, scores: map<string, real>) returns (winner: string)
      requires keys != [] && Distinct(keys) && "" !in keys && forall k :: k in keys ==> k in scores
      ensures OnlyBest(keys, scores, winner)
    {
      var high := scores[keys[0]];
      for i := 1 to |keys|
        invariant exists k :: k in keys && scores[k] == high
        invariant forall j :: 0 <= j < i ==> scores[keys[j]] <= high
      {
        if scores[keys[i]] > high {
          high := scores[keys[i]];
        }
      }
      var winners := [];
      for i := 0 to |keys|
        invariant Distinct(winners)
        invariant forall k :: k in winners <==> k in keys[..i] && scores[k] == high
      {
        if scores[keys[i]] == high {
          winners := winners + [keys[i]];
        }
      }
      assert keys[..|keys|] == keys;
      if |winners| == 1 {
        assert winners[0] in winners;
        return winners[0];
      }
      var top :| top in keys && scores[top] == high;
      assert top in winners;
      assert winners[0] in winners && winners[1] in winners && winners[0] != winners[1];
      return "";
    }

    /** The option that wins, or "" when none does. */
    method Winner(expected: nat) returns (winner: string)
      requires Valid()
      ensures Outcome(decisionMethod, expected, votes, winner)
      ensures winner != "" ==> winner in options
    {
      var keys, scores := CountScores();
      KeysAreOptions(decisionMethod, votes, keys, scores, options);
      winner := "";
      if decisionMethod == Unanimous {
        if votes != [] && |votes| == expected && |keys| == 1 {
          winner := votes[0].option;
        }
      } else if keys != [] && 2 * |votes| > expected {
        winner := Best(keys, scores);
      }
      Decides(decisionMethod, expected, votes, keys, scores, winner);
    }

    /** `finalize_consensus`: `expected` members, and the states of the session's tasks. */
    method FinalizeConsensus(expected: nat, tasks: seq<Rows.TaskStatus>)
      requires Valid()
      modifies this`status, this`resultOption
      ensures Valid()
      ensures FinishedCount(tasks) < expected ==> status == old(status) && resultOption == old(resultOption)
      ensures FinishedCount(tasks) >= expected ==>
                && status == (if resultOption == "" then Deadlocked else Decided)
                && Outcome(decisionMethod, expected, votes, resultOption)
    {
      var finished := 0;
      for i := 0 to |tasks|
        invariant finished == FinishedCount(tasks[..i])
      {
        assert tasks[..i + 1][..i] == tasks[..i];
        finished := finished + if CountsAsFinished(tasks[i]) then 1 else 0;
      }
      assert tasks[..|tasks|] == tasks;
      if finished < expected {
        return;
      }
      var winner := Winner(expected);
      status := if winner != "" then Decided else Deadlocked;
      resultOption := winner;
    }

    /** `record_consensus_vote_from_task` for a completed task; an exception rolls everything back. */
    method RecordVote(coworker: string, ballot: Ballot, expected: nat, tasks: seq<Rows.TaskStatus>)
      requires Valid() && (ballot.Ballot? ==> ballot.option in options && 0.0 <= ballot.confidence <= 1.0)
      modifies this
      ensures Valid()
      ensures ballot.Raises? ==> votes == old(votes) && status == old(status) && resultOption == old(resultOption)
      ensures ballot.NoVote? ==> votes == old(votes)
      ensures ballot.Ballot? ==>
                exists i ::
                  && 0 <= i < |votes| && votes[i] == Vote(coworker, ballot.option, ballot.confidence)
                  && (|| (votes == old(votes) + [votes[i]]
                          && forall j :: 0 <= j < |old(votes)| ==> old(votes)[j].coworker != coworker)
                      || (i < |old(votes)| && old(votes)[i].coworker == coworker
                          && votes == old(votes)[i := votes[i]]))
      ensures !ballot.Raises? && FinishedCount(tasks) >= expected ==>
                && status == (if resultOption == "" then Deadlocked else Decided)
                && Outcome(decisionMethod, expected, votes, resultOption)
    {
      if ballot.Raises? {
        return;
      }
      if ballot.Ballot? {
        var vote := Vote(coworker, ballot.option, ballot.confidence);
        var i := 0;
        while i < |votes| && votes[i].coworker != coworker
          invariant 0 <= i <= |votes|
          invariant forall j :: 0 <= j < i ==> votes[j].coworker != coworker
        {
          i := i + 1;
        }
        votes := if i < |votes| then votes[i := vote] else votes + [vote];
        assert votes[i] == vote;
      }
      FinalizeConsensus(expected, tasks);
    }
  }

  /** The same through a session's own operations: of two members, one votes and the other waits for input. */
  method DeadlocksBeforeInput() returns (session: ConsensusSession)
    ensures session.status == Deadlocked && session.votes == [Vote("x", "a", 1.0)]
  {
    ClosesBeforeInput();
    session := new ConsensusSession(["a"], Majority);
    session.RecordVote("x", Ballot("a", 1.0), 2, [Rows.Completed, Rows.NeedsInput]);
    assert session.votes == [Vote("x", "a", 1.0)];
    OutcomeIsUnique(Majority, 2, session.votes, session.resultOption, "");
  }

  /** Of three members, two vote and the third waits for input; the first vote alone closes nothing. */
  method DecidesBeforeInput() returns (session: ConsensusSession)
    ensures session.status == Decided && session.resultOption == "a"
    ensures session.votes == [Vote("x", "a", 1.0), Vote("y", "a", 1.0)]
  {
    session := new ConsensusSession(["a"], Majority);
    session.RecordVote("x", Ballot("a", 1.0), 3, [Rows.Completed, Rows.InProgress, Rows.NeedsInput]);
    assert session.votes == [Vote("x", "a", 1.0)];
    session.RecordVote("y", Ballot("a", 1.0), 3, [Rows.Completed, Rows.Completed, Rows.NeedsInput]);
    assert session.votes == [Vote("x", "a", 1.0), Vote("y", "a", 1.0)];
    ClosesBeforeInput();
    OutcomeIsUnique(Majority, 3, session.votes, session.resultOption, "a");
  }

  lemma OutcomeIsUnique(m: Method, expected: nat, votes: seq<Vote>, a: string, b: string)
    requires Outcome(m, expected, votes, a) && Outcome(m, expected, votes, b)
    ensures a == b
  {
    if a != "" && b != "" {
      WinnerIsUnique(m, expected, votes, a, b);
    }
  }

  lemma {:induction false} NotVotedScoresZero(m: Method, votes: seq<Vote>, option: string)
    requires !Voted(votes, option)
    ensures Score(m, votes, option) == 0.0
  {
    if votes != [] {
      var n := |votes| - 1;
      forall i | 0 <= i < n ensures votes[..n][i].option != option {
        assert votes[i].option != option;
      }
      NotVotedScoresZero(m, votes[..n], option);
    }
  }

  lemma UnanimousDecides(expected: nat, votes: seq<Vote>, keys: seq<string>, winner: string)
    requires votes != [] && votes[0].option != "" && Distinct(keys) && forall k :: k in keys <==> Voted(votes, k)
    requires winner == if |votes| == expected && |keys| == 1 then votes[0].option else ""
    ensures Outcome(Unanimous, expected, votes, winner)
  {
    assert Voted(votes, votes[0].option);
    if |keys| > 1 {
      assert keys[0] in keys && keys[1] in keys;
    }
  }

  /** The only best-scored key is the winner, and without one there is no winner. */
  lemma TallyDecides(m: Method, expected: nat, votes: seq<Vote>, keys: seq<string>, scores: map<string, real>,
                     winner: string)
    requires m != Unanimous && Tally(m, votes, keys, scores) && 2 * |votes| > expected
    requires OnlyBest(keys, scores, winner)
    ensures Outcome(m, expected, votes, winner)
  {
    if winner == "" {
      forall o: string { TiedDoesNotWin(m, expected, votes, keys, scores, o); }
    }
  }

  lemma KeysAreOptions(m: Method, votes: seq<Vote>, keys: seq<string>, scores: map<string, real>, options: seq<string>)
    requires Tally(m, votes, keys, scores) && forall i :: 0 <= i < |votes| ==> votes[i].option in options
    ensures forall k :: k in keys ==> k in scores && k in options
    ensures keys == [] <==> votes == []
    ensures votes != [] ==> votes[0].option in keys
  {
    assert keys != [] ==> keys[0] in keys && Voted(votes, keys[0]);
    assert votes != [] ==> Voted(votes, votes[0].option);
  }

  /** What the method computes from the tally is the outcome. */
  lemma Decides(m: Method, expected: nat, votes: seq<Vote>, keys: seq<string>, scores: map<string, real>,
                winner: string)
    requires Tally(m, votes, keys, scores) && "" !in keys
    requires m == Unanimous ==>
               winner == if votes != [] && |votes| == expected && |keys| == 1 then votes[0].option else ""
    requires m != Unanimous ==>
               if keys != [] && 2 * |votes| > expected then OnlyBest(keys, scores, winner) else winner == ""
    ensures Outcome(m, expected, votes, winner)
  {
    if votes == [] {
      assert keys == [] by { assert keys != [] ==> keys[0] in keys && Voted(votes, keys[0]); }
    } else {
      assert Voted(votes, votes[0].option);
      if m == Unanimous {
        UnanimousDecides(expected, votes, keys, winner);
      } else if 2 * |votes| > expected {
        TallyDecides(m, expected, votes, keys, scores, winner);
      }
    }
  }

  lemma TiedDoesNotWin(m: Method, expected: nat, votes: seq<Vote>, keys: seq<string>, scores: map<string, real>,
                       o: string)
    requires m != Unanimous && Tally(m, votes, keys, scores)
    requires o in keys ==> exists l :: l in keys && l != o && scores[l] >= scores[o]
    ensures !Wins(m, expected, votes, o)
  {
    if o in keys {
      var l :| l in keys && l != o && scores[l] >= scores[o];
      assert Voted(votes, l);
    }
  }
}
