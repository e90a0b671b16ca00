/**
  Coworker bundles: export replaces the coworker's id by a placeholder in the text of each workflow
  definition that mentions it, import replaces the placeholder by the new coworker's id.
 */
module Bundle {

  /** `s.replace(pattern, other)`: left to right, matches do not overlap. */
  function Replace(s: string, pattern: string, other: string): string
    requires pattern != ""
  {
    if s == "" then ""
    else if pattern <= s then other + Replace(s[|pattern|..], pattern, other)
    else [s[0]] + Replace(s[1..], pattern, other)
  }

  /** How many times `Replace` replaces. */
  function Matches(s: string, pattern: string): nat
    requires pattern != ""
  {
    if s == "" then 0
    else if pattern <= s then 1 + Matches(s[|pattern|..], pattern)
    else Matches(s[1..], pattern)
  }

  /** `pattern in s`. */
  predicate Occurs(s: string, pattern: string) {
    exists i :: 0 <= i <= |s| && pattern <= s[i..]
  }

  lemma OccursLater(s: string, pattern: string, n: nat)
    requires n <= |s| && Occurs(s[n..], pattern)
    ensures Occurs(s, pattern)
  {
    var i :| 0 <= i <= |s[n..]| && pattern <= s[n..][i..];
    assert s[n..][i..] == s[n + i..];
  }

  lemma {:induction false} MatchesIffOccurs(s: string, pattern: string)
    requires pattern != ""
    ensures Matches(s, pattern) > 0 <==> Occurs(s, pattern)
  {
    if s != "" {
      if pattern <= s {
        assert s[0..] == s;
      } else {
        MatchesIffOccurs(s[1..], pattern);
        if Occurs(s[1..], pattern) {
          OccursLater(s, pattern, 1);
        }
        if Occurs(s, pattern) {
          var i :| 0 <= i <= |s| && pattern <= s[i..];
          assert s[0..] == s;
          assert s[1..][i - 1..] == s[i..];
        }
      }
    }
  }

  lemma {:induction false} ReplaceBySelf(s: string, pattern: string)
    requires pattern != ""
    ensures Replace(s, pattern, pattern) == s
  {
    if s != "" {
      if pattern <= s {
        ReplaceBySelf(s[|pattern|..], pattern);
        assert s == pattern + s[|pattern|..];
      } else {
        ReplaceBySelf(s[1..], pattern);
      }
    }
  }

  /** A placeholder whose first character does not come back cannot overlap itself. */
  ghost predicate Unbordered(mark: string) {
    mark != "" && mark[0] !in mark[1..]
  }

  lemma InsertedMark(s: string, id: string, mark: string)
    requires id != "" && mark != ""
    ensures id <= s ==> Replace(s, id, mark) != "" && Replace(s, id, mark)[0] == mark[0]
  {
  }

  /** Text without the placeholder's first character cannot lie across the seam of an inserted one. */
  lemma {:induction false} PrefixIsOriginal(s: string, id: string, mark: string, x: string)
    requires id != "" && mark != "" && mark[0] !in x && x <= Replace(s, id, mark)
    ensures x <= s
  {
    if x != "" {
      assert s != "";
      InsertedMark(s, id, mark);
      assert x[0] != mark[0];
      if !(id <= s) {
        assert Replace(s, id, mark)[1..] == Replace(s[1..], id, mark);
        assert x[1..] <= Replace(s, id, mark)[1..];
        PrefixIsOriginal(s[1..], id, mark, x[1..]);
        assert x == [x[0]] + x[1..] && s == [s[0]] + s[1..];
      }
    }
  }

  /** A placeholder found in front of replaced text stood there before. */
  lemma MarkIsOriginal(s: string, id: string, mark: string)
    requires id != "" && Unbordered(mark) && s != "" && !(id <= s)
    ensures mark <= [s[0]] + Replace(s[1..], id, mark) ==> mark <= s
  {
    var r := Replace(s[1..], id, mark);
    if mark <= [s[0]] + r {
      assert mark[1..] <= r;
      PrefixIsOriginal(s[1..], id, mark, mark[1..]);
      assert mark == [mark[0]] + mark[1..] && s == [s[0]] + s[1..];
    }
  }

  /** Renaming through a placeholder the text does not contain is renaming directly. */
  lemma {:induction false} RenamingThroughMark(s: string, id: string, mark: string, other: string)
    requires id != "" && Unbordered(mark) && !Occurs(s, mark)
    ensures Replace(Replace(s, id, mark), mark, other) == Replace(s, id, other)
  {
    if s != "" {
      var n := if id <= s then |id| else 1;
      if Occurs(s[n..], mark) {
        OccursLater(s, mark, n);
      }
      RenamingThroughMark(s[n..], id, mark, other);
      var r := Replace(s[n..], id, mark);
      if id <= s {
        assert (mark + r)[|mark|..] == r;
      } else {
        MarkIsOriginal(s, id, mark);
        assert s[0..] == s;
        assert ([s[0]] + r)[1..] == r;
      }
    }
  }

  // ---------------------------------------------------------------- when the text contains the placeholder

  /** No occurrence of `id` can overlap one of `mark`. */
  ghost predicate Apart(id: string, mark: string) {
    mark != "" && |id| >= |mark| && mark[0] !in id && mark[|mark| - 1] !in id
  }

  /** Up to `n` characters that cannot start a match are passed over. */
  lemma {:induction false} PassOver(s: string, pattern: string, other: string, n: nat)
    requires pattern != "" && n <= |s|
    requires forall k :: 0 <= k < n ==> !(pattern <= s[k..])
    ensures Matches(s, pattern) == Matches(s[n..], pattern)
    ensures Replace(s, pattern, other) == s[..n] + Replace(s[n..], pattern, other)
    decreases n
  {
    if n > 0 {
      assert s[0..] == s;
      forall k | 0 <= k < n - 1 ensures !(pattern <= s[1..][k..]) {
        assert s[1..][k..] == s[k + 1..];
      }
      PassOver(s[1..], pattern, other, n - 1);
      assert s[1..][n - 1..] == s[n..];
      assert s[..n] == [s[0]] + s[1..][..n - 1];
    } else {
      assert s[0..] == s;
    }
  }

  lemma IdHidesNoMark(s: string, id: string, mark: string)
    requires Apart(id, mark) && id <= s
    ensures Matches(s, mark) == Matches(s[|id|..], mark)
  {
    forall k | 0 <= k < |id| ensures !(mark <= s[k..]) {
      assert s[k..][0] == s[k] == id[k];
    }
    PassOver(s, mark, "", |id|);
  }

  lemma MarkHidesNoId(s: string, id: string, mark: string)
    requires Apart(id, mark) && mark <= s
    ensures Matches(s, id) == Matches(s[|mark|..], id)
    ensures Replace(s, id, mark) == mark + Replace(s[|mark|..], id, mark)
  {
    var last := |mark| - 1;
    forall k | 0 <= k < |mark| ensures !(id <= s[k..]) {
      assert s[last] == mark[last] && id[last - k] != mark[last];
      assert |s[k..]| > last - k && s[k..][last - k] == s[last];
    }
    PassOver(s, id, mark, |mark|);
    assert s[..|mark|] == mark;
  }

  /** After the first replacement the placeholders are the inserted ones and those that were there before. */
  lemma {:induction false} MarksAfterReplacing(s: string, id: string, mark: string)
    requires Apart(id, mark) && Unbordered(mark)
    ensures Matches(Replace(s, id, mark), mark) == Matches(s, id) + Matches(s, mark)
    decreases |s|
  {
    if s != "" {
      if id <= s {
        var r := Replace(s[|id|..], id, mark);
        MarksAfterReplacing(s[|id|..], id, mark);
        IdHidesNoMark(s, id, mark);
        assert !(mark <= s) by { assert s[0] == id[0]; }
        assert (mark + r)[|mark|..] == r;
      } else if mark <= s {
        var r := Replace(s[|mark|..], id, mark);
        MarksAfterReplacing(s[|mark|..], id, mark);
        MarkHidesNoId(s, id, mark);
        assert (mark + r)[|mark|..] == r;
      } else {
        var r := Replace(s[1..], id, mark);
        MarksAfterReplacing(s[1..], id, mark);
        MarkIsOriginal(s, id, mark);
        assert ([s[0]] + r)[1..] == r;
      }
    }
  }

  lemma OneMoreTime(m: nat, d: int)
    ensures (m + 1) * d == m * d + d
  {
  }

  lemma {:induction false} ReplaceLength(s: string, pattern: string, other: string)
    requires pattern != ""
    ensures |Replace(s, pattern, other)| == |s| + Matches(s, pattern) * (|other| - |pattern|)
  {
    if s != "" {
      if pattern <= s {
        ReplaceLength(s[|pattern|..], pattern, other);
        OneMoreTime(Matches(s[|pattern|..], pattern), |other| - |pattern|);
      } else {
        ReplaceLength(s[1..], pattern, other);
      }
    }
  }

  /**
    Exactly when renaming through the placeholder is faithful: the text must not contain the
    placeholder. Otherwise the result even has the wrong length.
   */
  lemma RenamingFaithfulIff(s: string, id: string, mark: string, other: string)
    requires Apart(id, mark) && Unbordered(mark) && |other| > |mark|
    ensures Replace(Replace(s, id, mark), mark, other) == Replace(s, id, other) <==> !Occurs(s, mark)
  {
    if !Occurs(s, mark) {
      RenamingThroughMark(s, id, mark, other);
    } else {
      var m, extra := Matches(s, id), Matches(s, mark);
      MatchesIffOccurs(s, mark);
      MarksAfterReplacing(s, id, mark);
      ReplaceLength(s, id, mark);
      ReplaceLength(Replace(s, id, mark), mark, other);
      ReplaceLength(s, id, other);
      LengthsDiffer(m, extra, |id|, |mark|, |other|);
    }
  }

  lemma LengthsDiffer(m: nat, extra: nat, id: nat, mark: nat, other: nat)
    requires extra > 0 && other > mark
    ensures m * (mark - id) + (m + extra) * (other - mark) > m * (other - id)
  {
    assert m * (mark - id) + m * (other - mark) == m * (other - id);
    assert (m + extra) * (other - mark) == m * (other - mark) + extra * (other - mark);
    assert extra * (other - mark) > 0;
  }

  // ---------------------------------------------------------------- bundles

  const PLACEHOLDER := "$coworker"

  /** `str(uuid)`: 36 hexadecimal digits and hyphens. */
  predicate IsUuid(s: string) {
    |s| == 36 && forall i :: 0 <= i < |s| ==> s[i] == '-' || '0' <= s[i] <= '9' || 'a' <= s[i] <= 'f'
  }

  lemma PlaceholderFits(id: string)
    requires IsUuid(id)
    ensures Apart(id, PLACEHOLDER) && Unbordered(PLACEHOLDER)
  {
    var mark := PLACEHOLDER;
    assert mark[0] == '$' && mark[|mark| - 1] == 'r';
    assert mark[1..] == "coworker";
  }

  /** A workflow with its definition as canonical JSON text. */
  datatype Workflow = Workflow(name: string, definition: string)

  function Exported(ws: seq<Workflow>, id: string): seq<Workflow>
    requires id != ""
  {
    if ws == [] then []
    else
      Exported(ws[..|ws| - 1], id)
      + var w := ws[|ws| - 1];
        if Occurs(w.definition, id) then [Workflow(w.name, Replace(w.definition, id, PLACEHOLDER))] else []
  }

  function Imported(templates: seq<Workflow>, id: string): seq<Workflow> {
    seq(|templates|, i requires 0 <= i < |templates| =>
      Workflow(templates[i].name + " (imported)", Replace(templates[i].definition, PLACEHOLDER, id)))
  }

  /** The workflow part of `export_coworker_bundle`. */
  method ExportWorkflows(ws: seq<Workflow>, id: string) returns (templates: seq<Workflow>)
    requires id != ""
    ensures templates == Exported(ws, id)
  {
    templates := [];
    for i := 0 to |ws|
      invariant templates == Exported(ws[..i], id)
    {
      assert ws[..i + 1][..i] == ws[..i];
      if Occurs(ws[i].definition, id) {
        templates := templates + [Workflow(ws[i].name, Replace(ws[i].definition, id, PLACEHOLDER))];
      }
    }
    assert ws[..|ws|] == ws;
  }

  /** The workflow part of `import_coworker_bundle`. */
  method ImportWorkflows(templates: seq<Workflow>, id: string) returns (ws: seq<Workflow>)
    ensures ws == Imported(templates, id)
  {
    ws := [];
    for i := 0 to |templates|
      invariant ws == Imported(templates, id)[..i]
    {
      ws := ws + [Workflow(templates[i].name + " (imported)", Replace(templates[i].definition, PLACEHOLDER, id))];
    }
  }

  /** The workflows that mention `id`, renamed directly. */
  function Renamed(ws: seq<Workflow>, id: string, other: string): seq<Workflow>
    requires id != ""
  {
    if ws == [] then []
    else
      Renamed(ws[..|ws| - 1], id, other)
      + var w := ws[|ws| - 1];
        if Occurs(w.definition, id) then [Workflow(w.name + " (imported)", Replace(w.definition, id, other))] else []
  }

  /** No workflow that mentions `id` contains the placeholder. */
  ghost predicate MarkFree(ws: seq<Workflow>, id: string) {
    forall i :: 0 <= i < |ws| && Occurs(ws[i].definition, id) ==> !Occurs(ws[i].definition, PLACEHOLDER)
  }

  lemma MarkFreeAppend(ws: seq<Workflow>, w: Workflow, id: string)
    ensures MarkFree(ws + [w], id) <==>
            MarkFree(ws, id) && (Occurs(w.definition, id) ==> !Occurs(w.definition, PLACEHOLDER))
  {
    var all := ws + [w];
    assert all[|ws|] == w && forall i :: 0 <= i < |ws| ==> all[i] == ws[i];
  }

  /**
    Export then import renames the coworker in every workflow that mentions it, and changes nothing
    else, exactly when no such workflow contains the placeholder.
   */
  lemma {:induction false} BundleRoundTrip(ws: seq<Workflow>, id: string, other: string)
    requires IsUuid(id) && IsUuid(other)
    ensures |Imported(Exported(ws, id), other)| == |Renamed(ws, id, other)|
    ensures Imported(Exported(ws, id), other) == Renamed(ws, id, other) <==> MarkFree(ws, id)
  {
    if ws != [] {
      var earlier, w := ws[..|ws| - 1], ws[|ws| - 1];
      var a, b := Imported(Exported(earlier, id), other), Renamed(earlier, id, other);
      assert ws == earlier + [w];
      MarkFreeAppend(earlier, w, id);
      BundleRoundTrip(earlier, id, other);
      OneMoreWorkflow(earlier, w, id, other);
      PlaceholderFits(id);
      RenamingFaithfulIff(w.definition, id, PLACEHOLDER, other);
      if Occurs(w.definition, id) {
        var x, y := ThroughPlaceholder(w, id, other), Directly(w, id, other);
        AppendedEqual(a, b, x, y);
        assert x == y <==> !Occurs(w.definition, PLACEHOLDER);
      } else {
        assert a + [] == a && b + [] == b;
      }
    }
  }

  function ThroughPlaceholder(w: Workflow, id: string, other: string): Workflow
    requires id != ""
  {
    Workflow(w.name + " (imported)", Replace(Replace(w.definition, id, PLACEHOLDER), PLACEHOLDER, other))
  }

  function Directly(w: Workflow, id: string, other: string): Workflow
    requires id != ""
  {
    Workflow(w.name + " (imported)", Replace(w.definition, id, other))
  }

  lemma OneMoreWorkflow(ws: seq<Workflow>, w: Workflow, id: string, other: string)
    requires id != ""
    ensures Imported(Exported(ws + [w], id), other) ==
            Imported(Exported(ws, id), other)
            + if Occurs(w.definition, id) then [ThroughPlaceholder(w, id, other)] else []
    ensures Renamed(ws + [w], id, other) ==
            Renamed(ws, id, other) + if Occurs(w.definition, id) then [Directly(w, id, other)] else []
  {
    assert (ws + [w])[..|ws|] == ws;
  }

  lemma AppendedEqual<T>(a: seq<T>, b: seq<T>, x: T, y: T)
    requires |a| == |b|
    ensures a + [x] == b + [y] <==> a == b && x == y
  {
    assert (a + [x])[..|a|] == a && (b + [y])[..|b|] == b;
    assert (a + [x])[|a|] == x && (b + [y])[|b|] == y;
  }

  /** Importing a bundle back under the same id gives every exported definition back. */
  lemma SameIdGivesDefinitionBack(definition: string, id: string)
    requires IsUuid(id)
    ensures Replace(Replace(definition, id, PLACEHOLDER), PLACEHOLDER, id) == definition
            <==> !Occurs(definition, PLACEHOLDER)
  {
    PlaceholderFits(id);
    RenamingFaithfulIff(definition, id, PLACEHOLDER, id);
    ReplaceBySelf(definition, id);
  }
}
