/**
  Marketplace dependencies: `install_dependencies` walks a version's dependency graph depth first,
  sharing one set of visited versions among all recursive calls.
 */
module Marketplace {
  import opened Base

  /** An entry of a manifest's `dependencies`; a plain string is a listing without a requested version. */
  datatype Dependency = Dependency(listing: string, version: Option<string>)

  datatype Version = Version(id: nat, listing: string, version: string, approved: bool, dependencies: seq<Dependency>)

  /** All listing versions, newest first. */
  type Catalog = seq<Version>

  datatype InstallError = Cycle | Unavailable

  predicate Serves(v: Version, d: Dependency) {
    && v.listing == d.listing && v.approved
    && (d.version.Some? && d.version.value != "" ==> v.version == d.version.value)
  }

  /** The newest approved version that serves a dependency. */
  function Resolve(c: Catalog, d: Dependency): (r: Option<Version>)
    ensures r.Some? ==> r.value in c && Serves(r.value, d)
    ensures r.None? ==> forall i :: 0 <= i < |c| ==> !Serves(c[i], d)
  {
    if c == [] then None
    else if Serves(c[0], d) then Some(c[0])
    else Resolve(c[1..], d)
  }

  /** Approved, of the listing that is asked for, and of the version if one is asked for. */
  ghost predicate Fits(v: Version, d: Dependency) {
    && v.approved && v.listing == d.listing
    && (d.version == None || d.version == Some("") || d.version == Some(v.version))
  }

  lemma FitsIffServes(v: Version, d: Dependency)
    ensures Fits(v, d) <==> Serves(v, d)
  {
  }

  /** A dependency resolves to the first version of the catalog that fits it, and to none only when none fits. */
  lemma {:induction false} ResolvesToNewest(c: Catalog, d: Dependency)
    ensures match Resolve(c, d)
            case None => forall j :: 0 <= j < |c| ==> !Fits(c[j], d)
            case Some(v) => exists i :: 0 <= i < |c| && c[i] == v && Fits(v, d) && NoneFits(c[..i], d)
  {
    if c != [] {
      FitsIffServes(c[0], d);
    }
    if c != [] && !Serves(c[0], d) {
      var rest := c[1..];
      ResolvesToNewest(rest, d);
      match Resolve(rest, d)
      case None =>
        forall j | 0 <= j < |c| ensures !Fits(c[j], d) {
          assert j > 0 ==> c[j] == rest[j - 1];
        }
      case Some(v) =>
        var i :| 0 <= i < |rest| && rest[i] == v && Fits(v, d) && NoneFits(rest[..i], d);
        assert c[..i + 1] == [c[0]] + rest[..i];
        assert c[i + 1] == v && NoneFits(c[..i + 1], d);
    } else if c != [] {
      assert c[0] == c[0] && NoneFits(c[..0], d);
    }
  }

  ghost predicate NoneFits(c: Catalog, d: Dependency) {
    forall j :: 0 <= j < |c| ==> !Fits(c[j], d)
  }

  // ---------------------------------------------------------------- the walk, as a function

  ghost function Universe(c: Catalog, root: Version): set<nat> {
    {root.id} + set v | v in c :: v.id
  }

  ghost function Unvisited(c: Catalog, root: Version, visited: set<nat>): set<nat> {
    Universe(c, root) - visited
  }

  /** `install_dependencies`: the installed version ids, and the visited set it leaves behind. */
  ghost function Install(c: Catalog, root: Version, v: Version, visited: set<nat>):
      (r: (Result<seq<nat>, InstallError>, set<nat>))
    requires v == root || v in c
    ensures visited <= r.1
    decreases Unvisited(c, root, visited), 0
  {
    if v.id in visited then (Err(Cycle), visited)
    else
      assert Unvisited(c, root, visited + {v.id}) < Unvisited(c, root, visited) by {
        assert v.id in Unvisited(c, root, visited);
      }
      InstallAll(c, root, v.dependencies, visited + {v.id})
  }

  /** The loop over the dependencies still to come. */
  ghost function InstallAll(c: Catalog, root: Version, deps: seq<Dependency>, visited: set<nat>):
      (r: (Result<seq<nat>, InstallError>, set<nat>))
    ensures visited <= r.1
    decreases Unvisited(c, root, visited), |deps|
  {
    if deps == [] then (Ok([]), visited)
    else
      match Resolve(c, deps[0])
      case None => (Err(Unavailable), visited)
      case Some(d) =>
        var (first, visited1) := Install(c, root, d, visited);
        if first.Err? then (first, visited1)
        else
          assert Unvisited(c, root, visited1) <= Unvisited(c, root, visited);
          var (rest, visited2) := InstallAll(c, root, deps[1..], visited1);
          if rest.Err? then (rest, visited2)
          else (Ok(first.value + [d.id] + rest.value), visited2)
  }

  // ---------------------------------------------------------------- paths

  /** The version a path of dependency positions leads to, starting among `deps`. */
  ghost function Follow(c: Catalog, deps: seq<Dependency>, path: seq<nat>): Option<Version>
    decreases |path|
  {
    if path == [] || path[0] >= |deps| then None
    else
      match Resolve(c, deps[path[0]])
      case None => None
      case Some(d) => if |path| == 1 then Some(d) else Follow(c, d.dependencies, path[1..])
  }

  /** Some non-empty path leads to a version with this id. */
  ghost predicate Reaches(c: Catalog, deps: seq<Dependency>, id: nat) {
    exists path :: Follow(c, deps, path).Some? && Follow(c, deps, path).value.id == id
  }

  ghost predicate AllResolve(c: Catalog, deps: seq<Dependency>) {
    forall k :: 0 <= k < |deps| ==> Resolve(c, deps[k]).Some?
  }

  /** Every dependency below `deps` resolves, and no version is reached twice or is in `taken`. */
  ghost predicate Installable(c: Catalog, deps: seq<Dependency>, taken: set<nat>) {
    && AllResolve(c, deps)
    && (forall p :: Follow(c, deps, p).Some? ==> AllResolve(c, Follow(c, deps, p).value.dependencies))
    && (forall p :: Follow(c, deps, p).Some? ==> Follow(c, deps, p).value.id !in taken)
    && (forall p, q :: (&& Follow(c, deps, p).Some? && Follow(c, deps, q).Some?
                        && Follow(c, deps, p).value.id == Follow(c, deps, q).value.id) ==> p == q)
  }

  lemma TakenIsNotReached(c: Catalog, deps: seq<Dependency>, taken: set<nat>, id: nat)
    requires Installable(c, deps, taken) && id in taken
    ensures !Reaches(c, deps, id)
  {
  }

  /** A path among `deps` starts at the first dependency or further on. */
  lemma FollowFirst(c: Catalog, deps: seq<Dependency>, path: seq<nat>)
    requires deps != [] && Resolve(c, deps[0]).Some?
    ensures var d := Resolve(c, deps[0]).value;
            Follow(c, deps, [0] + path) == if path == [] then Some(d) else Follow(c, d.dependencies, path)
  {
    assert ([0] + path)[1..] == path;
  }

  /** The same path seen from one dependency earlier. */
  function Shift(path: seq<nat>): seq<nat>
    requires path != []
  {
    [path[0] + 1] + path[1..]
  }

  lemma FollowRest(c: Catalog, deps: seq<Dependency>, path: seq<nat>)
    requires deps != [] && path != []
    ensures Follow(c, deps[1..], path) == Follow(c, deps, Shift(path))
  {
    assert Shift(path)[1..] == path[1..];
  }

  function Unshift(path: seq<nat>): seq<nat>
    requires path != [] && path[0] > 0
  {
    [path[0] - 1] + path[1..]
  }

  lemma PathKinds(path: seq<nat>)
    requires path != []
    ensures path[0] == 0 ==> path == [0] + path[1..]
    ensures path[0] > 0 ==> path == Shift(Unshift(path))
  {
  }

  lemma PathsCancel(p: seq<nat>, q: seq<nat>)
    ensures [0] + p == [0] + q ==> p == q
    ensures p != [] && q != [] && Shift(p) == Shift(q) ==> p == q
    ensures p != [] ==> Shift(p) != [0] + q
  {
    assert ([0] + p)[1..] == p && ([0] + q)[1..] == q;
    if p != [] && q != [] && Shift(p) == Shift(q) {
      assert Shift(p)[0] == p[0] + 1 && Shift(q)[0] == q[0] + 1;
      assert Shift(p)[1..] == p[1..] && Shift(q)[1..] == q[1..];
      assert p == [p[0]] + p[1..] && q == [q[0]] + q[1..];
    }
  }

  /** What the first dependency's own subtree reaches, itself included. */
  ghost predicate ReachesFrom(c: Catalog, d: Version, id: nat) {
    d.id == id || Reaches(c, d.dependencies, id)
  }

  lemma ReachesSplit(c: Catalog, deps: seq<Dependency>, id: nat)
    requires deps != [] && Resolve(c, deps[0]).Some?
    ensures Reaches(c, deps, id) <==> ReachesFrom(c, Resolve(c, deps[0]).value, id) || Reaches(c, deps[1..], id)
  {
    var d := Resolve(c, deps[0]).value;
    if Reaches(c, deps, id) {
      var p :| Follow(c, deps, p).Some? && Follow(c, deps, p).value.id == id;
      PathKinds(p);
      if p[0] == 0 {
        FollowFirst(c, deps, p[1..]);
      } else {
        FollowRest(c, deps, Unshift(p));
      }
    }
    if ReachesFrom(c, d, id) {
      var p := PathFrom(c, deps, id);
    }
    if Reaches(c, deps[1..], id) {
      var p :| Follow(c, deps[1..], p).Some? && Follow(c, deps[1..], p).value.id == id;
      FollowRest(c, deps, p);
    }
  }

  /** A path through the first dependency to what its subtree reaches. */
  lemma PathFrom(c: Catalog, deps: seq<Dependency>, id: nat) returns (path: seq<nat>)
    requires deps != [] && Resolve(c, deps[0]).Some? && ReachesFrom(c, Resolve(c, deps[0]).value, id)
    ensures Follow(c, deps, [0] + path).Some? && Follow(c, deps, [0] + path).value.id == id
  {
    var d := Resolve(c, deps[0]).value;
    if d.id == id {
      path := [];
    } else {
      path :| Follow(c, d.dependencies, path).Some? && Follow(c, d.dependencies, path).value.id == id;
    }
    FollowFirst(c, deps, path);
  }

  // ---------------------------------------------------------------- taking the first dependency off

  ghost predicate TreeInstallable(c: Catalog, d: Version, taken: set<nat>) {
    d.id !in taken && Installable(c, d.dependencies, taken + {d.id})
  }

  /** `after` is `taken` together with everything reached from `d`. */
  ghost predicate Grown(c: Catalog, d: Version, taken: set<nat>, after: set<nat>) {
    forall id :: id in after <==> id in taken || ReachesFrom(c, d, id)
  }

  lemma FirstTreeInstallable(c: Catalog, deps: seq<Dependency>, taken: set<nat>)
    requires deps != [] && Installable(c, deps, taken)
    ensures Resolve(c, deps[0]).Some? && TreeInstallable(c, Resolve(c, deps[0]).value, taken)
  {
    var d := Resolve(c, deps[0]).value;
    FollowFirst(c, deps, []);
    assert Follow(c, deps, [0] + []) == Some(d);
    forall p | Follow(c, d.dependencies, p).Some?
      ensures var u := Follow(c, d.dependencies, p).value; AllResolve(c, u.dependencies) && u.id !in taken + {d.id}
    {
      FollowFirst(c, deps, p);
      PathsCancel(p, []);
    }
    forall p, q | Follow(c, d.dependencies, p).Some? && Follow(c, d.dependencies, q).Some?
                  && Follow(c, d.dependencies, p).value.id == Follow(c, d.dependencies, q).value.id
      ensures p == q
    {
      FollowFirst(c, deps, p);
      FollowFirst(c, deps, q);
      PathsCancel(p, q);
    }
  }

  lemma RestInstallable(c: Catalog, deps: seq<Dependency>, taken: set<nat>, after: set<nat>)
    requires deps != [] && Installable(c, deps, taken) && Grown(c, Resolve(c, deps[0]).value, taken, after)
    ensures Installable(c, deps[1..], after)
  {
    var rest := deps[1..];
    assert forall k :: 0 <= k < |rest| ==> rest[k] == deps[k + 1];
    forall p | Follow(c, rest, p).Some?
      ensures var u := Follow(c, rest, p).value; AllResolve(c, u.dependencies) && u.id !in after
    {
      FollowRest(c, deps, p);
      var id := Follow(c, rest, p).value.id;
      if ReachesFrom(c, Resolve(c, deps[0]).value, id) {
        var q := PathFrom(c, deps, id);
        PathsCancel(p, q);
      }
    }
    forall p, q | Follow(c, rest, p).Some? && Follow(c, rest, q).Some?
                  && Follow(c, rest, p).value.id == Follow(c, rest, q).value.id
      ensures p == q
    {
      FollowRest(c, deps, p);
      FollowRest(c, deps, q);
      PathsCancel(p, q);
    }
  }

  /** A path among `deps`, resolved in whichever part it belongs to. */
  lemma PathFacts(c: Catalog, deps: seq<Dependency>, p: seq<nat>, taken: set<nat>, after: set<nat>)
    requires deps != [] && Resolve(c, deps[0]).Some? && Follow(c, deps, p).Some?
    requires var d := Resolve(c, deps[0]).value;
             TreeInstallable(c, d, taken) && Grown(c, d, taken, after) && Installable(c, deps[1..], after)
    ensures var u := Follow(c, deps, p).value;
            && AllResolve(c, u.dependencies) && u.id !in taken
            && (p[0] == 0 ==> ReachesFrom(c, Resolve(c, deps[0]).value, u.id))
            && (p[0] > 0 ==> u.id !in after)
  {
    PathKinds(p);
    if p[0] == 0 {
      FollowFirst(c, deps, p[1..]);
    } else {
      FollowRest(c, deps, Unshift(p));
    }
  }

  lemma WholeInstallable(c: Catalog, deps: seq<Dependency>, taken: set<nat>, after: set<nat>)
    requires deps != [] && Resolve(c, deps[0]).Some?
    requires var d := Resolve(c, deps[0]).value;
             TreeInstallable(c, d, taken) && Grown(c, d, taken, after) && Installable(c, deps[1..], after)
    ensures Installable(c, deps, taken)
  {
    var d := Resolve(c, deps[0]).value;
    forall k | 0 <= k < |deps| ensures Resolve(c, deps[k]).Some? {
      if k > 0 { assert deps[1..][k - 1] == deps[k]; }
    }
    forall p | Follow(c, deps, p).Some?
      ensures AllResolve(c, Follow(c, deps, p).value.dependencies) && Follow(c, deps, p).value.id !in taken
    {
      PathFacts(c, deps, p, taken, after);
    }
    forall p, q | Follow(c, deps, p).Some? && Follow(c, deps, q).Some?
                  && Follow(c, deps, p).value.id == Follow(c, deps, q).value.id
      ensures p == q
    {
      PathFacts(c, deps, p, taken, after);
      PathFacts(c, deps, q, taken, after);
      SamePath(c, deps, p, q, taken, after);
    }
  }

  lemma SamePath(c: Catalog, deps: seq<Dependency>, p: seq<nat>, q: seq<nat>, taken: set<nat>, after: set<nat>)
    requires deps != [] && Resolve(c, deps[0]).Some?
    requires var d := Resolve(c, deps[0]).value;
             TreeInstallable(c, d, taken) && Grown(c, d, taken, after) && Installable(c, deps[1..], after)
    requires Follow(c, deps, p).Some? && Follow(c, deps, q).Some?
    requires Follow(c, deps, p).value.id == Follow(c, deps, q).value.id && (p[0] == 0 <==> q[0] == 0)
    ensures p == q
  {
    PathKinds(p);
    PathKinds(q);
    if p[0] == 0 {
      FollowFirst(c, deps, p[1..]);
      FollowFirst(c, deps, q[1..]);
    } else {
      FollowRest(c, deps, Unshift(p));
      FollowRest(c, deps, Unshift(q));
    }
  }

  // ---------------------------------------------------------------- correctness of the walk

  ghost predicate Visits(c: Catalog, deps: seq<Dependency>, visited: set<nat>, after: set<nat>) {
    forall id :: id in after <==> id in visited || Reaches(c, deps, id)
  }

  lemma {:induction false} InstallCorrect(c: Catalog, root: Version, v: Version, visited: set<nat>)
    requires v == root || v in c
    ensures var (r, after) := Install(c, root, v, visited);
            && (r.Ok? <==> TreeInstallable(c, v, visited))
            && (r.Ok? ==> Grown(c, v, visited, after))
    decreases Unvisited(c, root, visited), 0
  {
    if v.id !in visited {
      assert v.id in Unvisited(c, root, visited);
      InstallAllCorrect(c, root, v.dependencies, visited + {v.id});
    }
  }

  lemma {:induction false} InstallAllCorrect(c: Catalog, root: Version, deps: seq<Dependency>, visited: set<nat>)
    ensures var (r, after) := InstallAll(c, root, deps, visited);
            && (r.Ok? <==> Installable(c, deps, visited))
            && (r.Ok? ==> Visits(c, deps, visited, after))
    decreases Unvisited(c, root, visited), |deps|
  {
    if deps != [] && Resolve(c, deps[0]).Some? {
      var d := Resolve(c, deps[0]).value;
      InstallCorrect(c, root, d, visited);
      var (first, visited1) := Install(c, root, d, visited);
      if first.Ok? {
        assert Unvisited(c, root, visited1) <= Unvisited(c, root, visited);
        InstallAllCorrect(c, root, deps[1..], visited1);
        if Installable(c, deps, visited) {
          RestInstallable(c, deps, visited, visited1);
        }
        if Installable(c, deps[1..], visited1) {
          WholeInstallable(c, deps, visited, visited1);
        }
        forall id: nat { ReachesSplit(c, deps, id); }
      } else if Installable(c, deps, visited) {
        FirstTreeInstallable(c, deps, visited);
      }
    }
  }

  // ---------------------------------------------------------------- what is returned

  ghost predicate Before(list: seq<nat>, a: nat, b: nat) {
    exists i, j :: 0 <= i < j < |list| && list[i] == a && list[j] == b
  }

  lemma BeforeStays(front: seq<nat>, list: seq<nat>, back: seq<nat>, a: nat, b: nat)
    requires Before(list, a, b)
    ensures Before(front + list + back, a, b)
  {
    var i, j :| 0 <= i < j < |list| && list[i] == a && list[j] == b;
    var all := front + list + back;
    assert all[|front| + i] == a && all[|front| + j] == b;
  }

  /** Each reached version once, after all of its own dependencies. */
  ghost predicate Listed(c: Catalog, deps: seq<Dependency>, list: seq<nat>) {
    && Distinct(list)
    && (forall id :: id in list <==> Reaches(c, deps, id))
    && forall p, k :: Follow(c, deps, p).Some? && 0 <= k < |Follow(c, deps, p).value.dependencies|
                      && Resolve(c, Follow(c, deps, p).value.dependencies[k]).Some? ==>
         Before(list, Resolve(c, Follow(c, deps, p).value.dependencies[k]).value.id, Follow(c, deps, p).value.id)
  }

  lemma ListedContents(c: Catalog, deps: seq<Dependency>, visited: set<nat>, after: set<nat>, first: seq<nat>,
                       rest: seq<nat>)
    requires deps != [] && Resolve(c, deps[0]).Some?
    requires var d := Resolve(c, deps[0]).value;
             && TreeInstallable(c, d, visited) && Grown(c, d, visited, after) && Installable(c, deps[1..], after)
             && Listed(c, d.dependencies, first) && Listed(c, deps[1..], rest)
    ensures var all := first + [Resolve(c, deps[0]).value.id] + rest;
            Distinct(all) && forall id :: id in all <==> Reaches(c, deps, id)
  {
    var d := Resolve(c, deps[0]).value;
    var all := first + [d.id] + rest;
    forall id: nat ensures id in all <==> Reaches(c, deps, id) {
      ReachesSplit(c, deps, id);
    }
    assert d.id !in first by {
      TakenIsNotReached(c, d.dependencies, visited + {d.id}, d.id);
    }
    forall id | id in rest ensures id !in first && id != d.id {
      var p :| Follow(c, deps[1..], p).Some? && Follow(c, deps[1..], p).value.id == id;
    }
    assert forall j :: 0 <= j < |first| ==> first[j] in first;
    assert forall j :: 0 <= j < |rest| ==> rest[j] in rest;
  }

  lemma ListedOrder(c: Catalog, deps: seq<Dependency>, first: seq<nat>, rest: seq<nat>, p: seq<nat>, k: nat)
    requires deps != [] && Resolve(c, deps[0]).Some? && Follow(c, deps, p).Some?
    requires k < |Follow(c, deps, p).value.dependencies|
    requires Resolve(c, Follow(c, deps, p).value.dependencies[k]).Some?
    requires Listed(c, Resolve(c, deps[0]).value.dependencies, first) && Listed(c, deps[1..], rest)
    ensures var u := Follow(c, deps, p).value;
            Before(first + [Resolve(c, deps[0]).value.id] + rest, Resolve(c, u.dependencies[k]).value.id, u.id)
  {
    var d, u := Resolve(c, deps[0]).value, Follow(c, deps, p).value;
    var a := Resolve(c, u.dependencies[k]).value.id;
    PathKinds(p);
    if p[0] > 0 {
      FollowRest(c, deps, Unshift(p));
      BeforeStays(first + [d.id], rest, [], a, u.id);
      assert first + [d.id] + rest + [] == first + [d.id] + rest;
    } else {
      FollowFirst(c, deps, p[1..]);
      if p[1..] == [] {
        assert Follow(c, u.dependencies, [k]) == Resolve(c, u.dependencies[k]);
        assert Reaches(c, u.dependencies, a);
        var i :| 0 <= i < |first| && first[i] == a;
        var all := first + [d.id] + rest;
        assert all[i] == a && all[|first|] == d.id;
      } else {
        BeforeStays([], first, [d.id] + rest, a, u.id);
        assert [] + first + ([d.id] + rest) == first + [d.id] + rest;
      }
    }
  }

  lemma {:induction false} InstallAllListed(c: Catalog, root: Version, deps: seq<Dependency>, visited: set<nat>)
    requires InstallAll(c, root, deps, visited).0.Ok?
    ensures Listed(c, deps, InstallAll(c, root, deps, visited).0.value)
    decreases Unvisited(c, root, visited), |deps|
  {
    if deps != [] {
      var d := Resolve(c, deps[0]).value;
      var (first, visited1) := Install(c, root, d, visited);
      var rest := InstallAll(c, root, deps[1..], visited1).0;
      assert d.id in Unvisited(c, root, visited);
      assert Unvisited(c, root, visited1) <= Unvisited(c, root, visited);
      InstallAllListed(c, root, d.dependencies, visited + {d.id});
      InstallAllListed(c, root, deps[1..], visited1);
      InstallCorrect(c, root, d, visited);
      InstallAllCorrect(c, root, deps[1..], visited1);
      ListedContents(c, deps, visited, visited1, first.value, rest.value);
      forall p, k | Follow(c, deps, p).Some? && 0 <= k < |Follow(c, deps, p).value.dependencies|
                    && Resolve(c, Follow(c, deps, p).value.dependencies[k]).Some?
        ensures Before(first.value + [d.id] + rest.value,
                       Resolve(c, Follow(c, deps, p).value.dependencies[k]).value.id, Follow(c, deps, p).value.id)
      {
        ListedOrder(c, deps, first.value, rest.value, p, k);
      }
    }
  }

  // ---------------------------------------------------------------- why it fails

  /** A dependency among `deps` or somewhere below them resolves to nothing. */
  ghost predicate Missing(c: Catalog, deps: seq<Dependency>) {
    !AllResolve(c, deps) || exists p :: LeadsNowhere(c, deps, p)
  }

  ghost predicate LeadsNowhere(c: Catalog, deps: seq<Dependency>, p: seq<nat>) {
    Follow(c, deps, p).Some? && !AllResolve(c, Follow(c, deps, p).value.dependencies)
  }

  ghost predicate LeadsInto(c: Catalog, deps: seq<Dependency>, taken: set<nat>, p: seq<nat>) {
    Follow(c, deps, p).Some? && Follow(c, deps, p).value.id in taken
  }

  ghost predicate MeetAt(c: Catalog, deps: seq<Dependency>, p: seq<nat>, q: seq<nat>) {
    && p != q && Follow(c, deps, p).Some? && Follow(c, deps, q).Some?
    && Follow(c, deps, p).value.id == Follow(c, deps, q).value.id
  }

  /** A version below `deps` is in `taken`, or is reached twice. */
  ghost predicate Repeats(c: Catalog, deps: seq<Dependency>, taken: set<nat>) {
    (exists p :: LeadsInto(c, deps, taken, p)) || exists p, q :: MeetAt(c, deps, p, q)
  }

  /** What is missing below the first dependency is missing below them all. */
  lemma MissingInFirst(c: Catalog, deps: seq<Dependency>)
    requires deps != [] && Resolve(c, deps[0]).Some? && Missing(c, Resolve(c, deps[0]).value.dependencies)
    ensures Missing(c, deps)
  {
    var d := Resolve(c, deps[0]).value;
    if !AllResolve(c, d.dependencies) {
      FollowFirst(c, deps, []);
      assert LeadsNowhere(c, deps, [0] + []);
    } else {
      var p :| LeadsNowhere(c, d.dependencies, p);
      FollowFirst(c, deps, p);
      assert LeadsNowhere(c, deps, [0] + p);
    }
  }

  lemma MissingInRest(c: Catalog, deps: seq<Dependency>)
    requires deps != [] && Missing(c, deps[1..])
    ensures Missing(c, deps)
  {
    if !AllResolve(c, deps[1..]) {
      var k :| 0 <= k < |deps[1..]| && Resolve(c, deps[1..][k]).None?;
      assert deps[1..][k] == deps[k + 1];
    } else {
      var p :| LeadsNowhere(c, deps[1..], p);
      FollowRest(c, deps, p);
      assert LeadsNowhere(c, deps, Shift(p));
    }
  }

  lemma RepeatsInFirst(c: Catalog, deps: seq<Dependency>, taken: set<nat>)
    requires deps != [] && Resolve(c, deps[0]).Some?
    requires var d := Resolve(c, deps[0]).value; Repeats(c, d.dependencies, taken + {d.id})
    ensures Repeats(c, deps, taken)
  {
    var d := Resolve(c, deps[0]).value;
    if p :| LeadsInto(c, d.dependencies, taken + {d.id}, p) {
      FollowFirst(c, deps, p);
      FollowFirst(c, deps, []);
      if Follow(c, d.dependencies, p).value.id == d.id {
        PathsCancel(p, []);
        assert MeetAt(c, deps, [0] + p, [0] + []);
      } else {
        assert LeadsInto(c, deps, taken, [0] + p);
      }
    } else {
      var p, q :| MeetAt(c, d.dependencies, p, q);
      FollowFirst(c, deps, p);
      FollowFirst(c, deps, q);
      PathsCancel(p, q);
      assert MeetAt(c, deps, [0] + p, [0] + q);
    }
  }

  lemma RepeatsInRest(c: Catalog, deps: seq<Dependency>, taken: set<nat>, after: set<nat>)
    requires deps != [] && Resolve(c, deps[0]).Some? && Grown(c, Resolve(c, deps[0]).value, taken, after)
    requires Repeats(c, deps[1..], after)
    ensures Repeats(c, deps, taken)
  {
    if p :| LeadsInto(c, deps[1..], after, p) {
      FollowRest(c, deps, p);
      var id := Follow(c, deps[1..], p).value.id;
      if id in taken {
        assert LeadsInto(c, deps, taken, Shift(p));
      } else {
        var q := PathFrom(c, deps, id);
        PathsCancel(p, q);
        assert MeetAt(c, deps, Shift(p), [0] + q);
      }
    } else {
      var p, q :| MeetAt(c, deps[1..], p, q);
      FollowRest(c, deps, p);
      FollowRest(c, deps, q);
      PathsCancel(p, q);
      assert MeetAt(c, deps, Shift(p), Shift(q));
    }
  }

  lemma {:induction false} InstallAllErrs(c: Catalog, root: Version, deps: seq<Dependency>, visited: set<nat>)
    ensures InstallAll(c, root, deps, visited).0 == Err(Unavailable) ==> Missing(c, deps)
    ensures InstallAll(c, root, deps, visited).0 == Err(Cycle) ==> Repeats(c, deps, visited)
    decreases Unvisited(c, root, visited), |deps|
  {
    if deps != [] && Resolve(c, deps[0]).Some? {
      var d := Resolve(c, deps[0]).value;
      var (first, visited1) := Install(c, root, d, visited);
      if d.id in visited {
        FollowFirst(c, deps, []);
        assert LeadsInto(c, deps, visited, [0] + []);
      } else if first.Err? {
        assert d.id in Unvisited(c, root, visited);
        InstallAllErrs(c, root, d.dependencies, visited + {d.id});
        if first.error == Cycle {
          RepeatsInFirst(c, deps, visited);
        } else {
          MissingInFirst(c, deps);
        }
      } else {
        assert Unvisited(c, root, visited1) <= Unvisited(c, root, visited);
        InstallCorrect(c, root, d, visited);
        InstallAllErrs(c, root, deps[1..], visited1);
        RestErrs(c, root, deps, visited, visited1);
      }
    }
  }

  lemma RestErrs(c: Catalog, root: Version, deps: seq<Dependency>, visited: set<nat>, after: set<nat>)
    requires deps != [] && Resolve(c, deps[0]).Some? && Grown(c, Resolve(c, deps[0]).value, visited, after)
    requires InstallAll(c, root, deps[1..], after).0 == Err(Unavailable) ==> Missing(c, deps[1..])
    requires InstallAll(c, root, deps[1..], after).0 == Err(Cycle) ==> Repeats(c, deps[1..], after)
    ensures InstallAll(c, root, deps[1..], after).0 == Err(Unavailable) ==> Missing(c, deps)
    ensures InstallAll(c, root, deps[1..], after).0 == Err(Cycle) ==> Repeats(c, deps, visited)
  {
    var r := InstallAll(c, root, deps[1..], after).0;
    if r == Err(Unavailable) {
      MissingInRest(c, deps);
    } else if r == Err(Cycle) {
      RepeatsInRest(c, deps, visited, after);
    }
  }

  /** The error tells why: a dependency below the root is unavailable, or a version, perhaps the root, is met again. */
  lemma ErrorTellsWhy(c: Catalog, root: Version)
    ensures match Install(c, root, root, {}).0
            case Ok(_) => true
            case Err(Unavailable) => Missing(c, root.dependencies)
            case Err(Cycle) => Repeats(c, root.dependencies, {root.id})
  {
    InstallAllErrs(c, root, root.dependencies, {} + {root.id});
    assert {} + {root.id} == {root.id};
  }

  // ---------------------------------------------------------------- main results

  /**
    On any dependency graph, cyclic or not, installation succeeds exactly when every dependency
    below the root resolves and no version is reached twice, the root included: diamonds are refused
    as well as cycles.
   */
  lemma InstallsIffReachedOnce(c: Catalog, root: Version)
    ensures Install(c, root, root, {}).0.Ok? <==>
            && Installable(c, root.dependencies, {})
            && !Reaches(c, root.dependencies, root.id)
  {
    InstallCorrect(c, root, root, {});
    if Installable(c, root.dependencies, {}) && !Reaches(c, root.dependencies, root.id) {
      assert Installable(c, root.dependencies, {} + {root.id});
    }
    if Installable(c, root.dependencies, {} + {root.id}) {
      TakenIsNotReached(c, root.dependencies, {} + {root.id}, root.id);
    }
  }

  /** The versions installed are those reached below the root, once each and dependencies first. */
  lemma InstalledInOrder(c: Catalog, root: Version)
    requires Install(c, root, root, {}).0.Ok?
    ensures Listed(c, root.dependencies, Install(c, root, root, {}).0.value)
  {
    InstallAllListed(c, root, root.dependencies, {} + {root.id});
  }

  // ---------------------------------------------------------------- the walk itself

  /** One top-level call of `install_dependencies`: `visited` is the set all recursive calls share. */
  class Installer {
    const catalog: Catalog
    ghost const root: Version
    var visited: set<nat>

    constructor (catalog: Catalog, ghost root: Version)
      ensures this.catalog == catalog && this.root == root && visited == {}
    {
      this.catalog, this.root, visited := catalog, root, {};
    }

    method InstallDependencies(version: Version) returns (r: Result<seq<nat>, InstallError>)
      requires version == root || version in catalog
      modifies this`visited
      ensures (r, visited) == Install(catalog, root, version, old(visited))
      decreases Unvisited(catalog, root, visited)
    {
      if version.id in visited {
        return Err(Cycle);
      }
      ghost var before := visited;
      assert version.id in Unvisited(catalog, root, before);
      visited := visited + {version.id};
      var installed: seq<nat> := [];
      ghost var goal := InstallAll(catalog, root, version.dependencies, visited);
      assert version.dependencies[0..] == version.dependencies;
      assert goal.0.Ok? ==> [] + goal.0.value == goal.0.value;
      for i := 0 to |version.dependencies|
        invariant before + {version.id} <= visited
        invariant goal == Continue(installed, InstallAll(catalog, root, version.dependencies[i..], visited))
      {
        ghost var rest := version.dependencies[i..];
        assert rest[0] == version.dependencies[i] && rest[1..] == version.dependencies[i + 1..];
        var dependency := Resolve(catalog, version.dependencies[i]);
        if dependency.None? {
          return Err(Unavailable);
        }
        var below := InstallDependencies(dependency.value);
        if below.Err? {
          return below;
        }
        ghost var so := installed;
        installed := installed + below.value;
        installed := installed + [dependency.value.id];
        ContinueJoins(so, below.value + [dependency.value.id],
                      InstallAll(catalog, root, version.dependencies[i + 1..], visited));
        assert so + (below.value + [dependency.value.id]) == installed;
      }
      assert installed + [] == installed;
      return Ok(installed);
    }
  }

  /** What remains to be returned once `so` has been collected. */
  ghost function Continue(so: seq<nat>, rest: (Result<seq<nat>, InstallError>, set<nat>)):
      (Result<seq<nat>, InstallError>, set<nat>)
  {
    (if rest.0.Ok? then Ok(so + rest.0.value) else rest.0, rest.1)
  }

  lemma ContinueJoins(a: seq<nat>, b: seq<nat>, rest: (Result<seq<nat>, InstallError>, set<nat>))
    ensures Continue(a, Continue(b, rest)) == Continue(a + b, rest)
  {
    if rest.0.Ok? {
      assert a + (b + rest.0.value) == a + b + rest.0.value;
    }
  }
}
