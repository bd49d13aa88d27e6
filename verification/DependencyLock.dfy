/**
 The package part of a dependency lock: the table of packages and the depth-first search
 that decides whether their needs form a complete, acyclic graph in which everything is
 wanted by a direct dependency.
 */
module DependencyLock {
  import opened Names
  import opened Wrappers

  /** One entry of the lock's package list, as scalars. */
  datatype Entry = Entry(
    name: string, version: string, registry: string, sha256: string, recipeSha256: string, direct: string,
    needs: seq<string>)

  datatype Package = Package(
    name: string, version: string, registry: string, sha256: string, recipeSha256: string, direct: bool,
    needs: seq<string>)

  datatype Problem =
    | BadCount | BadIdentity | BadDigest | BadDirect | TooManyNeeds | BadNeed
    | Cycle | Unresolved | Unreachable

  const MAX_PACKAGES := 1024
  const MAX_NEEDS := 256
  const MAX_TOKEN := 128

  // ----- the table ------------------------------------------------------------------

  predicate SafeToken(s: string) {
    0 < |s| <= MAX_TOKEN &&
    forall i | 0 <= i < |s| :: LowerOrDigit(s[i]) || 'A' <= s[i] <= 'Z' || s[i] in "._-+"
  }

  predicate Distinct<T(==)>(xs: seq<T>) {
    forall i, j | 0 <= i < j < |xs| :: xs[i] != xs[j]
  }

  predicate EntryOk(e: Entry) {
    && SafeToken(e.name) && SafeToken(e.version) && ValidLabel(e.registry)
    && ValidSha256(e.sha256) && ValidSha256(e.recipeSha256)
    && e.direct in ["true", "false"]
    && |e.needs| <= MAX_NEEDS && Distinct(e.needs)
    && forall i | 0 <= i < |e.needs| :: SafeToken(e.needs[i])
  }

  function PackageOf(e: Entry): Package {
    Package(e.name, e.version, e.registry, e.sha256, e.recipeSha256, e.direct == "true", e.needs)
  }

  /** Entries that make a table: each of them fine, and no name twice. */
  predicate Tabular(entries: seq<Entry>) {
    && 0 < |entries| <= MAX_PACKAGES
    && (forall i | 0 <= i < |entries| :: EntryOk(entries[i]))
    && (forall i, j | 0 <= i < j < |entries| :: entries[i].name != entries[j].name)
  }

  /** `names` finds every package by its name, and nothing else. */
  predicate Indexed(packages: seq<Package>, names: map<string, nat>) {
    && (forall i | 0 <= i < |packages| :: packages[i].name in names && names[packages[i].name] == i)
    && (forall n | n in names :: names[n] < |packages| && packages[names[n]].name == n)
  }

  method CheckNeeds(needs: seq<string>) returns (ok: bool)
    ensures ok <==> Distinct(needs) && forall i | 0 <= i < |needs| :: SafeToken(needs[i])
  {
    var unique: set<string> := {};
    for i := 0 to |needs|
      invariant unique == set k | 0 <= k < i :: needs[k]
      invariant Distinct(needs[..i]) && forall k | 0 <= k < i :: SafeToken(needs[k])
    {
      if !SafeToken(needs[i]) || needs[i] in unique {
        assert !SafeToken(needs[i]) || exists k | 0 <= k < i :: needs[k] == needs[i];
        return false;
      }
      unique := unique + {needs[i]};
    }
    assert needs[..|needs|] == needs;
    return true;
  }

  /** The first `i` entries are fine, named apart, and in the table. */
  predicate Loaded(entries: seq<Entry>, i: nat, packages: seq<Package>, names: map<string, nat>)
    requires i <= |entries|
  {
    && |packages| == i && Indexed(packages, names)
    && (forall k | 0 <= k < i :: packages[k] == PackageOf(entries[k]) && EntryOk(entries[k]))
    && (forall k, l | 0 <= k < l < i :: entries[k].name != entries[l].name)
  }

  lemma LoadedMore(entries: seq<Entry>, i: nat, packages: seq<Package>, names: map<string, nat>)
    requires i < |entries| && Loaded(entries, i, packages, names) && EntryOk(entries[i]) && entries[i].name !in names
    ensures Loaded(entries, i + 1, packages + [PackageOf(entries[i])], names[entries[i].name := i])
  {
    hide EntryOk;
    forall k | 0 <= k < i
      ensures entries[k].name != entries[i].name
    {
      assert packages[k].name in names;
    }
  }

  /** A name that is in the table already is that of an earlier entry. */
  lemma Doubled(entries: seq<Entry>, i: nat, packages: seq<Package>, names: map<string, nat>)
    requires i < |entries| && Loaded(entries, i, packages, names) && entries[i].name in names
    ensures !Tabular(entries)
  {
    hide EntryOk;
    var k := names[entries[i].name];
    assert entries[k].name == entries[i].name;
  }

  method BuildTable(entries: seq<Entry>) returns (r: Result<(seq<Package>, map<string, nat>), Problem>)
    ensures r.Success? <==> Tabular(entries)
    ensures r.Success? ==>
              && |r.value.0| == |entries|
              && (forall i | 0 <= i < |entries| :: r.value.0[i] == PackageOf(entries[i]))
              && Indexed(r.value.0, r.value.1)
  {
    if |entries| == 0 || |entries| > MAX_PACKAGES {
      return Failure(BadCount);
    }
    hide SafeToken, ValidLabel, ValidSha256, Distinct, Indexed, PackageOf;
    var packages: seq<Package>, names: map<string, nat> := [], map[];
    NothingLoaded(entries);
    for i := 0 to |entries|
      invariant Loaded(entries, i, packages, names)
    {
      var e := entries[i];
      if !SafeToken(e.name) || !SafeToken(e.version) || !ValidLabel(e.registry) || e.name in names {
        if e.name in names {
          Doubled(entries, i, packages, names);
        }
        return Failure(BadIdentity);
      }
      if !ValidSha256(e.sha256) || !ValidSha256(e.recipeSha256) {
        return Failure(BadDigest);
      }
      if e.direct != "true" && e.direct != "false" {
        return Failure(BadDirect);
      }
      if |e.needs| > MAX_NEEDS {
        return Failure(TooManyNeeds);
      }
      var ok := CheckNeeds(e.needs);
      if !ok {
        return Failure(BadNeed);
      }
      LoadedMore(entries, i, packages, names);
      names := names[e.name := i];
      packages := packages + [PackageOf(e)];
    }
    return Success((packages, names));
  }

  lemma NothingLoaded(entries: seq<Entry>)
    ensures Loaded(entries, 0, [], map[])
  {
  }

  // ----- the graph --------------------------------------------------------------------

  predicate Edge(packages: seq<Package>, i: nat, j: nat) {
    i < |packages| && j < |packages| && packages[j].name in packages[i].needs
  }

  predicate Declared(packages: seq<Package>, name: string) {
    exists j | 0 <= j < |packages| :: packages[j].name == name
  }

  predicate AllDeclared(packages: seq<Package>) {
    forall i, name | 0 <= i < |packages| && name in packages[i].needs :: Declared(packages, name)
  }

  /** A walk along needs, from its first package to its last. */
  predicate Walk(packages: seq<Package>, path: seq<nat>) {
    && |path| > 0 && (forall k | 0 <= k < |path| :: path[k] < |packages|)
    && forall k | 0 <= k < |path| - 1 :: Edge(packages, path[k], path[k + 1])
  }

  ghost predicate Reaches(packages: seq<Package>, i: nat, j: nat) {
    exists path: seq<nat> :: Walk(packages, path) && path[0] == i && path[|path| - 1] == j
  }

  ghost predicate HasCycle(packages: seq<Package>) {
    exists path: seq<nat> :: Walk(packages, path) && |path| > 1 && path[0] == path[|path| - 1]
  }

  ghost predicate Wanted(packages: seq<Package>, j: nat) {
    exists d: nat :: d < |packages| && packages[d].direct && Reaches(packages, d, j)
  }

  ghost predicate AllWanted(packages: seq<Package>) {
    forall j: nat | j < |packages| :: Wanted(packages, j)
  }

  /** Some need of `i` is the name of a package listed in `order` before position `k`. */
  predicate Earlier(packages: seq<Package>, order: seq<nat>, k: nat, name: string)
    requires k <= |order|
  {
    exists m | 0 <= m < k :: order[m] < |packages| && packages[order[m]].name == name
  }

  /** Packages in an order in which everything a package needs comes before it. */
  predicate Topological(packages: seq<Package>, order: seq<nat>) {
    && Distinct(order)
    && forall k | 0 <= k < |order| ::
         order[k] < |packages| && forall name | name in packages[order[k]].needs :: Earlier(packages, order, k, name)
  }

  // ----- the search --------------------------------------------------------------------

  datatype Color = White | Grey | Black

  function Whites(colors: seq<Color>): set<nat> {
    set i: nat | i < |colors| && colors[i].White?
  }

  /** The grey packages are those on the way down, the black ones those in the finish order. */
  predicate Painted(colors: seq<Color>, path: seq<nat>, order: seq<nat>) {
    forall i: nat | i < |colors| :: (colors[i].Grey? <==> i in path) && (colors[i].Black? <==> i in order)
  }

  ghost predicate Explains(packages: seq<Package>, problem: Problem) {
    match problem
    case Cycle => HasCycle(packages)
    case Unresolved => !AllDeclared(packages)
    case _ => false
  }

  /** Everything finished since `before` can be reached from `index`. */
  ghost predicate NewFrom(packages: seq<Package>, before: seq<nat>, after: seq<nat>, index: nat) {
    before <= after && forall i | i in after && i !in before :: Reaches(packages, index, i)
  }

  lemma ReachesSelf(packages: seq<Package>, i: nat)
    requires i < |packages|
    ensures Reaches(packages, i, i)
  {
    assert Walk(packages, [i]);
  }

  lemma ReachesOn(packages: seq<Package>, i: nat, j: nat, k: nat)
    requires Edge(packages, i, j) && Reaches(packages, j, k)
    ensures Reaches(packages, i, k)
  {
    var path: seq<nat> :| Walk(packages, path) && path[0] == j && path[|path| - 1] == k;
    var longer := [i] + path;
    assert forall m | 0 <= m < |longer| - 1 :: Edge(packages, longer[m], longer[m + 1]);
    assert Walk(packages, longer);
  }

  /** Coming back to a package on the way down closes a cycle. */
  lemma ClosesCycle(packages: seq<Package>, path: seq<nat>, index: nat)
    requires Walk(packages, path) && index in path && Edge(packages, path[|path| - 1], index)
    ensures HasCycle(packages)
  {
    var k :| 0 <= k < |path| && path[k] == index;
    var cycle := path[k..] + [index];
    assert forall m | 0 <= m < |cycle| - 1 :: Edge(packages, cycle[m], cycle[m + 1]) by {
      forall m | 0 <= m < |cycle| - 1
        ensures Edge(packages, cycle[m], cycle[m + 1])
      {
        if m < |path| - k - 1 {
          assert cycle[m] == path[k + m] && cycle[m + 1] == path[k + m + 1];
        }
      }
    }
    assert Walk(packages, cycle);
  }

  /**
   The recursive search. `path` is the way down to `index`, `order` the packages finished
   so far; both are for the proof only.
   */
  method Visit(packages: seq<Package>, names: map<string, nat>, state: array<Color>, index: nat,
               ghost path: seq<nat>, ghost order: seq<nat>)
    returns (problem: Option<Problem>, ghost after: seq<nat>)
    requires Indexed(packages, names) && state.Length == |packages| && index < |packages|
    requires path != [] ==> Walk(packages, path) && Edge(packages, path[|path| - 1], index)
    requires Painted(state[..], path, order) && Topological(packages, order)
    modifies state
    ensures Whites(state[..]) <= Whites(old(state[..]))
    ensures problem.None? ==>
              && Painted(state[..], path, after) && Topological(packages, after)
              && index in after && NewFrom(packages, order, after, index)
    ensures problem.Some? ==> Explains(packages, problem.value)
    decreases Whites(state[..])
  {
    after := order;
    if state[index].Grey? {
      ClosesCycle(packages, path, index);
      return Some(Cycle), after;
    }
    if state[index].Black? {
      return None, after;
    }
    ghost var before := state[..];
    state[index] := Grey;
    ghost var down := path + [index];
    assert state[..] == before[index := Grey];
    assert Whites(state[..]) == Whites(before) - {index};
    WalkDown(packages, path, index);
    var needs := packages[index].needs;
    for k := 0 to |needs|
      invariant Whites(state[..]) <= Whites(before) - {index}
      invariant Painted(state[..], down, after) && Topological(packages, after)
      invariant NewFrom(packages, order, after, index)
      invariant forall m | 0 <= m < k :: Earlier(packages, after, |after|, needs[m])
    {
      if needs[k] !in names {
        assert !Declared(packages, needs[k]);
        return Some(Unresolved), after;
      }
      ghost var soFar := after;
      problem, after := Visit(packages, names, state, names[needs[k]], down, after);
      if problem.Some? {
        return;
      }
      NewThrough(packages, order, soFar, after, index, names[needs[k]]);
      EarlierGrows(packages, soFar, after, needs, k);
      assert Earlier(packages, after, |after|, needs[k]);
    }
    ghost var grey := state[..];
    state[index] := Black;
    assert state[..] == grey[index := Black];
    Finish(packages, order, after, index);
    after := after + [index];
    assert index !in path;
    return None, after;
  }

  lemma WalkDown(packages: seq<Package>, path: seq<nat>, index: nat)
    requires index < |packages|
    requires path != [] ==> Walk(packages, path) && Edge(packages, path[|path| - 1], index)
    ensures Walk(packages, path + [index])
  {
  }

  lemma NewThrough(packages: seq<Package>, order: seq<nat>, soFar: seq<nat>, after: seq<nat>, index: nat, next: nat)
    requires NewFrom(packages, order, soFar, index) && NewFrom(packages, soFar, after, next) &&
             Edge(packages, index, next)
    ensures NewFrom(packages, order, after, index)
  {
    forall i | i in after && i !in order
      ensures Reaches(packages, index, i)
    {
      if i !in soFar {
        ReachesOn(packages, index, next, i);
      }
    }
  }

  lemma EarlierGrows(packages: seq<Package>, soFar: seq<nat>, after: seq<nat>, needs: seq<string>, k: nat)
    requires soFar <= after && k <= |needs|
    requires forall m | 0 <= m < k :: Earlier(packages, soFar, |soFar|, needs[m])
    ensures forall m | 0 <= m < k :: Earlier(packages, after, |after|, needs[m])
  {
    forall m | 0 <= m < k
      ensures Earlier(packages, after, |after|, needs[m])
    {
      var l :| 0 <= l < |soFar| && soFar[l] < |packages| && packages[soFar[l]].name == needs[m];
      assert after[l] == soFar[l];
    }
  }

  /** A package joins the order once everything it needs is in it. */
  lemma Finish(packages: seq<Package>, order: seq<nat>, after: seq<nat>, index: nat)
    requires Topological(packages, after) && index < |packages| && index !in after
    requires NewFrom(packages, order, after, index)
    requires forall m | 0 <= m < |packages[index].needs| ::
               Earlier(packages, after, |after|, packages[index].needs[m])
    ensures Topological(packages, after + [index]) && NewFrom(packages, order, after + [index], index)
  {
    ReachesSelf(packages, index);
    var all := after + [index];
    forall k, name | 0 <= k < |all| && name in packages[all[k]].needs
      ensures Earlier(packages, all, k, name)
    {
      assert Earlier(packages, after, k, name);
      var l :| 0 <= l < k && after[l] < |packages| && packages[after[l]].name == name;
      assert all[l] == after[l];
    }
  }

  // ----- the decision -------------------------------------------------------------------

  predicate Complete(packages: seq<Package>, order: seq<nat>) {
    forall i: nat | i < |packages| :: i in order
  }

  /** In a finish order every step of a walk goes back. */
  lemma StepGoesBack(packages: seq<Package>, names: map<string, nat>, order: seq<nat>, k: nat, j: nat) returns (l: nat)
    requires Indexed(packages, names) && Topological(packages, order) && k < |order| && Edge(packages, order[k], j)
    ensures l < k && order[l] == j
  {
    var name := packages[j].name;
    assert Earlier(packages, order, k, name);
    l :| 0 <= l < k && order[l] < |packages| && packages[order[l]].name == name;
    assert names[name] == j && names[name] == order[l];
  }

  lemma {:induction false} WalkGoesBack(
      packages: seq<Package>, names: map<string, nat>, order: seq<nat>, path: seq<nat>, k: nat)
    returns (l: nat)
    requires Indexed(packages, names) && Topological(packages, order)
    requires Walk(packages, path) && k < |order| && order[k] == path[0]
    ensures l <= k && order[l] == path[|path| - 1] && (|path| > 1 ==> l < k)
    decreases |path|
  {
    if |path| == 1 {
      l := k;
    } else {
      assert Edge(packages, path[0], path[1]);
      var m := StepGoesBack(packages, names, order, k, path[1]);
      assert Walk(packages, path[1..]) by {
        forall i | 0 <= i < |path[1..]| - 1
          ensures Edge(packages, path[1..][i], path[1..][i + 1])
        {
          assert Edge(packages, path[i + 1], path[i + 2]);
        }
      }
      l := WalkGoesBack(packages, names, order, path[1..], m);
    }
  }

  /** A topological order of everything leaves no room for a cycle or an undeclared need. */
  lemma OrderedIsAcyclic(packages: seq<Package>, names: map<string, nat>, order: seq<nat>)
    requires Indexed(packages, names) && Topological(packages, order) && Complete(packages, order)
    ensures !HasCycle(packages) && AllDeclared(packages)
  {
    if HasCycle(packages) {
      var path: seq<nat> :| Walk(packages, path) && |path| > 1 && path[0] == path[|path| - 1];
      assert path[0] in order;
      var k :| 0 <= k < |order| && order[k] == path[0];
      var l := WalkGoesBack(packages, names, order, path, k);
    }
    forall i, name | 0 <= i < |packages| && name in packages[i].needs
      ensures Declared(packages, name)
    {
      assert i in order;
      var k :| 0 <= k < |order| && order[k] == i;
      assert Earlier(packages, order, k, name);
    }
  }

  /** What is not in the order cannot be wanted once all direct packages are in it. */
  lemma UnfinishedIsUnwanted(packages: seq<Package>, names: map<string, nat>, order: seq<nat>, j: nat)
    requires Indexed(packages, names) && Topological(packages, order)
    requires forall d: nat | d < |packages| && packages[d].direct :: d in order
    requires j < |packages| && j !in order
    ensures !Wanted(packages, j)
  {
    if Wanted(packages, j) {
      var d: nat :| d < |packages| && packages[d].direct && Reaches(packages, d, j);
      var path: seq<nat> :| Walk(packages, path) && path[0] == d && path[|path| - 1] == j;
      var k :| 0 <= k < |order| && order[k] == d;
      var l := WalkGoesBack(packages, names, order, path, k);
    }
  }

  /**
   The graph check accepts a table exactly when every need is declared, nothing needs
   itself in a circle, and everything is wanted by a direct package; its finish order then
   puts every package after all it needs.
   */
  method CheckGraph(packages: seq<Package>, names: map<string, nat>)
    returns (problem: Option<Problem>, ghost order: seq<nat>)
    requires Indexed(packages, names)
    ensures problem.None? <==> AllDeclared(packages) && !HasCycle(packages) && AllWanted(packages)
    ensures problem.None? ==> Topological(packages, order) && Complete(packages, order)
    ensures problem == Some(Cycle) ==> HasCycle(packages)
    ensures problem == Some(Unresolved) ==> !AllDeclared(packages)
    ensures problem == Some(Unreachable) ==> !AllWanted(packages)
    ensures problem in {None, Some(Cycle), Some(Unresolved), Some(Unreachable)}
  {
    var state := new Color[|packages|](_ => White);
    order := [];
    for i := 0 to |packages|
      invariant Painted(state[..], [], order) && Topological(packages, order)
      invariant forall d: nat | d < i && packages[d].direct :: d in order
      invariant forall j | j in order :: Wanted(packages, j)
    {
      if packages[i].direct {
        ghost var before := order;
        problem, order := Visit(packages, names, state, i, [], order);
        if problem.Some? {
          return;
        }
        forall j | j in order
          ensures Wanted(packages, j)
        {
          if j !in before {
            assert Reaches(packages, i, j);
          }
        }
      }
    }
    if exists i | 0 <= i < state.Length :: state[i] != Black {
      ghost var j: nat :| j < state.Length && state[j] != Black;
      assert state[..][j] != Black;
      UnfinishedIsUnwanted(packages, names, order, j);
      return Some(Unreachable), order;
    }
    assert Complete(packages, order) by {
      forall i: nat | i < |packages|
        ensures i in order
      {
        assert state[..][i] == Black;
      }
    }
    OrderedIsAcyclic(packages, names, order);
    return None, order;
  }

  /** The lock's packages: a table whose graph passes. */
  method ParsePackages(entries: seq<Entry>) returns (r: Result<seq<Package>, Problem>)
    ensures r.Success? <==>
              && Tabular(entries)
              && var packages := seq(|entries|, i requires 0 <= i < |entries| => PackageOf(entries[i]));
                 AllDeclared(packages) && !HasCycle(packages) && AllWanted(packages)
    ensures r.Success? ==> r.value == seq(|entries|, i requires 0 <= i < |entries| => PackageOf(entries[i]))
  {
    var table := BuildTable(entries);
    if table.Failure? {
      return Failure(table.error);
    }
    var (packages, names) := table.value;
    assert packages == seq(|entries|, i requires 0 <= i < |entries| => PackageOf(entries[i]));
    ghost var order;
    var problem;
    problem, order := CheckGraph(packages, names);
    if problem.Some? {
      return Failure(problem.value);
    }
    return Success(packages);
  }
}
