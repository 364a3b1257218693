/**
  The critical-path engine of `Projet.calculer_chemin_critique`: a memoised
  longest-path recursion over the dependency graph, followed by the choice of
  the first task whose path is longest.

  The graph is the sequence `g` of every task that exists (the task pool); a
  task is its index in `g`. The code does no cycle detection, so acyclicity of
  the part the recursion visits is a precondition, witnessed by a `rank`: a
  map from the tasks reached from the project's list to numbers that strictly
  decrease along every dependency edge.
 */
module CriticalPath {
  import opened Domain

  /** A memo value: the `(length, path)` pair `find_longest_path` returns. */
  datatype Entry = Entry(length: int, path: seq<nat>)

  /**
    `rank` ranks the tasks it holds: each is a task of `g`, and each of its
    dependencies is ranked too, with a smaller rank. The ranked tasks are
    closed under dependencies; tasks outside the ranking are unconstrained, so
    a cycle among tasks the recursion never visits does not matter.
   */
  predicate Ranked(g: seq<Task>, rank: map<nat, nat>)
  {
    (forall i :: i in rank ==> i < |g|) &&
    forall i, k :: i in rank && 0 <= k < |g[i].deps| ==>
      g[i].deps[k] in rank && rank[g[i].deps[k]] < rank[i]
  }

  /** Every task of the list is ranked. */
  predicate Covered(rank: map<nat, nat>, tasks: seq<nat>)
  {
    forall k :: 0 <= k < |tasks| ==> tasks[k] in rank
  }

  // ---------------------------------------------------------------------------
  // The recurrence, as a pure definition
  // ---------------------------------------------------------------------------

  /**
    The value `find_longest_path` memoises for task `i`: `(0, [i])` for a task
    without dependencies; otherwise the best dependency entry plus the task's
    own span, with the task appended to the path.
   */
  ghost function Longest(g: seq<Task>, rank: map<nat, nat>, i: nat): Entry
    requires Ranked(g, rank) && i in rank
    decreases rank[i], 1, 0
  {
    if g[i].deps == [] then Entry(0, [i])
    else
      var best := BestDeps(g, rank, i, |g[i].deps|);
      Entry(best.length + Span(g[i]), best.path + [i])
  }

  /**
    The running `(max_length, max_path)` after the loop has looked at the first
    `k` dependencies of task `i`: it starts at `(0, [])` and adopts a
    dependency's entry only when its length is strictly greater.
   */
  ghost function BestDeps(g: seq<Task>, rank: map<nat, nat>, i: nat, k: nat): Entry
    requires Ranked(g, rank) && i in rank && k <= |g[i].deps|
    decreases rank[i], 0, k
  {
    if k == 0 then Entry(0, [])
    else
      var acc := BestDeps(g, rank, i, k - 1);
      var e := Longest(g, rank, g[i].deps[k - 1]);
      if e.length > acc.length then e else acc
  }

  /** What the running maximum holds after `k` dependencies: nothing positive yet, or the first longest one. */
  lemma {:induction false} BestDepsWitness(g: seq<Task>, rank: map<nat, nat>, i: nat, k: nat) returns (j: int)
    requires Ranked(g, rank) && i in rank && k <= |g[i].deps|
    ensures -1 <= j < k
    ensures j == -1 ==>
      BestDeps(g, rank, i, k) == Entry(0, []) &&
      forall m :: 0 <= m < k ==> Longest(g, rank, g[i].deps[m]).length <= 0
    ensures j >= 0 ==>
      BestDeps(g, rank, i, k) == Longest(g, rank, g[i].deps[j]) &&
      Longest(g, rank, g[i].deps[j]).length > 0 &&
      (forall m :: 0 <= m < j ==> Longest(g, rank, g[i].deps[m]).length < Longest(g, rank, g[i].deps[j]).length) &&
      (forall m :: 0 <= m < k ==> Longest(g, rank, g[i].deps[m]).length <= Longest(g, rank, g[i].deps[j]).length)
    decreases k
  {
    if k == 0 {
      j := -1;
    } else {
      var j' := BestDepsWitness(g, rank, i, k - 1);
      var e := Longest(g, rank, g[i].deps[k - 1]);
      if e.length > BestDeps(g, rank, i, k - 1).length {
        j := k - 1;
      } else {
        j := j';
      }
    }
  }

  /**
    One step of the recurrence, stated without the running maximum: a task
    without dependencies scores 0; otherwise the task extends the entry of its
    first longest dependency when that one is positive, and stands alone with
    its own span when no dependency is positive.
   */
  lemma LongestRecurrence(g: seq<Task>, rank: map<nat, nat>, i: nat) returns (j: int)
    requires Ranked(g, rank) && i in rank
    ensures g[i].deps == [] ==> j == -1 && Longest(g, rank, i) == Entry(0, [i])
    ensures g[i].deps != [] ==>
      -1 <= j < |g[i].deps| &&
      Longest(g, rank, i).length >= Span(g[i]) &&
      (forall m :: 0 <= m < |g[i].deps| ==>
         Longest(g, rank, g[i].deps[m]).length + Span(g[i]) <= Longest(g, rank, i).length)
    ensures g[i].deps != [] && j == -1 ==> Longest(g, rank, i) == Entry(Span(g[i]), [i])
    ensures g[i].deps != [] && j >= 0 ==>
      var e := Longest(g, rank, g[i].deps[j]);
      Longest(g, rank, i) == Entry(e.length + Span(g[i]), e.path + [i]) &&
      e.length > 0 &&
      forall m :: 0 <= m < j ==> Longest(g, rank, g[i].deps[m]).length < e.length
  {
    if g[i].deps == [] {
      j := -1;
    } else {
      j := BestDepsWitness(g, rank, i, |g[i].deps|);
    }
  }

  /** The rank only witnesses termination: any two rankings of the same graph give the same entries. */
  lemma {:induction false} LongestRankIrrelevant(g: seq<Task>, r1: map<nat, nat>, r2: map<nat, nat>, i: nat)
    requires Ranked(g, r1) && Ranked(g, r2) && i in r1 && i in r2
    ensures Longest(g, r1, i) == Longest(g, r2, i)
    decreases r1[i], 1, 0
  {
    if g[i].deps != [] {
      BestDepsRankIrrelevant(g, r1, r2, i, |g[i].deps|);
    }
  }

  lemma {:induction false} BestDepsRankIrrelevant(g: seq<Task>, r1: map<nat, nat>, r2: map<nat, nat>, i: nat, k: nat)
    requires Ranked(g, r1) && Ranked(g, r2) && i in r1 && i in r2 && k <= |g[i].deps|
    ensures BestDeps(g, r1, i, k) == BestDeps(g, r2, i, k)
    decreases r1[i], 0, k
  {
    if k > 0 {
      BestDepsRankIrrelevant(g, r1, r2, i, k - 1);
      LongestRankIrrelevant(g, r1, r2, g[i].deps[k - 1]);
    }
  }

  // ---------------------------------------------------------------------------
  // An independent reference: heaviest dependency chains
  // ---------------------------------------------------------------------------

  /** Every element of `p` is a task of `g`. */
  predicate InGraph(g: seq<Task>, p: seq<nat>)
  {
    forall k :: 0 <= k < |p| ==> p[k] < |g|
  }

  /** A non-empty sequence of tasks of `g` in which each task is a dependency of the next one. */
  predicate IsChain(g: seq<Task>, p: seq<nat>)
  {
    |p| > 0 && InGraph(g, p) &&
    forall k :: 1 <= k < |p| ==> p[k - 1] in g[p[k]].deps
  }

  /** What a task adds to a chain's weight: its span, except that a task without dependencies adds nothing. */
  function Contribution(t: Task): int
  {
    if t.deps == [] then 0 else Span(t)
  }

  /** The weight of a chain: the sum of the contributions of its tasks. */
  function Weight(g: seq<Task>, p: seq<nat>): int
    requires InGraph(g, p)
    decreases |p|
  {
    if p == [] then 0 else Weight(g, p[..|p| - 1]) + Contribution(g[p[|p| - 1]])
  }

  /** Appending a task of `g` keeps every element in `g` and adds the task's contribution to the weight. */
  lemma WeightAppend(g: seq<Task>, p: seq<nat>, i: nat)
    requires InGraph(g, p) && i < |g|
    ensures InGraph(g, p + [i]) && Weight(g, p + [i]) == Weight(g, p) + Contribution(g[i])
  {
    var q := p + [i];
    assert forall k :: 0 <= k < |p| ==> q[k] == p[k];
    assert q[..|q| - 1] == p;
  }

  /** Appending a task that depends on a chain's last task extends the chain by that task's contribution. */
  lemma ExtendChain(g: seq<Task>, p: seq<nat>, i: nat)
    requires IsChain(g, p) && i < |g| && p[|p| - 1] in g[i].deps
    ensures IsChain(g, p + [i]) && Weight(g, p + [i]) == Weight(g, p) + Contribution(g[i])
  {
    WeightAppend(g, p, i);
    var q := p + [i];
    forall k | 1 <= k < |q| ensures q[k - 1] in g[q[k]].deps {
      if k < |p| {
        assert q[k - 1] == p[k - 1] && q[k] == p[k];
      } else {
        assert q[k - 1] == p[|p| - 1] && q[k] == i;
      }
    }
  }

  /**
    The memoised path is a dependency chain that ends with the task itself, and
    the memoised length is exactly that chain's weight.
   */
  lemma {:induction false} LongestIsChain(g: seq<Task>, rank: map<nat, nat>, i: nat)
    requires Ranked(g, rank) && i in rank
    ensures var r := Longest(g, rank, i);
      IsChain(g, r.path) && r.path[|r.path| - 1] == i && r.length == Weight(g, r.path)
    decreases rank[i]
  {
    var j := LongestRecurrence(g, rank, i);
    if g[i].deps == [] || j == -1 {
      assert Weight(g, [i]) == Weight(g, []) + Contribution(g[i]);
    } else {
      var d := g[i].deps[j];
      LongestIsChain(g, rank, d);
      ExtendChain(g, Longest(g, rank, d).path, i);
    }
  }

  /** No dependency chain ending at a task weighs more than the task's memoised length. */
  lemma {:induction false} LongestIsHeaviest(g: seq<Task>, rank: map<nat, nat>, c: seq<nat>)
    requires Ranked(g, rank) && IsChain(g, c) && c[|c| - 1] in rank
    ensures Weight(g, c) <= Longest(g, rank, c[|c| - 1]).length
    decreases |c|
  {
    var i := c[|c| - 1];
    var _ := LongestRecurrence(g, rank, i);
    if |c| == 1 {
      assert c[..0] == [];
    } else {
      var c' := c[..|c| - 1];
      var d := c[|c| - 2];
      assert IsChain(g, c') by {
        forall k | 1 <= k < |c'| ensures c'[k - 1] in g[c'[k]].deps {
          assert c'[k - 1] == c[k - 1] && c'[k] == c[k];
        }
      }
      assert d in g[i].deps;
      var m :| 0 <= m < |g[i].deps| && g[i].deps[m] == d;
      LongestIsHeaviest(g, rank, c');
      assert Longest(g, rank, g[i].deps[m]).length + Span(g[i]) <= Longest(g, rank, i).length;
    }
  }

  // ---------------------------------------------------------------------------
  // The memoised computation
  // ---------------------------------------------------------------------------

  /** Every memo entry is a task of `g` stored with its value under the recurrence. */
  ghost predicate MemoSound(g: seq<Task>, rank: map<nat, nat>, memo: map<nat, Entry>)
    requires Ranked(g, rank)
  {
    forall t :: t in memo ==> t in rank && memo[t] == Longest(g, rank, t)
  }

  /** `after` keeps every entry of `before` unchanged. */
  predicate Extends(before: map<nat, Entry>, after: map<nat, Entry>)
  {
    forall t :: t in before ==> t in after && after[t] == before[t]
  }

  /**
    `find_longest_path(tache, memo)`: returns the stored entry when there is
    one; otherwise computes it, looping over the dependencies in order, and
    stores it. The result is the recurrence's value whatever the memo already
    held, no stored entry is ever overwritten, and everything the memo holds
    afterwards is again the recurrence's value.
   */
  method FindLongestPath(g: seq<Task>, ghost rank: map<nat, nat>, i: nat, memo: map<nat, Entry>)
    returns (r: Entry, memo': map<nat, Entry>)
    requires Ranked(g, rank) && i in rank && MemoSound(g, rank, memo)
    ensures r == Longest(g, rank, i)
    ensures MemoSound(g, rank, memo') && i in memo' && memo'[i] == r
    ensures Extends(memo, memo')
    decreases rank[i]
  {
    if i in memo {
      return memo[i], memo;
    }
    var deps := g[i].deps;
    if deps == [] {
      r := Entry(0, [i]);
      memo' := memo[i := r];
      return;
    }
    var maxLength, maxPath := 0, [];
    memo' := memo;
    var k := 0;
    while k < |deps|
      invariant 0 <= k <= |deps|
      invariant Entry(maxLength, maxPath) == BestDeps(g, rank, i, k)
      invariant MemoSound(g, rank, memo') && Extends(memo, memo')
    {
      var e;
      e, memo' := FindLongestPath(g, rank, deps[k], memo');
      if e.length > maxLength {
        maxLength, maxPath := e.length, e.path;
      }
      k := k + 1;
    }
    r := Entry(maxLength + Span(g[i]), maxPath + [i]);
    memo' := memo'[i := r];
  }

  /**
    `[find_longest_path(tache, memo) for tache in self.taches]` with one memo
    shared by the whole list: each entry is the recurrence's value for its task,
    so the order of visits does not matter.
   */
  method AllPaths(g: seq<Task>, ghost rank: map<nat, nat>, tasks: seq<nat>) returns (paths: seq<Entry>)
    requires Ranked(g, rank) && Covered(rank, tasks)
    ensures |paths| == |tasks|
    ensures forall k :: 0 <= k < |tasks| ==> paths[k] == Longest(g, rank, tasks[k])
  {
    var memo: map<nat, Entry> := map[];
    paths := [];
    var k := 0;
    while k < |tasks|
      invariant 0 <= k <= |tasks| && |paths| == k
      invariant MemoSound(g, rank, memo)
      invariant forall m :: 0 <= m < k ==> paths[m] == Longest(g, rank, tasks[m])
    {
      var e;
      e, memo := FindLongestPath(g, rank, tasks[k], memo);
      paths := paths + [e];
      k := k + 1;
    }
  }

  /**
    The index Python's `max(all_paths, key=lambda x: x[0])` picks: a longest
    entry, and the first one among equals, since `max` only replaces its
    candidate on a strictly greater key.
   */
  function FirstMax(es: seq<Entry>): (k: nat)
    requires |es| > 0
    ensures k < |es|
    ensures forall j :: 0 <= j < |es| ==> es[j].length <= es[k].length
    ensures forall j :: 0 <= j < k ==> es[j].length < es[k].length
  {
    if |es| == 1 then 0
    else
      var k := FirstMax(es[..|es| - 1]);
      if es[|es| - 1].length > es[k].length then |es| - 1 else k
  }

  /** Position `k` holds the first task of `tasks` whose memoised length is the largest. */
  ghost predicate FirstMaximal(g: seq<Task>, rank: map<nat, nat>, tasks: seq<nat>, k: nat)
    requires Ranked(g, rank) && Covered(rank, tasks)
  {
    k < |tasks| &&
    (forall j :: 0 <= j < |tasks| ==> Longest(g, rank, tasks[j]).length <= Longest(g, rank, tasks[k]).length) &&
    (forall j :: 0 <= j < k ==> Longest(g, rank, tasks[j]).length < Longest(g, rank, tasks[k]).length)
  }

  /**
    The body of `calculer_chemin_critique`: `None` when the task list is empty
    (where `max` raises), otherwise the path of the first task with the largest
    memoised length.
   */
  method ComputeCriticalPath(g: seq<Task>, ghost rank: map<nat, nat>, tasks: seq<nat>) returns (r: Option<seq<nat>>)
    requires Ranked(g, rank) && Covered(rank, tasks)
    ensures r.None? <==> tasks == []
    ensures r.Some? ==> exists k: nat :: FirstMaximal(g, rank, tasks, k) && r.value == Longest(g, rank, tasks[k]).path
  {
    var paths := AllPaths(g, rank, tasks);
    if paths == [] {
      return None;
    }
    var k := FirstMax(paths);
    r := Some(paths[k].path);
    assert FirstMaximal(g, rank, tasks, k);
  }

  /**
    The chosen path is a dependency chain ending at the chosen task with the
    chosen length as its weight, and no chain ending at any task of the list
    weighs more.
   */
  lemma CriticalPathIsHeaviest(g: seq<Task>, rank: map<nat, nat>, tasks: seq<nat>, k: nat, c: seq<nat>)
    requires Ranked(g, rank) && Covered(rank, tasks) && FirstMaximal(g, rank, tasks, k)
    requires IsChain(g, c) && c[|c| - 1] in tasks
    ensures var best := Longest(g, rank, tasks[k]);
      IsChain(g, best.path) && best.path[|best.path| - 1] == tasks[k] &&
      best.length == Weight(g, best.path) && Weight(g, c) <= best.length
  {
    LongestIsChain(g, rank, tasks[k]);
    LongestIsHeaviest(g, rank, c);
    var j :| 0 <= j < |tasks| && tasks[j] == c[|c| - 1];
    assert Longest(g, rank, tasks[j]).length <= Longest(g, rank, tasks[k]).length;
  }

  // ---------------------------------------------------------------------------
  // Worked graphs
  // ---------------------------------------------------------------------------

  /** Midnight of day `d` after 1970-01-01, in seconds. */
  function Day(d: int): int { d * SecondsPerDay }

  /** The two tasks of the module's own driver: 2024-01-01..2024-01-31, then 2024-02-01..2024-06-30 depending on the first. */
  function DriverTasks(): seq<Task>
  {
    [Task("Analyse des besoins", "Description de l'analyse des besoins", Day(19723), Day(19753),
          Member("Modou", "Chef de projet"), "Terminée", []),
     Task("Développement", "Description du développement", Day(19754), Day(19904),
          Member("Christian", "Développeur"), "Non démarrée", [0])]
  }

  /**
    On the driver's tasks the first scores 0, so the second does not adopt it:
    the critical path is the second task alone, with length 150.
   */
  lemma DriverCriticalPath()
    ensures var rank := map[0 := 0, 1 := 1];
      Ranked(DriverTasks(), rank) && Covered(rank, [0, 1]) &&
      Longest(DriverTasks(), rank, 0) == Entry(0, [0]) &&
      Longest(DriverTasks(), rank, 1) == Entry(150, [1]) &&
      FirstMaximal(DriverTasks(), rank, [0, 1], 1) &&
      forall k: nat :: FirstMaximal(DriverTasks(), rank, [0, 1], k) ==> k == 1
  {
  }

  /**
    A diamond: A (10 days, no dependencies), B (5 days, on A), C (20 days, on
    A), D (1 day, on B and C). A scores 0, so neither B nor C extends it, and D
    follows C: length 21, path [C, D].
   */
  lemma DiamondCriticalPath()
    ensures var nobody := Member("", "");
      var g := [Task("A", "", Day(0), Day(10), nobody, "", []),
                Task("B", "", Day(0), Day(5), nobody, "", [0]),
                Task("C", "", Day(0), Day(20), nobody, "", [0]),
                Task("D", "", Day(0), Day(1), nobody, "", [1, 2])];
      var rank := map[0 := 0, 1 := 1, 2 := 1, 3 := 2];
      Ranked(g, rank) && Longest(g, rank, 3) == Entry(21, [2, 3])
  {
  }

  /**
    A pool holding a task X that depends on itself, and a project listing only
    A (3 days, no dependencies) and B (7 days, on A). The recursion never
    visits X, so ranking A and B is enough: B scores 7 with path [B], and that
    is the critical path. No ranking can hold X.
   */
  lemma UnvisitedCycleCriticalPath()
    ensures var nobody := Member("", "");
      var g := [Task("X", "", Day(0), Day(1), nobody, "", [0]),
                Task("A", "", Day(0), Day(3), nobody, "", []),
                Task("B", "", Day(3), Day(10), nobody, "", [1])];
      var rank := map[1 := 0, 2 := 1];
      Ranked(g, rank) && Covered(rank, [1, 2]) &&
      Longest(g, rank, 1) == Entry(0, [1]) &&
      Longest(g, rank, 2) == Entry(7, [2]) &&
      FirstMaximal(g, rank, [1, 2], 1) &&
      forall r :: Ranked(g, r) ==> 0 !in r
  {
    var nobody := Member("", "");
    var g := [Task("X", "", Day(0), Day(1), nobody, "", [0]),
              Task("A", "", Day(0), Day(3), nobody, "", []),
              Task("B", "", Day(3), Day(10), nobody, "", [1])];
    forall r | Ranked(g, r) ensures 0 !in r {
      assert g[0].deps[0] == 0;
    }
  }
}
