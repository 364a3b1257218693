/**
  The tasks themselves. In the source a `Tache` is an object that the project
  and its dependents reference; `ajouter_dependance` appends to its list in
  place, so every holder of the task sees the new dependency. Here every task
  that exists lives in one `TaskPool`, and a task is its index there.
 */
module TaskGraph {
  import opened Domain
  import opened CriticalPath

  /** The graph after `d` has been appended to the dependencies of task `t`. */
  function WithDependency(g: seq<Task>, t: nat, d: nat): (g': seq<Task>)
    requires t < |g|
    ensures |g'| == |g| && g'[t].deps == g[t].deps + [d]
    ensures forall i :: 0 <= i < |g| && i != t ==> g'[i] == g[i]
    ensures g'[t] == g[t].(deps := g'[t].deps)
  {
    g[t := g[t].(deps := g[t].deps + [d])]
  }

  /**
    A dependency keeps the ranking valid when it is a ranked task of lower rank
    than `t`, or when `t` itself is outside the ranking.
   */
  lemma AddDependencyKeepsRanked(g: seq<Task>, rank: map<nat, nat>, t: nat, d: nat)
    requires Ranked(g, rank) && t < |g| && d < |g|
    requires t in rank ==> d in rank && rank[d] < rank[t]
    ensures Ranked(WithDependency(g, t, d), rank)
  {
  }

  /**
    A task made to depend on itself admits no ranking: the recursion of
    `find_longest_path` would never reach a task without a memo entry or
    dependencies.
   */
  lemma SelfDependencyIsUnranked(g: seq<Task>, rank: map<nat, nat>, t: nat)
    requires t < |g|
    ensures Ranked(WithDependency(g, t, t), rank) ==> t !in rank
  {
    var g' := WithDependency(g, t, t);
    assert g'[t].deps[|g'[t].deps| - 1] == t;
  }

  /** Every task that exists, in creation order. */
  class TaskPool {
    var tasks: seq<Task>

    constructor()
      ensures tasks == []
    {
      tasks := [];
    }

    /** `Tache(...)`: creates a task, whose dependencies are existing tasks, and returns its identity. */
    method NewTask(name: string, description: string, start: int, end: int,
                   responsible: Member, status: string, deps: seq<nat>) returns (id: nat)
      requires forall k :: 0 <= k < |deps| ==> deps[k] < |tasks|
      modifies this
      ensures id == |old(tasks)|
      ensures tasks == old(tasks) + [Task(name, description, start, end, responsible, status, deps)]
    {
      id := |tasks|;
      tasks := tasks + [Task(name, description, start, end, responsible, status, deps)];
    }

    /** `Tache.ajouter_dependance`: appends `d` to the dependencies of task `t`; nothing else changes. */
    method AddDependency(t: nat, d: nat)
      requires t < |tasks| && d < |tasks|
      modifies this
      ensures tasks == WithDependency(old(tasks), t, d)
    {
      tasks := tasks[t := tasks[t].(deps := tasks[t].deps + [d])];
    }

    /** `Tache.mettre_a_jour_statut`: overwrites the status of task `t`; nothing else changes. */
    method UpdateStatus(t: nat, status: string)
      requires t < |tasks|
      modifies this
      ensures tasks == old(tasks)[t := old(tasks)[t].(status := status)]
    {
      tasks := tasks[t := tasks[t].(status := status)];
    }
  }
}
