/** Tasks, their dependency graph, and the value sequential evaluation gives each task.

  A task is created with its dependencies and subqueries as constructor arguments, so numbering tasks in
  creation order makes every edge go from a larger number to a smaller one. */
module TaskGraph {

  import opened Wrappers

  /** A merge task reads, beside the results of its dependencies, the offsets that a partition task keeps in itself. */
  datatype TaskKind = Ordinary | Partition | Merge

  /** `deps` lists the dependencies followed by the subqueries: the order in which `execute` prepares them. */
  datatype Task = Task(stage: nat, deps: seq<nat>, kind: TaskKind := Ordinary)

  type Graph = seq<Task>

  /** What a task computes from the `result()` of each of its dependencies. */
  type Body<!V> = (nat, seq<Option<V>>) -> V

  ghost predicate WellFormed(g: Graph)
  {
    forall t, i :: 0 <= t < |g| && 0 <= i < |g[t].deps| ==>
      g[t].deps[i] < t && g[g[t].deps[i]].stage <= g[t].stage
  }

  /** `b` can be reached from `a` along edges that stay inside one stage. */
  ghost predicate Reaches(g: Graph, a: nat, b: nat)
    requires WellFormed(g) && a < |g|
    decreases a
  {
    a == b ||
    exists i :: 0 <= i < |g[a].deps| && g[g[a].deps[i]].stage == g[a].stage && Reaches(g, g[a].deps[i], b)
  }

  lemma {:induction false} ReachesStays(g: Graph, a: nat, b: nat)
    requires WellFormed(g) && a < |g| && Reaches(g, a, b)
    ensures b <= a && g[b].stage == g[a].stage
    decreases a
  {
    if a != b {
      var i :| 0 <= i < |g[a].deps| && g[g[a].deps[i]].stage == g[a].stage && Reaches(g, g[a].deps[i], b);
      ReachesStays(g, g[a].deps[i], b);
    }
  }

  lemma {:induction false} ReachesStep(g: Graph, a: nat, b: nat, i: nat)
    requires WellFormed(g) && a < |g| && b < |g| && Reaches(g, a, b)
    requires i < |g[b].deps| && g[g[b].deps[i]].stage == g[b].stage
    ensures Reaches(g, a, g[b].deps[i])
    decreases a
  {
    if a == b {
      assert Reaches(g, g[b].deps[i], g[b].deps[i]);
    } else {
      var j :| 0 <= j < |g[a].deps| && g[g[a].deps[j]].stage == g[a].stage && Reaches(g, g[a].deps[j], b);
      ReachesStep(g, g[a].deps[j], b, i);
    }
  }

  /** A chain of dependencies inside one stage. */
  ghost predicate IsPath(g: Graph, path: seq<nat>)
  {
    path != [] && (forall i :: 0 <= i < |path| ==> path[i] < |g|) &&
    forall i :: 0 < i < |path| ==> path[i] in g[path[i - 1]].deps && g[path[i]].stage == g[path[i - 1]].stage
  }

  lemma {:induction false} PathReaches(g: Graph, path: seq<nat>)
    requires WellFormed(g) && IsPath(g, path)
    ensures Reaches(g, path[0], path[|path| - 1])
  {
    if |path| > 1 {
      var rest := path[1..];
      assert forall i :: 0 <= i < |rest| ==> rest[i] == path[i + 1];
      PathReaches(g, rest);
      var i :| 0 <= i < |g[path[0]].deps| && g[path[0]].deps[i] == path[1];
    }
  }

  lemma {:induction false} ReachesPath(g: Graph, a: nat, b: nat) returns (path: seq<nat>)
    requires WellFormed(g) && a < |g| && Reaches(g, a, b)
    ensures IsPath(g, path) && path[0] == a && path[|path| - 1] == b
    decreases a
  {
    path := [a];
    if a != b {
      var i :| 0 <= i < |g[a].deps| && g[g[a].deps[i]].stage == g[a].stage && Reaches(g, g[a].deps[i], b);
      var rest := ReachesPath(g, g[a].deps[i], b);
      path := [a] + rest;
    }
  }

  /** The value of a task under sequential bottom-up evaluation of its dependency graph. */
  ghost function Val<V>(g: Graph, body: Body<V>, t: nat): V
    requires WellFormed(g) && t < |g|
    decreases t, 1
  {
    body(t, DepVals(g, body, t))
  }

  /** A task's value is its body applied to the values of its dependencies, in their order. */
  lemma ValMeans<V>(g: Graph, body: Body<V>, t: nat, inputs: seq<Option<V>>)
    requires WellFormed(g) && t < |g| && |inputs| == |g[t].deps|
    requires forall i :: 0 <= i < |inputs| ==> inputs[i] == Some(Val(g, body, g[t].deps[i]))
    ensures Val(g, body, t) == body(t, inputs)
  {
    assert DepVals(g, body, t) == inputs;
  }

  ghost function DepVals<V>(g: Graph, body: Body<V>, t: nat): seq<Option<V>>
    requires WellFormed(g) && t < |g|
    decreases t, 0
  {
    seq(|g[t].deps|, i requires 0 <= i < |g[t].deps| => Some(Val(g, body, g[t].deps[i])))
  }
}
