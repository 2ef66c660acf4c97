/** The walk that marks a pipeline: all tasks of a stage that a root reaches. */
module Pipelines {
  import opened TaskGraph

  /** How many paths inside the stage start at `t`. The walk visits the end of each of them. */
  ghost function Paths(g: Graph, t: nat): nat
    requires WellFormed(g) && t < |g|
    decreases t, 1, 0
  {
    1 + DepPaths(g, t, |g[t].deps|)
  }

  ghost function DepPaths(g: Graph, t: nat, n: nat): nat
    requires WellFormed(g) && t < |g| && n <= |g[t].deps|
    decreases t, 0, n
  {
    if n == 0 then 0
    else
      DepPaths(g, t, n - 1) + if g[g[t].deps[n - 1]].stage == g[t].stage then Paths(g, g[t].deps[n - 1]) else 0
  }

  ghost predicate InGraph(g: Graph, stack: seq<nat>)
  {
    forall k :: 0 <= k < |stack| ==> stack[k] < |g|
  }

  ghost function StackPaths(g: Graph, stack: seq<nat>): nat
    requires WellFormed(g) && InGraph(g, stack)
  {
    if stack == [] then 0 else StackPaths(g, stack[..|stack| - 1]) + Paths(g, stack[|stack| - 1])
  }

  lemma StackPush(g: Graph, stack: seq<nat>, t: nat)
    requires WellFormed(g) && InGraph(g, stack) && t < |g|
    ensures InGraph(g, stack + [t]) && StackPaths(g, stack + [t]) == StackPaths(g, stack) + Paths(g, t)
  {
  }

  /** One of `xs` reaches `u` inside the stage. */
  ghost predicate ReachedFrom(g: Graph, xs: seq<nat>, u: nat)
    requires WellFormed(g)
  {
    exists k :: 0 <= k < |xs| && xs[k] < |g| && Reaches(g, xs[k], u)
  }

  lemma ReachedPush(g: Graph, stack: seq<nat>, t: nat, u: nat)
    requires WellFormed(g) && t < |g|
    ensures ReachedFrom(g, stack + [t], u) <==> ReachedFrom(g, stack, u) || Reaches(g, t, u)
  {
    assert (stack + [t])[|stack|] == t;
    if ReachedFrom(g, stack, u) {
      var k :| 0 <= k < |stack| && stack[k] < |g| && Reaches(g, stack[k], u);
      assert (stack + [t])[k] == stack[k];
    }
  }

  /** The dependencies of `current` that lie in the stage of `root` go on the stack. */
  method PushDependencies(g: Graph, root: nat, current: nat, rest: seq<nat>) returns (stack: seq<nat>)
    requires WellFormed(g) && root < |g| && current < |g| && Reaches(g, root, current) && InGraph(g, rest)
    requires forall k :: 0 <= k < |rest| ==> Reaches(g, root, rest[k])
    ensures InGraph(g, stack) && forall k :: 0 <= k < |stack| ==> Reaches(g, root, stack[k])
    ensures StackPaths(g, stack) == StackPaths(g, rest) + Paths(g, current) - 1
    ensures forall u ::
      ReachedFrom(g, stack, u) <==> ReachedFrom(g, rest, u) || (u != current && Reaches(g, current, u))
  {
    stack := rest;
    ReachesStays(g, root, current);
    for i := 0 to |g[current].deps|
      invariant InGraph(g, stack) && forall k :: 0 <= k < |stack| ==> Reaches(g, root, stack[k])
      invariant StackPaths(g, stack) == StackPaths(g, rest) + DepPaths(g, current, i)
      invariant forall u :: ReachedFrom(g, stack, u) <==> ReachedFrom(g, rest, u) || ReachedBy(g, current, i, u)
    {
      var d := g[current].deps[i];
      ghost var was := stack;
      if g[d].stage == g[root].stage {
        ReachesStep(g, root, current, i);
        StackPush(g, stack, d);
        stack := stack + [d];
      }
      forall u ensures ReachedFrom(g, stack, u) <==> ReachedFrom(g, rest, u) || ReachedBy(g, current, i + 1, u) {
        ReachedPush(g, was, d, u);
        ReachedByNext(g, current, i, u);
      }
    }
    forall u ensures ReachedBy(g, current, |g[current].deps|, u) <==> u != current && Reaches(g, current, u) {
      if ReachedBy(g, current, |g[current].deps|, u) {
        var i :| 0 <= i < |g[current].deps| && g[g[current].deps[i]].stage == g[current].stage &&
                 Reaches(g, g[current].deps[i], u);
        ReachesStays(g, g[current].deps[i], u);
      }
    }
  }

  lemma ReachedByNext(g: Graph, t: nat, n: nat, u: nat)
    requires WellFormed(g) && t < |g| && n < |g[t].deps|
    ensures ReachedBy(g, t, n + 1, u) <==>
              ReachedBy(g, t, n, u) || (g[g[t].deps[n]].stage == g[t].stage && Reaches(g, g[t].deps[n], u))
  {
  }

  ghost predicate ReachedBy(g: Graph, t: nat, n: nat, u: nat)
    requires WellFormed(g) && t < |g| && n <= |g[t].deps|
  {
    exists i :: 0 <= i < n && g[g[t].deps[i]].stage == g[t].stage && Reaches(g, g[t].deps[i], u)
  }

  /** During the walk: what is marked is reached, and what is reached is marked or reached from the stack. */
  ghost predicate Marking(g: Graph, before: seq<set<nat>>, ids: seq<set<nat>>, root: nat, id: nat, stack: seq<nat>)
    requires WellFormed(g) && root < |g|
  {
    |before| == |g| && |ids| == |g| &&
    (forall k :: 0 <= k < |stack| ==> Reaches(g, root, stack[k])) &&
    (forall u :: 0 <= u < |g| ==> ids[u] == before[u] || (Reaches(g, root, u) && ids[u] == before[u] + {id})) &&
    forall u :: 0 <= u < |g| && Reaches(g, root, u) ==> id in ids[u] || ReachedFrom(g, stack, u)
  }

  lemma FirstVisit(g: Graph, root: nat)
    requires WellFormed(g) && root < |g|
    ensures forall u :: 0 <= u < |g| ==> (ReachedFrom(g, [root], u) <==> Reaches(g, root, u))
  {
    assert [] + [root] == [root];
    forall u | 0 <= u < |g| ensures ReachedFrom(g, [root], u) <==> Reaches(g, root, u) {
      ReachedPush(g, [], root, u);
    }
  }

  lemma NextVisit(g: Graph, before: seq<set<nat>>, ids: seq<set<nat>>, root: nat, id: nat, rest: seq<nat>, current: nat,
                  stack: seq<nat>)
    requires WellFormed(g) && root < |g| && current < |g| && Marking(g, before, ids, root, id, rest + [current])
    requires forall k :: 0 <= k < |stack| ==> Reaches(g, root, stack[k])
    requires forall u ::
      ReachedFrom(g, stack, u) <==> ReachedFrom(g, rest, u) || (u != current && Reaches(g, current, u))
    ensures Marking(g, before, ids[current := ids[current] + {id}], root, id, stack)
  {
    assert (rest + [current])[|rest|] == current;
    forall u | 0 <= u < |g| && Reaches(g, root, u) && u != current ensures id in ids[u] || ReachedFrom(g, stack, u) {
      ReachedPush(g, rest, current, u);
    }
  }

  lemma AllVisited(g: Graph, before: seq<set<nat>>, ids: seq<set<nat>>, root: nat, id: nat)
    requires WellFormed(g) && root < |g| && Marking(g, before, ids, root, id, [])
    ensures forall u :: 0 <= u < |g| ==> ids[u] == before[u] + if Reaches(g, root, u) then {id} else {}
  {
    forall u | 0 <= u < |g| ensures ids[u] == before[u] + if Reaches(g, root, u) then {id} else {} {
      assert !ReachedFrom(g, [], u);
    }
  }

  ghost predicate ReachedIn(g: Graph, roots: seq<nat>, u: nat, i: int)
    requires WellFormed(g)
  {
    0 <= i < |roots| && roots[i] < |g| && Reaches(g, roots[i], u)
  }

  ghost predicate ReachedByRoot(g: Graph, stageRoots: seq<seq<nat>>, u: nat, i: int)
    requires WellFormed(g) && u < |g|
  {
    g[u].stage < |stageRoots| && ReachedIn(g, stageRoots[g[u].stage], u, i)
  }
}
