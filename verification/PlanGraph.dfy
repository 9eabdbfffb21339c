/**
  The plan gate's graph algorithms (scripts/validate_plan_gate.py): Kahn's loop, which must visit every
  task exactly when the plan has no cycle and names no unknown dependency, and the fixpoint that computes
  the transitive dependencies of every task.
 */
module PlanGraph {
  import opened Wrappers

  // Tasks in the order of the queue, and the dependencies each lists, repetitions included.
  datatype Graph = Graph(ids: seq<string>, deps: map<string, seq<string>>)

  ghost predicate WellFormed(g: Graph) {
    && (forall i, j :: 0 <= i < j < |g.ids| ==> g.ids[i] != g.ids[j])
    && (forall t :: t in g.deps <==> t in g.ids)
  }

  // Every dependency is a task.
  predicate Known(g: Graph) {
    forall t :: t in g.deps ==> forall k :: 0 <= k < |g.deps[t]| ==> g.deps[t][k] in g.ids
  }

  // p[0] depends on p[1], which depends on p[2], and so on.
  predicate Path(g: Graph, p: seq<string>) {
    |p| >= 2 && forall i :: 0 <= i < |p| - 1 ==> p[i] in g.deps && p[i + 1] in g.deps[p[i]]
  }

  ghost predicate Cyclic(g: Graph) {
    exists p :: Path(g, p) && p[0] == p[|p| - 1]
  }

  // t depends on a, directly or through others.
  ghost predicate Reaches(g: Graph, t: string, a: string) {
    exists p :: Path(g, p) && p[0] == t && p[|p| - 1] == a
  }

  function AsSet(s: seq<string>): set<string> {
    set t | t in s
  }

  // Walks and cycles

  lemma {:induction false} SetBound(s: seq<string>, all: set<string>)
    requires (forall i, j :: 0 <= i < j < |s| ==> s[i] != s[j]) && forall i :: 0 <= i < |s| ==> s[i] in all
    ensures |s| <= |all|
  {
    if s != [] {
      var n := |s| - 1;
      assert forall i :: 0 <= i < n ==> s[..n][i] in all - {s[n]};
      SetBound(s[..n], all - {s[n]});
    }
  }

  predicate HasNext(g: Graph, within: set<string>, t: string) {
    t in g.deps && exists k :: 0 <= k < |g.deps[t]| && g.deps[t][k] in within
  }

  predicate Closed(g: Graph, within: set<string>) {
    forall t :: t in within ==> HasNext(g, within, t)
  }

  predicate StepsTo(g: Graph, t: string, d: string) {
    t in g.deps && d in g.deps[t]
  }

  predicate WalkIn(g: Graph, within: set<string>, w: seq<string>) {
    && (forall i :: 0 <= i < |w| ==> w[i] in within)
    && forall i :: 0 <= i < |w| - 1 ==> StepsTo(g, w[i], w[i + 1])
  }

  // In a set where everything depends on something in the set, a walk goes on as long as one likes.
  lemma {:induction false} Walk(g: Graph, within: set<string>, t: string, n: nat) returns (w: seq<string>)
    requires t in within && Closed(g, within)
    ensures |w| == n + 1 && w[0] == t && WalkIn(g, within, w)
  {
    if n == 0 {
      w := [t];
    } else {
      var front := Walk(g, within, t, n - 1);
      var last := front[n - 1];
      assert HasNext(g, within, last);
      var k :| 0 <= k < |g.deps[last]| && g.deps[last][k] in within;
      assert StepsTo(g, last, g.deps[last][k]);
      w := front + [g.deps[last][k]];
    }
  }

  lemma {:induction false} WalkCycle(g: Graph, within: set<string>, w: seq<string>, i: nat, j: nat)
    requires WalkIn(g, within, w) && i < j < |w| && w[i] == w[j]
    ensures Cyclic(g)
  {
    var p := w[i..j + 1];
    forall k | 0 <= k < |p| - 1 ensures p[k] in g.deps && p[k + 1] in g.deps[p[k]] { assert StepsTo(g, w[i + k], w[i + k + 1]); }
    assert Path(g, p) && p[0] == p[|p| - 1];
  }

  // So it meets itself: there is a cycle.
  lemma {:induction false} WalkMeetsItself(g: Graph, within: set<string>, t: string)
    requires t in within && Closed(g, within)
    ensures Cyclic(g)
  {
    var w := Walk(g, within, t, |within|);
    if i, j :| 0 <= i < j < |w| && w[i] == w[j] {
      WalkCycle(g, within, w, i, j);
    } else {
      SetBound(w, within);
    }
  }

  // A sequence of tasks in which every dependency of a task stands before it.
  ghost predicate Topological(g: Graph, s: seq<string>) {
    forall i :: 0 <= i < |s| ==> s[i] in g.deps && forall d :: d in g.deps[s[i]] ==> d in s[..i]
  }

  // Along a path in such a sequence the positions go down.
  lemma {:induction false} PathGoesBack(g: Graph, s: seq<string>, p: seq<string>, i: nat) returns (j: nat)
    requires Topological(g, s) && (forall a, b :: 0 <= a < b < |s| ==> s[a] != s[b])
    requires Path(g, p) && i < |s| && s[i] == p[0]
    ensures j < i && s[j] == p[|p| - 1]
    decreases |p|
  {
    assert p[1] in g.deps[p[0]] && p[1] in s[..i];
    var k :| 0 <= k < i && s[..i][k] == p[1];
    if |p| == 2 {
      j := k;
    } else {
      assert Path(g, p[1..]);
      j := PathGoesBack(g, s, p[1..], k);
    }
  }

  lemma {:induction false} TopologicalIsAcyclic(g: Graph, s: seq<string>)
    requires Topological(g, s) && (forall a, b :: 0 <= a < b < |s| ==> s[a] != s[b]) && forall t :: t in g.deps ==> t in s
    ensures !Cyclic(g)
  {
    if p :| Path(g, p) && p[0] == p[|p| - 1] {
      var i :| 0 <= i < |s| && s[i] == p[0];
      var j := PathGoesBack(g, s, p, i);
    }
  }

  // Kahn's loop

  // Dependencies of a list that are not done yet, repetitions counted.
  function Open(deps: seq<string>, done: set<string>): nat {
    if deps == [] then 0 else Open(deps[..|deps| - 1], done) + (if deps[|deps| - 1] in done then 0 else 1)
  }

  function Count(s: seq<string>, t: string): nat {
    if s == [] then 0 else Count(s[..|s| - 1], t) + (if s[|s| - 1] == t then 1 else 0)
  }

  lemma {:induction false} OpenLess(deps: seq<string>, done: set<string>, node: string)
    requires node !in done
    ensures Open(deps, done) == Open(deps, done + {node}) + Count(deps, node)
  {
    if deps != [] {
      OpenLess(deps[..|deps| - 1], done, node);
    }
  }

  lemma {:induction false} OpenNone(deps: seq<string>, done: set<string>)
    ensures Open(deps, done) == 0 <==> forall d :: d in deps ==> d in done
  {
    if deps != [] {
      OpenNone(deps[..|deps| - 1], done);
      assert deps == deps[..|deps| - 1] + [deps[|deps| - 1]];
    }
  }

  lemma {:induction false} OpenAll(deps: seq<string>)
    ensures Open(deps, {}) == |deps|
  {
    if deps != [] {
      OpenAll(deps[..|deps| - 1]);
    }
  }

  lemma {:induction false} CountMore(s: seq<string>, x: string, t: string)
    ensures Count(s + [x], t) == Count(s, t) + (if x == t then 1 else 0)
  {
    assert (s + [x])[..|s|] == s;
  }

  function Out(outgoing: map<string, seq<string>>, n: string): seq<string> {
    if n in outgoing then outgoing[n] else []
  }

  // What the first pass leaves of the plan entry at position k: all its dependencies before position i, the first j at it.
  function Taken(g: Graph, k: nat, i: nat, j: nat): seq<string>
    requires k < |g.ids| && g.ids[k] in g.deps && (k == i ==> j <= |g.deps[g.ids[k]]|)
  {
    if k < i then g.deps[g.ids[k]] else if k == i then g.deps[g.ids[k]][..j] else []
  }

  ghost predicate EdgesAt(g: Graph, indegree: map<string, nat>, outgoing: map<string, seq<string>>, k: nat, i: nat, j: nat)
    requires k < |g.ids| && g.ids[k] in g.deps && (k == i ==> j <= |g.deps[g.ids[k]]|)
  {
    && g.ids[k] in indegree && indegree[g.ids[k]] == |Taken(g, k, i, j)|
    && forall n :: Count(Out(outgoing, n), g.ids[k]) == Count(Taken(g, k, i, j), n)
  }

  ghost predicate EdgesSoFar(g: Graph, indegree: map<string, nat>, outgoing: map<string, seq<string>>, i: nat, j: nat)
    requires WellFormed(g) && (i < |g.ids| ==> j <= |g.deps[g.ids[i]]|)
  {
    && (forall t :: t in indegree <==> t in g.ids)
    && (forall n, k :: n in outgoing && 0 <= k < |outgoing[n]| ==> outgoing[n][k] in g.ids)
    && forall k :: 0 <= k < |g.ids| ==> EdgesAt(g, indegree, outgoing, k, i, j)
  }

  lemma {:induction false} EdgeAdded(g: Graph, indegree: map<string, nat>, outgoing: map<string, seq<string>>, i: nat, j: nat)
    requires WellFormed(g) && i < |g.ids| && j < |g.deps[g.ids[i]]| && EdgesSoFar(g, indegree, outgoing, i, j)
    ensures var t, d := g.ids[i], g.deps[g.ids[i]][j];
      EdgesSoFar(g, indegree[t := indegree[t] + 1], outgoing[d := Out(outgoing, d) + [t]], i, j + 1)
  {
    var t, d := g.ids[i], g.deps[g.ids[i]][j];
    var indegree', outgoing' := indegree[t := indegree[t] + 1], outgoing[d := Out(outgoing, d) + [t]];
    assert g.deps[t][..j + 1] == g.deps[t][..j] + [d];
    var j' := j + 1;
    forall k | 0 <= k < |g.ids|
      ensures EdgesAt(g, indegree', outgoing', k, i, j')
    {
      assert EdgesAt(g, indegree, outgoing, k, i, j);
      CountMore(Out(outgoing, d), t, g.ids[k]);
      forall n
        ensures Count(Out(outgoing', n), g.ids[k]) == Count(Taken(g, k, i, j + 1), n)
      {
        CountMore(g.deps[t][..j], d, n);
      }
    }
  }

  lemma {:induction false} TaskAdded(g: Graph, indegree: map<string, nat>, outgoing: map<string, seq<string>>, i: nat)
    requires WellFormed(g) && i < |g.ids| && EdgesSoFar(g, indegree, outgoing, i, |g.deps[g.ids[i]]|)
    ensures EdgesSoFar(g, indegree, outgoing, i + 1, 0)
  {
    var i' := i + 1;
    forall k | 0 <= k < |g.ids|
      ensures EdgesAt(g, indegree, outgoing, k, i', 0)
    {
      assert EdgesAt(g, indegree, outgoing, k, i, |g.deps[g.ids[i]]|);
      assert Taken(g, k, i + 1, 0) == Taken(g, k, i, |g.deps[g.ids[i]]|);
    }
  }

  lemma {:induction false} NoEdges(g: Graph, indegree: map<string, nat>)
    requires WellFormed(g) && (forall t :: t in indegree <==> t in g.ids) && forall t :: t in indegree ==> indegree[t] == 0
    ensures EdgesSoFar(g, indegree, map[], 0, 0)
  {
    forall k | 0 <= k < |g.ids|
      ensures EdgesAt(g, indegree, map[], k, 0, 0)
    {
      assert Taken(g, k, 0, 0) == [];
    }
  }

  // Counts the dependencies of every task, and lists for every name the tasks that depend on it.
  method BuildEdges(g: Graph) returns (indegree: map<string, nat>, outgoing: map<string, seq<string>>)
    requires WellFormed(g)
    ensures EdgesSoFar(g, indegree, outgoing, |g.ids|, 0)
  {
    indegree := map t | t in g.ids :: 0;
    outgoing := map[];
    NoEdges(g, indegree);
    var i := 0;
    while i < |g.ids|
      invariant i <= |g.ids| && EdgesSoFar(g, indegree, outgoing, i, 0)
    {
      var t := g.ids[i];
      var j := 0;
      while j < |g.deps[t]|
        invariant j <= |g.deps[t]| && EdgesSoFar(g, indegree, outgoing, i, j)
      {
        EdgeAdded(g, indegree, outgoing, i, j);
        var d := g.deps[t][j];
        indegree := indegree[t := indegree[t] + 1];
        outgoing := outgoing[d := Out(outgoing, d) + [t]];
        j := j + 1;
      }
      TaskAdded(g, indegree, outgoing, i);
      i := i + 1;
    }
  }

  // The edge lists, as the loop uses them.
  ghost predicate EdgeCounts(g: Graph, outgoing: map<string, seq<string>>)
    requires WellFormed(g)
  {
    && (forall n, k :: n in outgoing && 0 <= k < |outgoing[n]| ==> outgoing[n][k] in g.ids)
    && forall t, n :: t in g.deps ==> Count(Out(outgoing, n), t) == Count(g.deps[t], n)
  }

  // The degrees, when the tasks in done are done, and of the next one the edges to these children.
  ghost predicate Degrees(g: Graph, indegree: map<string, nat>, done: set<string>, children: seq<string>)
    requires WellFormed(g)
  {
    && (forall t :: t in indegree <==> t in g.ids)
    && forall t :: t in g.deps ==> indegree[t] + Count(children, t) == Open(g.deps[t], done)
  }

  // A task is listed, once, when its degree has come down to zero.
  ghost predicate Listed(g: Graph, indegree: map<string, nat>, listed: seq<string>)
    requires WellFormed(g) && forall t :: t in indegree <==> t in g.ids
  {
    && (forall i, j :: 0 <= i < j < |listed| ==> listed[i] != listed[j])
    && (forall i :: 0 <= i < |listed| ==> listed[i] in g.ids)
    && forall t :: t in g.ids ==> (t in listed <==> indegree[t] == 0)
  }

  lemma {:induction false} AllEdges(g: Graph, indegree: map<string, nat>, outgoing: map<string, seq<string>>)
    requires WellFormed(g) && EdgesSoFar(g, indegree, outgoing, |g.ids|, 0)
    ensures EdgeCounts(g, outgoing) && Degrees(g, indegree, {}, [])
  {
    forall t | t in g.deps
      ensures indegree[t] == Open(g.deps[t], {}) && forall n :: Count(Out(outgoing, n), t) == Count(g.deps[t], n)
    {
      var k :| 0 <= k < |g.ids| && g.ids[k] == t;
      assert EdgesAt(g, indegree, outgoing, k, |g.ids|, 0);
      OpenAll(g.deps[t]);
    }
  }

  lemma {:induction false} CountPrefix(s: seq<string>, j: nat, t: string)
    requires j <= |s|
    ensures Count(s[..j], t) <= Count(s, t)
    decreases |s|
  {
    if j < |s| {
      assert s[..|s| - 1][..j] == s[..j];
      CountPrefix(s[..|s| - 1], j, t);
    } else {
      assert s[..j] == s;
    }
  }

  // One edge of the node: its child's degree is positive, and goes down by one.
  lemma {:induction false} Decrement(g: Graph, indegree: map<string, nat>, outgoing: map<string, seq<string>>, done: set<string>, node: string, j: nat)
    requires WellFormed(g) && EdgeCounts(g, outgoing) && node !in done && j < |Out(outgoing, node)|
    requires Degrees(g, indegree, done, Out(outgoing, node)[..j])
    ensures var child := Out(outgoing, node)[j];
      && child in indegree && indegree[child] > 0
      && Degrees(g, indegree[child := indegree[child] - 1], done, Out(outgoing, node)[..j + 1])
  {
    var children := Out(outgoing, node);
    var child := children[j];
    assert children[..j + 1] == children[..j] + [child];
    CountMore(children[..j], child, child);
    CountPrefix(children, j + 1, child);
    OpenLess(g.deps[child], done, node);
    forall t | t in g.deps ensures Count(children[..j + 1], t) == Count(children[..j], t) + (if child == t then 1 else 0) {
      CountMore(children[..j], child, t);
    }
  }

  lemma {:induction false} ListedMore(g: Graph, indegree: map<string, nat>, listed: seq<string>, child: string)
    requires WellFormed(g) && (forall t :: t in indegree <==> t in g.ids) && child in indegree && indegree[child] > 0 && Listed(g, indegree, listed)
    ensures var indegree' := indegree[child := indegree[child] - 1];
      Listed(g, indegree', if indegree'[child] == 0 then listed + [child] else listed)
  {
    assert child !in listed;
    assert forall t :: t in listed + [child] <==> t in listed || t == child;
  }

  lemma {:induction false} NodeDone(g: Graph, indegree: map<string, nat>, outgoing: map<string, seq<string>>, done: set<string>, node: string)
    requires WellFormed(g) && EdgeCounts(g, outgoing) && node !in done && Degrees(g, indegree, done, Out(outgoing, node))
    ensures Degrees(g, indegree, done + {node}, [])
  {
    forall t | t in g.deps ensures Open(g.deps[t], done) == Open(g.deps[t], done + {node}) + Count(g.deps[t], node) {
      OpenLess(g.deps[t], done, node);
    }
  }

  // Tasks that the loop leaves out wait for one another, or for nothing that exists.
  lemma {:induction false} LeftOut(g: Graph, indegree: map<string, nat>, visited: seq<string>, t: string)
    requires WellFormed(g) && Known(g) && Degrees(g, indegree, AsSet(visited), []) && Listed(g, indegree, visited)
    requires t in g.ids && t !in visited
    ensures Cyclic(g)
  {
    var within := AsSet(g.ids) - AsSet(visited);
    forall u | u in within
      ensures HasNext(g, within, u)
    {
      OpenNone(g.deps[u], AsSet(visited));
      var d :| d in g.deps[u] && d !in AsSet(visited);
      var k :| 0 <= k < |g.deps[u]| && g.deps[u][k] == d;
    }
    WalkMeetsItself(g, within, t);
  }

  lemma {:induction false} AllVisited(g: Graph, visited: seq<string>)
    requires WellFormed(g) && (forall i, j :: 0 <= i < j < |visited| ==> visited[i] != visited[j]) && forall i :: 0 <= i < |visited| ==> visited[i] in g.ids
    ensures |visited| == |g.ids| <==> forall t :: t in g.ids ==> t in visited
  {
    var all := AsSet(g.ids);
    SetSize(g.ids);
    SetSize(visited);
    assert AsSet(visited) <= all;
    if |visited| == |g.ids| {
      SameSize(AsSet(visited), all);
      forall t | t in g.ids ensures t in visited { assert t in all; }
    }
    if forall t :: t in g.ids ==> t in visited {
      assert AsSet(visited) == all;
    }
  }

  lemma {:induction false} SetSize(s: seq<string>)
    requires forall i, j :: 0 <= i < j < |s| ==> s[i] != s[j]
    ensures |AsSet(s)| == |s|
  {
    if s != [] {
      var n := |s| - 1;
      SetSize(s[..n]);
      assert AsSet(s) == AsSet(s[..n]) + {s[n]};
      assert s[n] !in s[..n];
    }
  }

  lemma {:induction false} SameSize(a: set<string>, b: set<string>)
    requires a <= b && |a| == |b|
    ensures a == b
  {
    if b - a == {} {
      assert a == b;
    } else {
      var x :| x in b - a;
      SubsetSize(a, b - {x});
    }
  }

  lemma {:induction false} SubsetSize(a: set<string>, b: set<string>)
    requires a <= b
    ensures |a| <= |b|
  {
    if x :| x in a {
      SubsetSize(a - {x}, b - {x});
    }
  }

  // A node leaves the front of the queue: its dependencies are all done.
  lemma {:induction false} VisitNext(g: Graph, indegree: map<string, nat>, visited: seq<string>, node: string)
    requires WellFormed(g) && Degrees(g, indegree, AsSet(visited), []) && Topological(g, visited)
    requires node in g.deps && indegree[node] == 0
    ensures Topological(g, visited + [node])
  {
    OpenNone(g.deps[node], AsSet(visited));
    var more := visited + [node];
    forall i | 0 <= i < |more|
      ensures more[i] in g.deps && forall d :: d in g.deps[more[i]] ==> d in more[..i]
    {
      if i < |visited| {
        assert more[..i] == visited[..i];
      } else {
        assert more[..i] == visited;
      }
    }
  }

  // The state of the loop between two visits.
  ghost predicate KahnInv(g: Graph, indegree: map<string, nat>, outgoing: map<string, seq<string>>, visited: seq<string>, work: seq<string>)
    requires WellFormed(g)
  {
    && EdgeCounts(g, outgoing) && Degrees(g, indegree, AsSet(visited), [])
    && Listed(g, indegree, visited + work) && Topological(g, visited)
  }

  // The state while the edges of a node are taken away: those to its first j children are gone.
  ghost predicate Releasing(g: Graph, indegree: map<string, nat>, outgoing: map<string, seq<string>>, done: set<string>, node: string, j: nat, listed: seq<string>)
    requires WellFormed(g)
  {
    && EdgeCounts(g, outgoing) && node !in done && j <= |Out(outgoing, node)|
    && Degrees(g, indegree, done, Out(outgoing, node)[..j]) && Listed(g, indegree, listed)
  }

  // What joins the queue when the child has lost an edge.
  function Freed(indegree: map<string, nat>, child: string): seq<string> {
    if child in indegree && indegree[child] == 0 then [child] else []
  }

  lemma {:induction false} ChildReleased(g: Graph, indegree: map<string, nat>, outgoing: map<string, seq<string>>, done: set<string>, node: string, j: nat,
                                         listed: seq<string>)
    requires WellFormed(g) && j < |Out(outgoing, node)| && Releasing(g, indegree, outgoing, done, node, j, listed)
    ensures var child := Out(outgoing, node)[j];
      && child in indegree && indegree[child] > 0
      && var indegree' := indegree[child := indegree[child] - 1];
      Releasing(g, indegree', outgoing, done, node, j + 1, listed + Freed(indegree', child))
  {
    Decrement(g, indegree, outgoing, done, node, j);
    ListedMore(g, indegree, listed, Out(outgoing, node)[j]);
    assert listed + [] == listed;
  }

  // One child loses an edge, and joins the queue when it was the last.
  method ReleaseChild(g: Graph, indegree: map<string, nat>, outgoing: map<string, seq<string>>, ghost done: set<string>, node: string, j: nat,
                      ghost listed: seq<string>, work: seq<string>)
    returns (indegree': map<string, nat>, work': seq<string>)
    requires WellFormed(g) && j < |Out(outgoing, node)| && Releasing(g, indegree, outgoing, done, node, j, listed)
    ensures work' == work + Freed(indegree', Out(outgoing, node)[j])
    ensures Releasing(g, indegree', outgoing, done, node, j + 1, listed + Freed(indegree', Out(outgoing, node)[j]))
  {
    var child := Out(outgoing, node)[j];
    ChildReleased(g, indegree, outgoing, done, node, j, listed);
    indegree' := indegree[child := indegree[child] - 1];
    work' := if indegree'[child] == 0 then work + [child] else work;
  }

  method Release(g: Graph, indegree: map<string, nat>, outgoing: map<string, seq<string>>, ghost done: set<string>, node: string,
                 ghost head: seq<string>, work: seq<string>)
    returns (indegree': map<string, nat>, work': seq<string>)
    requires WellFormed(g) && Releasing(g, indegree, outgoing, done, node, 0, head + work)
    ensures Degrees(g, indegree', done + {node}, []) && Listed(g, indegree', head + work')
  {
    var children := Out(outgoing, node);
    indegree', work' := indegree, work;
    ghost var listed := head + work;
    var j := 0;
    while j < |children|
      invariant j <= |children| && Releasing(g, indegree', outgoing, done, node, j, listed) && listed == head + work'
    {
      indegree', work' := ReleaseChild(g, indegree', outgoing, done, node, j, listed, work');
      listed := listed + Freed(indegree', children[j]);
      j := j + 1;
    }
    assert children[..j] == children;
    NodeDone(g, indegree', outgoing, done, node);
  }

  // One turn of the loop: the front of the queue is visited, and its children released.
  method Visit(g: Graph, indegree: map<string, nat>, outgoing: map<string, seq<string>>, visited: seq<string>, work: seq<string>)
    returns (indegree': map<string, nat>, visited': seq<string>, work': seq<string>)
    requires WellFormed(g) && work != [] && KahnInv(g, indegree, outgoing, visited, work)
    ensures KahnInv(g, indegree', outgoing, visited', work') && |visited| < |visited'| <= |g.ids|
  {
    var node := work[0];
    FrontIsNew(g, indegree, visited, work);
    VisitNext(g, indegree, visited, node);
    visited' := visited + [node];
    assert visited + work == visited' + work[1..];
    assert Out(outgoing, node)[..0] == [];
    indegree', work' := Release(g, indegree, outgoing, AsSet(visited), node, visited', work[1..]);
    assert AsSet(visited') == AsSet(visited) + {node};
  }

  // Kahn's loop ends, and visits every task exactly when every dependency is a task and there is no cycle.
  method Kahn(g: Graph) returns (visited: seq<string>)
    requires WellFormed(g)
    ensures (forall i, j :: 0 <= i < j < |visited| ==> visited[i] != visited[j]) && forall i :: 0 <= i < |visited| ==> visited[i] in g.ids
    ensures Topological(g, visited)
    ensures |visited| == |g.ids| <==> Known(g) && !Cyclic(g)
  {
    var indegree, outgoing := BuildEdges(g);
    AllEdges(g, indegree, outgoing);
    var work := Ready(g, indegree);
    visited := [];
    assert AsSet(visited) == {};
    assert visited + work == work;
    while work != []
      invariant KahnInv(g, indegree, outgoing, visited, work)
      decreases |g.ids| - |visited|
    {
      indegree, visited, work := Visit(g, indegree, outgoing, visited, work);
    }
    assert visited + work == visited;
    Verdict(g, indegree, visited);
  }

  // The tasks without dependencies.
  method Ready(g: Graph, indegree: map<string, nat>) returns (work: seq<string>)
    requires WellFormed(g) && forall t :: t in indegree <==> t in g.ids
    ensures Listed(g, indegree, work)
  {
    work := [];
    var i := 0;
    while i < |g.ids|
      invariant i <= |g.ids|
      invariant forall a, b :: 0 <= a < b < |work| ==> work[a] != work[b]
      invariant forall t :: t in work <==> t in g.ids[..i] && indegree[t] == 0
    {
      var t := g.ids[i];
      assert t !in g.ids[..i];
      assert g.ids[..i + 1] == g.ids[..i] + [t];
      if indegree[t] == 0 {
        work := work + [t];
      }
      i := i + 1;
    }
    assert g.ids[..i] == g.ids;
  }

  lemma {:induction false} FrontIsNew(g: Graph, indegree: map<string, nat>, visited: seq<string>, work: seq<string>)
    requires WellFormed(g) && work != [] && (forall t :: t in indegree <==> t in g.ids) && Listed(g, indegree, visited + work)
    ensures work[0] !in AsSet(visited) && work[0] in g.deps && indegree[work[0]] == 0 && |visited| < |g.ids|
  {
    var listed := visited + work;
    var n := |visited|;
    assert listed[n] == work[0] && listed[n] in g.ids && listed[n] in listed;
    forall i | 0 <= i < n ensures visited[i] != work[0] { assert listed[i] == visited[i]; }
    SetSize(listed);
    SetSize(g.ids);
    SubsetSize(AsSet(listed), AsSet(g.ids));
  }

  lemma {:induction false} Verdict(g: Graph, indegree: map<string, nat>, visited: seq<string>)
    requires WellFormed(g) && Degrees(g, indegree, AsSet(visited), []) && Listed(g, indegree, visited) && Topological(g, visited)
    ensures |visited| == |g.ids| <==> Known(g) && !Cyclic(g)
  {
    AllVisited(g, visited);
    if forall t :: t in g.ids ==> t in visited {
      TopologicalIsAcyclic(g, visited);
      forall t, k | t in g.deps && 0 <= k < |g.deps[t]|
        ensures g.deps[t][k] in g.ids
      {
        var i :| 0 <= i < |visited| && visited[i] == t;
        assert g.deps[t][k] in visited[..i];
      }
    } else if Known(g) {
      var t :| t in g.ids && t !in visited;
      LeftOut(g, indegree, visited, t);
    }
  }

  // The ancestor loop

  // What one turn for a task adds: its dependencies, and their ancestors so far.
  function Expanded(g: Graph, ancestors: map<string, set<string>>, t: string, n: nat): set<string>
    requires t in g.deps && n <= |g.deps[t]|
  {
    if n == 0 then {}
    else
      var d := g.deps[t][n - 1];
      Expanded(g, ancestors, t, n - 1) + {d} + (if d in ancestors then ancestors[d] else {})
  }

  // Every ancestor found is one.
  ghost predicate Sound(g: Graph, ancestors: map<string, set<string>>) {
    && (forall t :: t in ancestors <==> t in g.ids)
    && forall t, a :: t in ancestors && a in ancestors[t] ==> Reaches(g, t, a) && a in g.ids
  }

  // Nothing is missing at a task.
  predicate Complete(g: Graph, ancestors: map<string, set<string>>, t: string) {
    t in ancestors && t in g.deps && forall k :: 0 <= k < |g.deps[t]| ==>
      g.deps[t][k] in ancestors[t] && g.deps[t][k] in ancestors && ancestors[g.deps[t][k]] <= ancestors[t]
  }

  lemma {:induction false} DirectReach(g: Graph, t: string, d: string)
    requires t in g.deps && d in g.deps[t]
    ensures Reaches(g, t, d)
  {
    assert Path(g, [t, d]);
  }

  lemma {:induction false} FurtherReach(g: Graph, t: string, d: string, a: string)
    requires t in g.deps && d in g.deps[t] && Reaches(g, d, a)
    ensures Reaches(g, t, a)
  {
    var p :| Path(g, p) && p[0] == d && p[|p| - 1] == a;
    assert Path(g, [t] + p);
  }

  predicate KnownFirst(g: Graph, t: string, n: nat)
    requires t in g.deps && n <= |g.deps[t]|
  {
    forall k :: 0 <= k < n ==> g.deps[t][k] in g.ids
  }

  lemma {:induction false} ExpandedReached(g: Graph, ancestors: map<string, set<string>>, t: string, n: nat)
    requires t in g.deps && n <= |g.deps[t]| && Sound(g, ancestors) && KnownFirst(g, t, n)
    ensures forall a :: a in Expanded(g, ancestors, t, n) ==> Reaches(g, t, a) && a in g.ids
  {
    if n > 0 {
      ExpandedReached(g, ancestors, t, n - 1);
      OneDependency(g, ancestors, t, g.deps[t][n - 1]);
    }
  }

  lemma {:induction false} ExpandedHolds(g: Graph, ancestors: map<string, set<string>>, t: string, n: nat, k: nat)
    requires t in g.deps && k < n <= |g.deps[t]|
    ensures var d := g.deps[t][k]; d in Expanded(g, ancestors, t, n) && (d in ancestors ==> ancestors[d] <= Expanded(g, ancestors, t, n))
  {
    if k < n - 1 {
      ExpandedHolds(g, ancestors, t, n - 1, k);
    }
  }

  lemma {:induction false} OneDependency(g: Graph, ancestors: map<string, set<string>>, t: string, d: string)
    requires t in g.deps && d in g.deps[t] && d in ancestors && Sound(g, ancestors)
    ensures Reaches(g, t, d) && forall a :: a in ancestors[d] ==> Reaches(g, t, a)
  {
    DirectReach(g, t, d);
    forall a | a in ancestors[d] ensures Reaches(g, t, a) { FurtherReach(g, t, d, a); }
  }

  // A complete table misses no ancestor.
  lemma {:induction false} CompleteReaches(g: Graph, ancestors: map<string, set<string>>, p: seq<string>)
    requires Path(g, p) && forall t :: t in g.deps ==> Complete(g, ancestors, t)
    ensures p[0] in ancestors && p[|p| - 1] in ancestors[p[0]]
    decreases |p|
  {
    var t := p[0];
    assert Complete(g, ancestors, t);
    var k :| 0 <= k < |g.deps[t]| && g.deps[t][k] == p[1];
    if |p| > 2 {
      assert Path(g, p[1..]);
      CompleteReaches(g, ancestors, p[1..]);
    }
  }

  // Entries still missing, were every task an ancestor of every other: what each change of the table uses up.
  function Room(ids: seq<string>, ancestors: map<string, set<string>>, size: nat): nat {
    if ids == [] then 0
    else
      var t := ids[|ids| - 1];
      Room(ids[..|ids| - 1], ancestors, size) + (if t in ancestors && |ancestors[t]| <= size then size - |ancestors[t]| else 0)
  }

  lemma {:induction false} RoomElsewhere(ids: seq<string>, ancestors: map<string, set<string>>, size: nat, t: string, more: set<string>)
    requires t !in ids
    ensures Room(ids, ancestors[t := more], size) == Room(ids, ancestors, size)
  {
    if ids != [] {
      RoomElsewhere(ids[..|ids| - 1], ancestors, size, t, more);
    }
  }

  lemma {:induction false} RoomShrinks(ids: seq<string>, ancestors: map<string, set<string>>, size: nat, i: nat, more: set<string>)
    requires (forall a, b :: 0 <= a < b < |ids| ==> ids[a] != ids[b]) && i < |ids| && ids[i] in ancestors
    requires |ancestors[ids[i]]| < |more| <= size
    ensures Room(ids, ancestors[ids[i] := more], size) < Room(ids, ancestors, size)
  {
    var n := |ids| - 1;
    if i == n {
      RoomElsewhere(ids[..n], ancestors, size, ids[i], more);
    } else {
      RoomShrinks(ids[..n], ancestors, size, i, more);
    }
  }

  lemma {:induction false} GrownIsSound(g: Graph, ancestors: map<string, set<string>>, t: string, expanded: set<string>)
    requires Sound(g, ancestors) && t in ancestors && forall a :: a in expanded ==> Reaches(g, t, a) && a in g.ids
    ensures Sound(g, ancestors[t := ancestors[t] + expanded])
  {
  }

  lemma {:induction false} GrownHasLessRoom(g: Graph, ancestors: map<string, set<string>>, i: nat, more: set<string>)
    requires WellFormed(g) && i < |g.ids| && g.ids[i] in ancestors && ancestors[g.ids[i]] <= more <= AsSet(g.ids)
    requires !(more <= ancestors[g.ids[i]])
    ensures Room(g.ids, ancestors[g.ids[i] := more], |g.ids|) < Room(g.ids, ancestors, |g.ids|)
  {
    var before := ancestors[g.ids[i]];
    var x :| x in more && x !in before;
    SubsetSize(before + {x}, more);
    SetSize(g.ids);
    SubsetSize(more, AsSet(g.ids));
    RoomShrinks(g.ids, ancestors, |g.ids|, i, more);
  }

  // One turn for a task: the dependencies, and the ancestors found so far of each. An unknown dependency fails.
  method Expand(g: Graph, ancestors: map<string, set<string>>, t: string) returns (expanded: Option<set<string>>)
    requires WellFormed(g) && t in g.ids && Sound(g, ancestors)
    ensures expanded.Some? <==> KnownFirst(g, t, |g.deps[t]|)
    ensures expanded.Some? ==> expanded.value == Expanded(g, ancestors, t, |g.deps[t]|)
  {
    var found: set<string> := {};
    var n := 0;
    while n < |g.deps[t]|
      invariant n <= |g.deps[t]| && found == Expanded(g, ancestors, t, n) && KnownFirst(g, t, n)
    {
      var d := g.deps[t][n];
      if d !in ancestors {
        return None;
      }
      found := found + {d} + ancestors[d];
      n := n + 1;
    }
    return Some(found);
  }

  datatype PassResult = Missing | Unchanged | Changed(table: map<string, set<string>>)

  // The tasks before position i have known dependencies.
  predicate KnownUpTo(g: Graph, i: nat)
    requires i <= |g.ids| && forall t :: t in g.ids ==> t in g.deps
  {
    forall m :: 0 <= m < i ==> KnownFirst(g, g.ids[m], |g.deps[g.ids[m]]|)
  }

  lemma {:induction false} KnownAll(g: Graph)
    requires WellFormed(g)
    ensures KnownUpTo(g, |g.ids|) <==> Known(g)
  {
    if KnownUpTo(g, |g.ids|) {
      forall t, k | t in g.deps && 0 <= k < |g.deps[t]|
        ensures g.deps[t][k] in g.ids
      {
        var m :| 0 <= m < |g.ids| && g.ids[m] == t;
      }
    }
  }

  // The table with one task's entry widened, when that adds anything.
  method Widen(g: Graph, ancestors: map<string, set<string>>, i: nat) returns (r: PassResult)
    requires WellFormed(g) && i < |g.ids| && Sound(g, ancestors)
    ensures r.Missing? <==> !KnownFirst(g, g.ids[i], |g.deps[g.ids[i]]|)
    ensures r.Changed? ==> Sound(g, r.table) && Room(g.ids, r.table, |g.ids|) < Room(g.ids, ancestors, |g.ids|)
    ensures r.Unchanged? ==> Complete(g, ancestors, g.ids[i])
  {
    var t := g.ids[i];
    var expanded := Expand(g, ancestors, t);
    if expanded.None? {
      return Missing;
    }
    ExpandedReached(g, ancestors, t, |g.deps[t]|);
    if expanded.value <= ancestors[t] {
      forall k | 0 <= k < |g.deps[t]| ensures g.deps[t][k] in expanded.value && ancestors[g.deps[t][k]] <= expanded.value {
        ExpandedHolds(g, ancestors, t, |g.deps[t]|, k);
      }
      return Unchanged;
    }
    var more := ancestors[t] + expanded.value;
    GrownIsSound(g, ancestors, t, expanded.value);
    assert more <= AsSet(g.ids);
    GrownHasLessRoom(g, ancestors, i, more);
    return Changed(ancestors[t := more]);
  }

  // A pass that has come to position i: nothing changed and all is complete so far, or the table grew.
  ghost predicate Passing(g: Graph, table: map<string, set<string>>, ancestors: map<string, set<string>>, changed: bool, i: nat)
    requires WellFormed(g) && i <= |g.ids|
  {
    && KnownUpTo(g, i) && Sound(g, ancestors)
    && (changed ==> Room(g.ids, ancestors, |g.ids|) < Room(g.ids, table, |g.ids|))
    && (!changed ==> ancestors == table && forall k :: 0 <= k < i ==> Complete(g, table, g.ids[k]))
  }

  method Turn(g: Graph, ghost table: map<string, set<string>>, ancestors: map<string, set<string>>, changed: bool, i: nat)
    returns (next: Option<(map<string, set<string>>, bool)>)
    requires WellFormed(g) && i < |g.ids| && Passing(g, table, ancestors, changed, i)
    ensures next.None? ==> !Known(g)
    ensures next.Some? ==> Passing(g, table, next.value.0, next.value.1, i + 1)
  {
    var turn := Widen(g, ancestors, i);
    match turn
    case Missing =>
      return None;
    case Unchanged =>
      return Some((ancestors, changed));
    case Changed(more) =>
      return Some((more, true));
  }

  // One pass over all tasks; None when a dependency is missing.
  method Pass(g: Graph, table: map<string, set<string>>) returns (r: Option<(map<string, set<string>>, bool)>)
    requires WellFormed(g) && Sound(g, table)
    ensures r.Some? <==> Known(g)
    ensures r.Some? ==> Passing(g, table, r.value.0, r.value.1, |g.ids|)
  {
    var ancestors, changed := table, false;
    KnownAll(g);
    var i := 0;
    while i < |g.ids|
      invariant i <= |g.ids| && Passing(g, table, ancestors, changed, i)
    {
      var next := Turn(g, table, ancestors, changed, i);
      if next.None? {
        return None;
      }
      ancestors, changed := next.value.0, next.value.1;
      i := i + 1;
    }
    return Some((ancestors, changed));
  }

  // The fixpoint ends with exactly the transitive dependencies of every task, in cyclic plans as well; it fails exactly
  // when some dependency is not a task.
  method Ancestors(g: Graph) returns (r: Option<map<string, set<string>>>)
    requires WellFormed(g)
    ensures r.Some? <==> Known(g)
    ensures r.Some? ==> Exact(g, r.value)
  {
    var ancestors: map<string, set<string>> := map t | t in g.ids :: {};
    var changed := true;
    while changed
      invariant Sound(g, ancestors)
      invariant !changed ==> Known(g) && Passing(g, ancestors, ancestors, false, |g.ids|)
      decreases Room(g.ids, ancestors, |g.ids|), changed
    {
      var pass := Pass(g, ancestors);
      if pass.None? {
        return None;
      }
      ancestors, changed := pass.value.0, pass.value.1;
    }
    FixpointIsExact(g, ancestors);
    return Some(ancestors);
  }

  // The table holds exactly what each task depends on, directly or not.
  ghost predicate Exact(g: Graph, ancestors: map<string, set<string>>) {
    (forall t :: t in ancestors <==> t in g.ids) && forall t, a :: t in ancestors ==> (a in ancestors[t] <==> Reaches(g, t, a))
  }

  lemma {:induction false} FixpointIsExact(g: Graph, ancestors: map<string, set<string>>)
    requires WellFormed(g) && Passing(g, ancestors, ancestors, false, |g.ids|)
    ensures Exact(g, ancestors)
  {
    forall t | t in g.deps ensures Complete(g, ancestors, t) {
      var k :| 0 <= k < |g.ids| && g.ids[k] == t;
      assert Complete(g, ancestors, g.ids[k]);
    }
    forall t, a | t in g.ids && Reaches(g, t, a)
      ensures a in ancestors[t]
    {
      var p :| Path(g, p) && p[0] == t && p[|p| - 1] == a;
      CompleteReaches(g, ancestors, p);
    }
  }
}
