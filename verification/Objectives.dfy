/**
 Campaign objectives, their dependency graph, and the order in which a campaign visits them.

 A graph maps an objective id to its objective.  Cycles are stated with paths; a schedule is
 stated by what stands at each position.  Neither definition mentions an algorithm.
 */
module Objectives {
  import opened Basics

  type Id = string

  datatype Objective = Objective(
    id: Id,
    priority: int,
    dependsOn: seq<Id>,
    requiresApproval: bool,
    lockoutRisk: bool,          // the panel lockout signal
    stopSignals: seq<string>,   // the fuzzing stop signals the objective carries
    requestBudget: nat
  )

  type Graph = map<Id, Objective>

  /** The dict the source builds from a list: a repeated id keeps its last objective. */
  function ById(objectives: seq<Objective>): (g: Graph)
    ensures forall x :: x in g ==> g[x] in objectives && g[x].id == x
    ensures g.Keys == set o | o in objectives :: o.id
  {
    if objectives == [] then map[]
    else
      var last := |objectives| - 1;
      ById(objectives[..last])[objectives[last].id := objectives[last]]
  }

  function Ids(objectives: seq<Objective>): (ids: seq<Id>)
    ensures |ids| == |objectives|
    ensures forall i :: 0 <= i < |ids| ==> ids[i] == objectives[i].id
  {
    seq(|objectives|, i requires 0 <= i < |objectives| => objectives[i].id)
  }

  // ----- Cycles -----

  ghost predicate Known(g: Graph) {
    forall x, d :: x in g && d in g[x].dependsOn ==> d in g
  }

  ghost predicate Edge(g: Graph, x: Id, d: Id) {
    x in g && d in g[x].dependsOn
  }

  ghost predicate Path(g: Graph, p: seq<Id>) {
    forall i :: 0 <= i < |p| - 1 ==> Edge(g, p[i], p[i + 1])
  }

  ghost predicate Cycle(g: Graph, p: seq<Id>) {
    |p| >= 2 && p[0] == p[|p| - 1] && Path(g, p)
  }

  ghost predicate Acyclic(g: Graph) {
    forall p :: !Cycle(g, p)
  }

  /** Every id of the graph once, each after all its dependencies. */
  ghost predicate Topological(g: Graph, ids: seq<Id>) {
    && Distinct(ids) && Elements(ids) == g.Keys
    && forall i, d :: 0 <= i < |ids| && d in g[ids[i]].dependsOn ==> d in ids[..i]
  }

  /** Along a path the positions strictly fall, so a path cannot come back. */
  lemma {:induction false} PathDescends(g: Graph, ids: seq<Id>, p: seq<Id>) returns (i: nat, j: nat)
    requires Topological(g, ids) && |p| >= 2 && Path(g, p)
    ensures i < j < |ids| && ids[j] == p[0] && ids[i] == p[|p| - 1]
  {
    assert Edge(g, p[0], p[1]);
    j :| 0 <= j < |ids| && ids[j] == p[0];
    i :| 0 <= i < j && ids[i] == p[1];
    if |p| > 2 {
      forall k | 0 <= k < |p[1..]| - 1 ensures Edge(g, p[1..][k], p[1..][k + 1]) {
        assert Edge(g, p[k + 1], p[k + 2]);
      }
      var i', j' := PathDescends(g, ids, p[1..]);
      assert ids[j'] == ids[i];
      i := i';
    }
  }

  lemma TopologicalIsAcyclic(g: Graph, ids: seq<Id>)
    requires Topological(g, ids)
    ensures Known(g) && Acyclic(g)
  {
    forall x, d | x in g && d in g[x].dependsOn ensures d in g {
      var i :| 0 <= i < |ids| && ids[i] == x;
      assert d in ids[..i];
    }
    forall p ensures !Cycle(g, p) {
      if Cycle(g, p) {
        var i, j := PathDescends(g, ids, p);
        assert false;
      }
    }
  }

  ghost predicate DependsInside(g: Graph, s: set<Id>, x: Id) {
    exists d :: Edge(g, x, d) && d in s
  }

  /** A walk of any length inside a set where everything has a dependency in that set. */
  lemma {:induction false} EndlessWalk(g: Graph, s: set<Id>, start: Id, length: nat) returns (p: seq<Id>)
    requires start in s && forall x :: x in s ==> DependsInside(g, s, x)
    ensures |p| == length + 1 && p[0] == start && Path(g, p) && Elements(p) <= s
    decreases length
  {
    if length == 0 {
      p := [start];
    } else {
      var d :| Edge(g, start, d) && d in s;
      var rest := EndlessWalk(g, s, d, length - 1);
      p := [start] + rest;
      assert Edge(g, p[0], p[1]);
      assert forall i :: 0 < i < |p| - 1 ==> p[i] == rest[i - 1] && p[i + 1] == rest[i];
    }
  }

  /** Where everything has a dependency inside a non-empty set, a long enough walk closes a cycle. */
  lemma EndlessMeansCyclic(g: Graph, s: set<Id>) returns (c: seq<Id>)
    requires s != {} && forall x :: x in s ==> DependsInside(g, s, x)
    ensures Cycle(g, c)
  {
    hide DependsInside, Edge;
    var x :| x in s;
    var p := EndlessWalk(g, s, x, |s|);
    var i, j := Pigeonhole(p, s);
    SubpathIsPath(g, p, i, j + 1);
    c := p[i..j + 1];
  }

  /** In an acyclic graph some member of any non-empty set depends on nothing else in it. */
  lemma AcyclicHasSource(g: Graph, s: set<Id>) returns (x: Id)
    requires Acyclic(g) && s != {}
    ensures x in s && forall d :: Edge(g, x, d) ==> d !in s
  {
    hide Cycle, Edge;
    if forall y :: y in s ==> DependsInside(g, s, y) {
      var c := EndlessMeansCyclic(g, s);
      assert false;
    }
    x :| x in s && !DependsInside(g, s, x);
  }

  lemma SubpathIsPath(g: Graph, p: seq<Id>, from: nat, to: nat)
    requires Path(g, p) && from <= to <= |p|
    ensures Path(g, p[from..to])
  {
    var c := p[from..to];
    forall k | 0 <= k < |c| - 1 ensures Edge(g, c[k], c[k + 1]) {
      assert Edge(g, p[from + k], p[from + k + 1]);
    }
  }

  // ----- The scheduled order -----

  /** Lexicographic order of strings by code point, as Python compares them. */
  predicate StringLe(a: string, b: string) {
    a == "" || (b != "" && (a[0] < b[0] || (a[0] == b[0] && StringLe(a[1..], b[1..]))))
  }

  lemma {:induction false} StringLeTotal(a: string, b: string)
    ensures StringLe(a, b) || StringLe(b, a)
    ensures StringLe(a, b) && StringLe(b, a) ==> a == b
  {
    if a != "" && b != "" {
      StringLeTotal(a[1..], b[1..]);
      if a[0] == b[0] && a[1..] == b[1..] {
        assert a == [a[0]] + a[1..] && b == [b[0]] + b[1..];
      }
    }
  }

  lemma {:induction false} StringLeTransitive(a: string, b: string, c: string)
    requires StringLe(a, b) && StringLe(b, c)
    ensures StringLe(a, c)
  {
    if a != "" && a[0] == b[0] == c[0] {
      StringLeTransitive(a[1..], b[1..], c[1..]);
    }
  }

  /** Equal up to some point where a ends or has the smaller character. */
  ghost predicate Precedes(a: string, b: string) {
    exists k :: PrecedesAt(a, b, k)
  }

  ghost predicate PrecedesAt(a: string, b: string, k: nat) {
    k <= |a| && k <= |b| && a[..k] == b[..k] && (k == |a| || (k < |b| && a[k] < b[k]))
  }

  lemma {:induction false} StringLeExactly(a: string, b: string)
    ensures StringLe(a, b) <==> Precedes(a, b)
  {
    if a == "" {
      assert PrecedesAt(a, b, 0);
    } else if b != "" && a[0] == b[0] {
      StringLeExactly(a[1..], b[1..]);
      if Precedes(a[1..], b[1..]) {
        var k: nat :| PrecedesAt(a[1..], b[1..], k);
        assert a[..k + 1] == [a[0]] + a[1..][..k] && b[..k + 1] == [b[0]] + b[1..][..k];
        assert PrecedesAt(a, b, k + 1);
      }
      if Precedes(a, b) {
        var k: nat :| PrecedesAt(a, b, k);
        if k > 0 {
          assert a[1..][..k - 1] == a[..k][1..] && b[1..][..k - 1] == b[..k][1..];
          assert PrecedesAt(a[1..], b[1..], k - 1);
        }
      }
    } else if b != "" {
      if a[0] < b[0] {
        assert PrecedesAt(a, b, 0);
      } else {
        forall k: nat ensures !PrecedesAt(a, b, k) {
          assert 0 < k <= |a| && k <= |b| ==> a[..k][0] == a[0] && b[..k][0] == b[0];
        }
      }
    }
  }

  /** The sort key (priority, id). */
  predicate KeyLe(a: Objective, b: Objective) {
    a.priority < b.priority || (a.priority == b.priority && StringLe(a.id, b.id))
  }

  /** x waits in the graph with every dependency among `done`. */
  ghost predicate Ready(g: Graph, done: set<Id>, x: Id) {
    x in g && x !in done && Elements(g[x].dependsOn) <= done
  }

  ghost predicate LeastReady(g: Graph, done: set<Id>, o: Objective) {
    && Ready(g, done, o.id) && g[o.id] == o
    && forall y :: Ready(g, done, y) ==> KeyLe(o, g[y])
  }

  ghost predicate GreedyAt(g: Graph, order: seq<Objective>, i: nat)
    requires i < |order|
  {
    LeastReady(g, Elements(Ids(order[..i])), order[i])
  }

  /** Each position holds the least (priority, id) among the objectives ready there. */
  ghost predicate GreedyPrefix(g: Graph, order: seq<Objective>) {
    forall i :: 0 <= i < |order| ==> GreedyAt(g, order, i)
  }

  ghost predicate Canonical(g: Graph, order: seq<Objective>) {
    Elements(Ids(order)) == g.Keys && GreedyPrefix(g, order)
  }

  lemma IdsPrefix(order: seq<Objective>, i: nat)
    requires i <= |order|
    ensures Ids(order[..i]) == Ids(order)[..i]
  {
  }

  lemma GreedyDistinct(g: Graph, order: seq<Objective>)
    requires GreedyPrefix(g, order)
    ensures Distinct(Ids(order)) && Elements(Ids(order)) <= g.Keys
  {
    forall i, j | 0 <= i < j < |order| ensures Ids(order)[i] != Ids(order)[j] {
      assert GreedyAt(g, order, j);
      assert Ids(order[..j])[i] == order[i].id;
    }
    forall x | x in Ids(order) ensures x in g {
      var i :| 0 <= i < |order| && Ids(order)[i] == x;
      assert GreedyAt(g, order, i);
    }
  }

  /** A canonical order lists every objective once and puts each dependency first. */
  lemma CanonicalIsTopological(g: Graph, order: seq<Objective>)
    requires Canonical(g, order)
    ensures Topological(g, Ids(order)) && Known(g) && Acyclic(g)
    ensures forall o :: o in order <==> o.id in g && g[o.id] == o
  {
    var ids := Ids(order);
    GreedyDistinct(g, order);
    forall i, d | 0 <= i < |ids| && d in g[ids[i]].dependsOn ensures d in ids[..i] {
      assert GreedyAt(g, order, i);
      IdsPrefix(order, i);
      assert d in Elements(g[ids[i]].dependsOn);
    }
    TopologicalIsAcyclic(g, ids);
    forall o ensures o in order <==> o.id in g && g[o.id] == o {
      if o in order {
        var i :| 0 <= i < |order| && order[i] == o;
        assert GreedyAt(g, order, i);
      } else if o.id in g {
        assert o.id in ids;
        var i :| 0 <= i < |ids| && ids[i] == o.id;
        assert GreedyAt(g, order, i);
      }
    }
  }

  /**
   What the greedy order means for two objectives: the one that comes later although it could have
   come already has a larger priority number, or the same and a later id.
   */
  lemma SmallerFirst(g: Graph, order: seq<Objective>, i: nat, j: nat)
    requires Canonical(g, order) && i < j < |order|
    requires forall d :: d in order[j].dependsOn ==> exists k :: 0 <= k < i && order[k].id == d
    ensures order[i].priority < order[j].priority
         || (order[i].priority == order[j].priority && Precedes(order[i].id, order[j].id))
  {
    CanonicalIsTopological(g, order);
    assert GreedyAt(g, order, i) && GreedyAt(g, order, j);
    var done := Elements(Ids(order[..i]));
    forall d | d in order[j].dependsOn ensures d in done {
      var k :| 0 <= k < i && order[k].id == d;
      assert Ids(order[..i])[k] == d;
    }
    IdsPrefix(order, i);
    assert order[j].id !in Ids(order)[..i];
    assert Ready(g, done, order[j].id);
    StringLeExactly(order[i].id, order[j].id);
  }

  lemma LeastReadyUnique(g: Graph, done: set<Id>, a: Objective, b: Objective)
    requires (forall x :: x in g ==> g[x].id == x) && LeastReady(g, done, a) && LeastReady(g, done, b)
    ensures a == b
  {
    assert KeyLe(a, g[b.id]) && KeyLe(b, g[a.id]);
    StringLeTotal(a.id, b.id);
  }

  lemma {:induction false} GreedyAgrees(g: Graph, a: seq<Objective>, b: seq<Objective>, n: nat)
    requires forall x :: x in g ==> g[x].id == x
    requires GreedyPrefix(g, a) && GreedyPrefix(g, b) && n <= |a| && n <= |b|
    ensures a[..n] == b[..n]
  {
    if n > 0 {
      GreedyAgrees(g, a, b, n - 1);
      var done := Elements(Ids(a[..n - 1]));
      assert GreedyAt(g, a, n - 1) && GreedyAt(g, b, n - 1);
      LeastReadyUnique(g, done, a[n - 1], b[n - 1]);
      assert a[..n] == a[..n - 1] + [a[n - 1]] && b[..n] == b[..n - 1] + [b[n - 1]];
    }
  }

  /** The graph alone determines the order: neither list order nor set iteration shows. */
  lemma CanonicalUnique(g: Graph, a: seq<Objective>, b: seq<Objective>)
    requires forall x :: x in g ==> g[x].id == x
    requires Canonical(g, a) && Canonical(g, b)
    ensures a == b
  {
    GreedyDistinct(g, a);
    GreedyDistinct(g, b);
    DistinctSize(Ids(a));
    DistinctSize(Ids(b));
    GreedyAgrees(g, a, b, |a|);
    assert a[..|a|] == a && b[..|b|] == b;
  }

  /** With distinct ids, the graph holds each objective of the list. */
  lemma {:induction false} ByIdDetermined(objectives: seq<Objective>)
    requires Distinct(Ids(objectives))
    ensures forall i :: 0 <= i < |objectives| ==> ById(objectives)[objectives[i].id] == objectives[i]
  {
    if objectives != [] {
      var last := |objectives| - 1;
      var init := objectives[..last];
      IdsPrefix(objectives, last);
      ByIdDetermined(init);
      forall i | 0 <= i < |objectives| ensures ById(objectives)[objectives[i].id] == objectives[i] {
        if i < last {
          assert Ids(objectives)[i] != Ids(objectives)[last];
          assert init[i] == objectives[i];
        }
      }
    }
  }

  /** Reordering a list of objectives with distinct ids builds the same graph. */
  lemma {:induction false} PermutationKeepsGraph(a: seq<Objective>, b: seq<Objective>)
    requires Distinct(Ids(a)) && Distinct(Ids(b)) && forall o :: o in a <==> o in b
    ensures ById(a) == ById(b)
  {
    hide ById, Distinct;
    ByIdDetermined(a);
    ByIdDetermined(b);
    forall x | x in ById(a) ensures x in ById(b) && ById(b)[x] == ById(a)[x] {
      var j :| 0 <= j < |b| && b[j] == ById(a)[x];
    }
    forall x | x in ById(b) ensures x in ById(a) {
      var j :| 0 <= j < |a| && a[j] == ById(b)[x];
    }
  }
}
