/** The objective-graph check of parse_campaign (src/aotp/campaign.py). */
module CampaignGraph {
  import opened Basics
  import opened Objectives

  datatype GraphError =
    | UnknownDependency(objective: Id)
    | SelfDependency(objective: Id)
    | DependencyCycle(through: Id)

  ghost predicate DependenciesFirst(g: Graph, finished: seq<Id>) {
    forall i, d :: 0 <= i < |finished| && finished[i] in g && d in g[finished[i]].dependsOn ==> d in finished[..i]
  }

  ghost predicate Progress(g: Graph, stack: seq<Id>, visiting: set<Id>, visited: set<Id>, finished: seq<Id>) {
    && visiting == Elements(stack) && visiting <= g.Keys
    && visited == Elements(finished) && visited <= g.Keys
    && visiting !! visited && Distinct(finished) && DependenciesFirst(g, finished)
  }

  lemma ProgressOpens(g: Graph, stack: seq<Id>, visiting: set<Id>, visited: set<Id>, finished: seq<Id>, x: Id)
    requires Progress(g, stack, visiting, visited, finished) && x in g && x !in visited
    ensures Progress(g, stack + [x], visiting + {x}, visited, finished)
  {
  }

  lemma ProgressCloses(g: Graph, stack: seq<Id>, visiting: set<Id>, visited: set<Id>, finished: seq<Id>, x: Id)
    requires Progress(g, stack + [x], visiting, visited, finished)
    requires x in g && x !in stack && Elements(g[x].dependsOn) <= visited
    ensures Progress(g, stack, visiting - {x}, visited + {x}, finished + [x])
  {
    var longer := finished + [x];
    forall i, d | 0 <= i < |longer| && longer[i] in g && d in g[longer[i]].dependsOn ensures d in longer[..i] {
      if i < |finished| {
        assert longer[..i] == finished[..i];
      } else {
        assert d in Elements(g[x].dependsOn) && longer[..i] == finished;
      }
    }
  }

  /** The two sets the nested `visit` closes over, with the order in which nodes were finished. */
  class DependencyWalk {
    const g: Graph
    var visiting: set<Id>
    var visited: set<Id>
    ghost var finished: seq<Id>

    constructor (g: Graph)
      requires Known(g)
      ensures this.g == g && Valid([]) && visited == {}
    {
      this.g := g;
      visiting, visited, finished := {}, {}, [];
    }

    /** `stack` is the chain of open calls: a path whose nodes are being visited. */
    ghost predicate Valid(stack: seq<Id>)
      reads this
    {
      Known(g) && Path(g, stack) && Progress(g, stack, visiting, visited, finished)
    }

    /** Some is the source's raise, with the node met again: it and the open calls after it form a cycle. */
    method Visit(objective: Id, ghost stack: seq<Id>) returns (raised: Option<Id>)
      requires Valid(stack) && objective in g
      requires stack != [] ==> Edge(g, stack[|stack| - 1], objective)
      modifies this
      ensures raised.None? ==> Valid(stack) && visiting == old(visiting)
      ensures raised.None? ==> old(visited) <= visited && objective in visited
      ensures raised.Some? ==> OnCycle(g, raised.value)
      decreases g.Keys - visiting, 1
    {
      hide Path, Cycle, Known, DependenciesFirst, Edge, Distinct, OnCycle;
      if objective in visiting {
        ghost var i :| 0 <= i < |stack| && stack[i] == objective;
        ClosesCycle(g, stack, i);
        return Some(objective);
      }
      if objective in visited {
        return None;
      }
      ghost var open := stack + [objective];
      visiting := visiting + {objective};
      PathExtends(g, stack, objective);
      ProgressOpens(g, stack, old(visiting), visited, finished, objective);
      raised := VisitAll(objective, open);
      if raised.Some? {
        return;
      }
      ProgressCloses(g, stack, visiting, visited, finished, objective);
      visiting := visiting - {objective};
      visited := visited + {objective};
      finished := finished + [objective];
    }

    /** The loop over one objective's dependencies. */
    method VisitAll(objective: Id, ghost open: seq<Id>) returns (raised: Option<Id>)
      requires Valid(open) && open != [] && open[|open| - 1] == objective && objective in g
      modifies this
      ensures raised.None? ==> Valid(open) && visiting == old(visiting)
      ensures raised.None? ==> old(visited) <= visited && Elements(g[objective].dependsOn) <= visited
      ensures raised.Some? ==> OnCycle(g, raised.value)
      decreases g.Keys - visiting, 2
    {
      hide Path, Cycle, DependenciesFirst, Distinct, OnCycle;
      var deps := g[objective].dependsOn;
      for i := 0 to |deps|
        invariant Valid(open) && visiting == old(visiting) && old(visited) <= visited
        invariant forall j :: 0 <= j < i ==> deps[j] in visited
      {
        assert Edge(g, objective, deps[i]);
        raised := Visit(deps[i], open);
        if raised.Some? {
          return;
        }
      }
      raised := None;
    }
  }

  /** Some chain of dependencies leads from x back to x. */
  ghost predicate OnCycle(g: Graph, x: Id) {
    exists p :: Cycle(g, p) && p[0] == x
  }

  lemma ClosesCycle(g: Graph, stack: seq<Id>, i: nat)
    requires Path(g, stack) && i < |stack| && Edge(g, stack[|stack| - 1], stack[i])
    ensures OnCycle(g, stack[i])
  {
    SubpathIsPath(g, stack, i, |stack|);
    PathExtends(g, stack[i..], stack[i]);
    assert Cycle(g, stack[i..] + [stack[i]]);
  }

  lemma PathExtends(g: Graph, p: seq<Id>, x: Id)
    requires Path(g, p) && (p != [] ==> Edge(g, p[|p| - 1], x))
    ensures Path(g, p + [x])
  {
    var q := p + [x];
    forall i | 0 <= i < |q| - 1 ensures Edge(g, q[i], q[i + 1]) {
      if i < |p| - 1 {
        assert Edge(g, p[i], p[i + 1]);
      }
    }
  }

  /** A walk that ends with every node finished leaves a topological order behind. */
  lemma FinishedWalk(g: Graph, visiting: set<Id>, visited: set<Id>, finished: seq<Id>)
    requires Known(g) && Progress(g, [], visiting, visited, finished) && g.Keys <= visited
    ensures Acyclic(g)
  {
    assert Topological(g, finished);
    TopologicalIsAcyclic(g, finished);
  }

  /** What each raise says of the objective it names. */
  ghost predicate Blamed(g: Graph, e: GraphError) {
    match e
    case UnknownDependency(x) => exists d :: Edge(g, x, d) && d !in g
    case SelfDependency(x) => Edge(g, x, x)
    case DependencyCycle(x) => OnCycle(g, x)
  }

  /**
   Accepts exactly the graphs whose dependencies are known and which have no cycle; a raise names
   an objective with an unknown dependency, one that depends on itself, or one on a cycle.
   */
  method ValidateDependencyGraph(objectives: seq<Objective>) returns (r: Result<(), GraphError>)
    requires Distinct(Ids(objectives))
    ensures r.Ok? <==> Known(ById(objectives)) && Acyclic(ById(objectives))
    ensures r.Err? ==> Blamed(ById(objectives), r.error)
  {
    hide Path, Cycle, DependenciesFirst, Distinct, ById, Blamed, OnCycle;
    var g := ById(objectives);
    var bad := CheckEdges(objectives);
    if bad.Some? {
      BlameRules(g, bad.value);
      return Err(bad.value);
    }
    var walk := new DependencyWalk(g);
    for i := 0 to |objectives|
      invariant walk.g == g && walk.Valid([])
      invariant forall j :: 0 <= j < i ==> objectives[j].id in walk.visited
    {
      var raised := walk.Visit(objectives[i].id, []);
      if raised.Some? {
        CycleBlamed(g, raised.value);
        BlameRules(g, DependencyCycle(raised.value));
        return Err(DependencyCycle(raised.value));
      }
    }
    FinishedWalk(g, walk.visiting, walk.visited, walk.finished);
    r := Ok(());
  }

  lemma CycleBlamed(g: Graph, x: Id)
    requires OnCycle(g, x)
    ensures Blamed(g, DependencyCycle(x))
  {
  }

  /** Whatever is blamed, the graph is not acyclic with known dependencies. */
  lemma BlameRules(g: Graph, e: GraphError)
    requires Blamed(g, e)
    ensures !(Known(g) && Acyclic(g))
  {
    match e
    case UnknownDependency(x) =>
    case SelfDependency(x) => assert Cycle(g, [x, x]);
    case DependencyCycle(x) =>
  }

  /** The first loop: unknown dependencies and self-dependencies. */
  method CheckEdges(objectives: seq<Objective>) returns (bad: Option<GraphError>)
    requires Distinct(Ids(objectives))
    ensures bad.None? ==> Known(ById(objectives))
    ensures bad.Some? ==> !bad.value.DependencyCycle? && Blamed(ById(objectives), bad.value)
  {
    hide Path, Cycle, Edge, ById;
    var g := ById(objectives);
    ByIdDetermined(objectives);
    for i := 0 to |objectives|
      invariant forall j :: 0 <= j < i ==> Elements(objectives[j].dependsOn) <= g.Keys
    {
      var o := objectives[i];
      assert g[o.id] == o;
      if !(Elements(o.dependsOn) <= g.Keys) {
        var d :| d in o.dependsOn && d !in g;
        IsEdge(g, o.id, d);
        return Some(UnknownDependency(o.id));
      }
      if o.id in o.dependsOn {
        IsEdge(g, o.id, o.id);
        return Some(SelfDependency(o.id));
      }
    }
    EdgesKnown(objectives);
    bad := None;
  }

  lemma IsEdge(g: Graph, x: Id, d: Id)
    requires x in g && d in g[x].dependsOn
    ensures Edge(g, x, d)
  {
  }

  lemma EdgesKnown(objectives: seq<Objective>)
    requires forall o :: o in objectives ==> Elements(o.dependsOn) <= ById(objectives).Keys
    ensures Known(ById(objectives))
  {
    var g := ById(objectives);
    forall x, d | x in g && d in g[x].dependsOn ensures d in g {
      assert d in Elements(g[x].dependsOn);
    }
  }
}
