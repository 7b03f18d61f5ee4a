/** The greedy dependency-aware ordering (src/aotp/scheduler.py). */
module Scheduler {
  import opened Basics
  import opened Objectives

  datatype SchedulingError = CannotBeScheduled

  /** The objectives of `remaining` that are ready, gathered in whatever order the set yields. */
  method GatherReady(g: Graph, remaining: set<Id>, done: set<Id>) returns (ready: seq<Objective>)
    requires forall x :: x in g ==> g[x].id == x
    requires remaining == g.Keys - done
    ensures forall o :: o in ready <==> Ready(g, done, o.id) && g[o.id] == o
  {
    ready := [];
    var todo := remaining;
    while todo != {}
      invariant todo <= remaining
      invariant forall o :: o in ready <==> o.id in remaining - todo && Ready(g, done, o.id) && g[o.id] == o
    {
      var x :| x in todo;
      if Elements(g[x].dependsOn) <= done {
        ready := ready + [g[x]];
      }
      todo := todo - {x};
    }
  }

  /** The head of the list sorted by (priority, id). */
  method SortedHead(ready: seq<Objective>) returns (least: Objective)
    requires ready != []
    ensures least in ready && forall o :: o in ready ==> KeyLe(least, o)
  {
    least := ready[0];
    KeyLeReflexive(least);
    for i := 1 to |ready|
      invariant least in ready
      invariant forall o :: o in ready[..i] ==> KeyLe(least, o)
    {
      if !KeyLe(least, ready[i]) {
        KeyLeFacts(ready[..i], least, ready[i]);
        least := ready[i];
      }
      KeyLeReflexive(ready[i]);
    }
    assert ready[..|ready|] == ready;
  }

  lemma KeyLeReflexive(o: Objective)
    ensures KeyLe(o, o)
  {
    StringLeTotal(o.id, o.id);
  }

  lemma KeyLeFacts(seen: seq<Objective>, old': Objective, new': Objective)
    requires !KeyLe(old', new') && forall o :: o in seen ==> KeyLe(old', o)
    ensures forall o :: o in seen ==> KeyLe(new', o)
  {
    StringLeTotal(old'.id, new'.id);
    forall o | o in seen ensures KeyLe(new', o) {
      if new'.priority == old'.priority == o.priority {
        StringLeTransitive(new'.id, old'.id, o.id);
      }
    }
  }

  /**
   Succeeds exactly on the acyclic graphs with known dependencies, and then returns the one
   canonical order, whatever order the ready set was iterated in.
   */
  method Schedule(objectives: seq<Objective>) returns (r: Result<seq<Objective>, SchedulingError>)
    ensures r.Ok? <==> Known(ById(objectives)) && Acyclic(ById(objectives))
    ensures r.Ok? ==> Canonical(ById(objectives), r.value)
  {
    var g := ById(objectives);
    var remaining := g.Keys;
    var completed: set<Id> := {};
    var ordered: seq<Objective> := [];
    while remaining != {}
      invariant remaining == g.Keys - completed && completed <= g.Keys
      invariant completed == Elements(Ids(ordered))
      invariant GreedyPrefix(g, ordered)
    {
      var ready := GatherReady(g, remaining, completed);
      if ready == [] {
        assert forall x :: Ready(g, completed, x) ==> g[x] in ready;
        assert !(Known(g) && Acyclic(g)) by {
          if Known(g) && Acyclic(g) {
            SomethingReady(g, completed);
          }
        }
        return Err(CannotBeScheduled);
      }
      var selected := SortedHead(ready);
      GreedyExtends(g, ordered, selected);
      ordered := ordered + [selected];
      remaining := remaining - {selected.id};
      completed := completed + {selected.id};
    }
    CanonicalIsTopological(g, ordered);
    r := Ok(ordered);
  }

  /** While anything remains of an acyclic graph, something is ready. */
  lemma SomethingReady(g: Graph, done: set<Id>)
    requires Known(g) && Acyclic(g) && done < g.Keys
    ensures exists x :: Ready(g, done, x)
  {
    var w :| w in g.Keys && w !in done;
    assert w in g.Keys - done;
    var x := AcyclicHasSource(g, g.Keys - done);
    assert forall d :: d in g[x].dependsOn ==> Edge(g, x, d);
    assert Ready(g, done, x);
  }

  lemma GreedyExtends(g: Graph, order: seq<Objective>, o: Objective)
    requires GreedyPrefix(g, order) && LeastReady(g, Elements(Ids(order)), o)
    ensures GreedyPrefix(g, order + [o])
    ensures Elements(Ids(order + [o])) == Elements(Ids(order)) + {o.id}
  {
    var longer := order + [o];
    forall i | 0 <= i < |longer| ensures GreedyAt(g, longer, i) {
      assert longer[..i] == order[..i];
      if i < |order| {
        assert GreedyAt(g, order, i);
      } else {
        assert order[..i] == order;
      }
    }
    assert Ids(longer) == Ids(order) + [o.id];
  }

  /** Any reordering of a list with distinct ids is scheduled alike. */
  lemma {:induction false} ScheduleIgnoresListOrder(a: seq<Objective>, b: seq<Objective>, ra: seq<Objective>,
                                                    rb: seq<Objective>)
    requires Distinct(Ids(a)) && Distinct(Ids(b)) && forall o :: o in a <==> o in b
    requires Canonical(ById(a), ra) && Canonical(ById(b), rb)
    ensures ra == rb
  {
    PermutationKeepsGraph(a, b);
    CanonicalUnique(ById(a), ra, rb);
  }
}
