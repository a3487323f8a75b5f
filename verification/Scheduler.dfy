/** The dependency scheduler: validation by depth-first search, and selection of the next task. */
module Scheduler {
  import opened Options
  import opened Plans
  import opened Graphs

  // ---------------------------------------------------------------------
  // What validation decides

  function Dependencies(tasks: seq<PlanTask>): (g: Graph)
    requires DistinctIds(tasks)
    ensures g.Keys == Ids(tasks)
    ensures forall i | 0 <= i < |tasks| :: tasks[i].taskId in g && g[tasks[i].taskId] == tasks[i].dependencies
  {
    map t | t in tasks :: t.taskId := t.dependencies
  }

  ghost predicate Sound(g: Graph) {
    Closed(g) && NoSelfLoop(g) && Acyclic(g)
  }

  /** The error `validate` raises, if any. */
  ghost function Verdict(tasks: seq<PlanTask>): Option<Termination>
    requires DistinctIds(tasks)
  {
    var g := Dependencies(tasks);
    if !Closed(g) || !NoSelfLoop(g) then Some(InvalidDependency)
    else if !Acyclic(g) then Some(CyclicDependency)
    else None
  }

  /** The search state of `visit`: the two sets of the source, and with them the chain of
      tasks now being visited and a rank for every task done. */
  class DepthFirstSearch {
    const graph: Graph
    var visiting: set<string>
    var visited: set<string>
    ghost var path: seq<string>
    ghost var rank: map<string, nat>

    ghost predicate Valid()
      reads this
    {
      && Closed(graph)
      && visiting <= graph.Keys && visited <= graph.Keys && visiting !! visited
      && visiting == Members(path)
      && Walk(graph, path)
      && Ranked(graph, visited, rank)
    }

    constructor (g: Graph)
      requires Closed(g)
      ensures Valid() && graph == g && visiting == {} && visited == {} && path == []
    {
      graph := g;
      visiting, visited, path, rank := {}, {}, [], map[];
    }

    /** Returns whether a cycle was met. Each nested visit leaves fewer tasks unvisited. */
    method Visit(id: string) returns (cycle: bool)
      requires Valid() && id in graph
      requires path != [] ==> Edge(graph, path[|path| - 1], id)
      modifies this
      ensures cycle ==> HasCycle(graph)
      ensures !cycle ==> Valid() && path == old(path)
      ensures !cycle ==> id in visited && old(visited) <= visited
      decreases graph.Keys - visiting, 0
    {
      if id in visiting {
        CloseWalk(graph, path, id);
        return true;
      }
      if id in visited {
        return false;
      }
      Enter(id);
      cycle := VisitDependencies(id);
      if !cycle {
        assert path[..|path| - 1] == old(path);
        Leave(id);
      }
    }

    /** The loop of `visit` over the dependencies of the task just entered. */
    method VisitDependencies(id: string) returns (cycle: bool)
      requires Valid() && path != [] && path[|path| - 1] == id && id in graph
      modifies this
      ensures cycle ==> HasCycle(graph)
      ensures !cycle ==> Valid() && path == old(path) && old(visited) <= visited
      ensures !cycle ==> forall b | Edge(graph, id, b) :: b in visited
      decreases graph.Keys - visiting, 1
    {
      hide HasCycle;
      var dependencies := graph[id];
      for i := 0 to |dependencies|
        invariant Valid() && path == old(path) && old(visited) <= visited
        invariant Members(dependencies[..i]) <= visited
      {
        assert Edge(graph, id, dependencies[i]) && dependencies[..i + 1] == dependencies[..i] + [dependencies[i]];
        var met := Visit(dependencies[i]);
        if met {
          return true;
        }
      }
      assert dependencies[..|dependencies|] == dependencies;
      return false;
    }

    /** `visiting.add(task_id)`. */
    method Enter(id: string)
      requires Valid() && id in graph && id !in visiting && id !in visited
      requires path != [] ==> Edge(graph, path[|path| - 1], id)
      modifies this
      ensures Valid() && path == old(path) + [id] && visiting == old(visiting) + {id}
      ensures visited == old(visited) && rank == old(rank)
    {
      visiting, path := visiting + {id}, path + [id];
    }

    /** `visiting.remove(task_id); visited.add(task_id)`. */
    method Leave(id: string)
      requires Valid() && path != [] && path[|path| - 1] == id && id !in Members(path[..|path| - 1])
      requires forall b | Edge(graph, id, b) :: b in visited
      modifies this
      ensures Valid() && path == old(path)[..|old(path)| - 1]
      ensures visited == old(visited) + {id} && visiting == old(visiting) - {id}
    {
      assert path == path[..|path| - 1] + [id];
      assert id in visiting;
      visiting, visited, path, rank := visiting - {id}, visited + {id}, path[..|path| - 1], rank[id := |visited|];
    }
  }

  ghost function Members(s: seq<string>): set<string> {
    set x | x in s
  }

  /** Every task in `done` ranks above its dependencies, which are done too. */
  ghost predicate Ranked(g: Graph, done: set<string>, rank: map<string, nat>) {
    && rank.Keys == done
    && (forall a | a in done :: rank[a] < |done|)
    && (forall a, b | a in done && Edge(g, a, b) :: b in done && rank[b] < rank[a])
  }

  /** The chain of tasks being visited, closed by the task met again, is a cycle. */
  lemma CloseWalk(g: Graph, path: seq<string>, id: string)
    requires Walk(g, path) && id in path && Edge(g, path[|path| - 1], id)
    ensures HasCycle(g)
  {
    var j :| 0 <= j < |path| && path[j] == id;
    var w := path[j..] + [id];
    forall i | 0 <= i < |w| - 1 ensures Edge(g, w[i], w[i + 1]) {
      if i < |w| - 2 {
        assert Edge(g, path[j + i], path[j + i + 1]);
      }
    }
    assert Cycle(g, w);
  }

  /** The checks of `validate` on each task's own dependencies. */
  method CheckDependencies(tasks: seq<PlanTask>) returns (ok: bool)
    requires DistinctIds(tasks)
    ensures ok <==> Closed(Dependencies(tasks)) && NoSelfLoop(Dependencies(tasks))
  {
    var ids := Ids(tasks);
    ghost var g := Dependencies(tasks);
    for i := 0 to |tasks|
      invariant forall j | 0 <= j < i :: (forall d | d in tasks[j].dependencies :: d in ids && d != tasks[j].taskId)
    {
      var t := tasks[i];
      if exists d :: d in t.dependencies && d !in ids {
        ghost var d :| d in t.dependencies && d !in ids;
        assert Edge(g, t.taskId, d);
        return false;
      }
      if t.taskId in t.dependencies {
        assert Edge(g, t.taskId, t.taskId);
        return false;
      }
    }
    forall a, b | Edge(g, a, b) ensures b in g && a != b {
      var i :| 0 <= i < |tasks| && tasks[i].taskId == a;
      assert g[a] == tasks[i].dependencies;
    }
    return true;
  }

  /** `DependencyScheduler.validate`: it passes exactly the plans whose dependencies are known
      and can be ranked, and it reports a cycle only where there is one. */
  method Validate(tasks: seq<PlanTask>) returns (error: Option<Termination>)
    requires DistinctIds(tasks)
    ensures error.None? <==> Sound(Dependencies(tasks))
    ensures error == Some(InvalidDependency) <==>
            !(Closed(Dependencies(tasks)) && NoSelfLoop(Dependencies(tasks)))
    ensures error == Some(CyclicDependency) <==>
            Closed(Dependencies(tasks)) && NoSelfLoop(Dependencies(tasks)) && HasCycle(Dependencies(tasks))
    ensures error == Verdict(tasks)
  {
    var ok := CheckDependencies(tasks);
    if !ok {
      return Some(InvalidDependency);
    }
    var cycle := SearchForCycle(Dependencies(tasks), IdList(tasks));
    error := if cycle then Some(CyclicDependency) else None;
    if Acyclic(Dependencies(tasks)) {
      AcyclicHasNoCycle(Dependencies(tasks));
    }
  }

  /** The search of `validate` from every task, in the order of the dict. */
  method SearchForCycle(g: Graph, order: seq<string>) returns (cycle: bool)
    requires Closed(g) && g.Keys == Members(order)
    ensures cycle ==> HasCycle(g)
    ensures !cycle ==> Acyclic(g)
  {
    var search := new DepthFirstSearch(g);
    for i := 0 to |order|
      invariant search.Valid() && search.graph == g && search.path == []
      invariant Members(order[..i]) <= search.visited
    {
      assert order[i] in Members(order) && order[..i + 1] == order[..i] + [order[i]];
      var met := search.Visit(order[i]);
      if met {
        return true;
      }
    }
    assert order[..|order|] == order;
    assert Ranking(g, search.rank);
    return false;
  }

  function IdList(tasks: seq<PlanTask>): (ids: seq<string>)
    ensures |ids| == |tasks| && forall i | 0 <= i < |ids| :: ids[i] == tasks[i].taskId
    ensures Members(ids) == Ids(tasks)
  {
    var ids := seq(|tasks|, i requires 0 <= i < |tasks| => tasks[i].taskId);
    assert forall i | 0 <= i < |tasks| :: tasks[i].taskId == ids[i];
    ids
  }
}
