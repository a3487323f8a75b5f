/** Dependency graphs: each task id with the ids it depends on. */
module Graphs {

  type Graph = map<string, seq<string>>

  /** `a` depends on `b`. */
  ghost predicate Edge(g: Graph, a: string, b: string) {
    a in g && b in g[a]
  }

  ghost predicate Closed(g: Graph) {
    forall a, b | Edge(g, a, b) :: b in g
  }

  ghost predicate NoSelfLoop(g: Graph) {
    forall a | a in g :: !Edge(g, a, a)
  }

  /** Every task ranks above all its dependencies. */
  ghost predicate Ranking(g: Graph, rank: map<string, nat>) {
    && (forall a | a in g :: a in rank)
    && (forall a, b | Edge(g, a, b) :: a in rank && b in rank && rank[b] < rank[a])
  }

  ghost predicate Acyclic(g: Graph) {
    exists rank :: Ranking(g, rank)
  }

  ghost predicate Walk(g: Graph, w: seq<string>) {
    forall i | 0 <= i < |w| - 1 :: Edge(g, w[i], w[i + 1])
  }

  ghost predicate Cycle(g: Graph, w: seq<string>) {
    |w| >= 2 && w[0] == w[|w| - 1] && Walk(g, w)
  }

  ghost predicate HasCycle(g: Graph) {
    exists w :: Cycle(g, w)
  }

  /** Ranks fall strictly along a walk. */
  lemma {:induction false} WalkDescends(g: Graph, rank: map<string, nat>, w: seq<string>)
    requires Ranking(g, rank) && |w| >= 2 && Walk(g, w)
    ensures w[0] in rank && w[|w| - 1] in rank && rank[w[|w| - 1]] < rank[w[0]]
  {
    assert Edge(g, w[0], w[1]);
    if |w| > 2 {
      WalkDescends(g, rank, w[1..]);
    }
  }

  /** A ranked graph has no cycle. */
  lemma AcyclicHasNoCycle(g: Graph)
    requires Acyclic(g)
    ensures !HasCycle(g)
  {
    var rank :| Ranking(g, rank);
    forall w ensures !Cycle(g, w) {
      if |w| >= 2 && Walk(g, w) {
        WalkDescends(g, rank, w);
      }
    }
  }
}
