/** Directed graphs over task indices, as the planner builds them. */
module Graph {
  type Edges = map<nat, seq<nat>>

  /** edges.get(u, []) */
  function Succ(edges: Edges, u: nat): seq<nat> {
    if u in edges then edges[u] else []
  }

  predicate InRange(edges: Edges, n: nat) {
    forall u, v :: u in edges && v in edges[u] ==> u < n && v < n
  }

  ghost predicate IsWalk(edges: Edges, p: seq<nat>) {
    forall i :: 0 <= i < |p| - 1 ==> p[i + 1] in Succ(edges, p[i])
  }

  /** A walk of at least one edge that ends where it starts. */
  ghost predicate IsCycle(edges: Edges, p: seq<nat>) {
    |p| >= 2 && IsWalk(edges, p) && p[0] == p[|p| - 1]
  }

  ghost predicate HasDirectedCycle(edges: Edges) {
    exists p :: IsCycle(edges, p)
  }

  predicate NoDuplicates(s: seq<nat>) {
    forall i, j :: 0 <= i < j < |s| ==> s[i] != s[j]
  }

  /** Every successor of a listed node is listed before it. */
  predicate Ordered(edges: Edges, order: seq<nat>) {
    forall i, v :: 0 <= i < |order| && v in Succ(edges, order[i]) ==> v in order[..i]
  }

  /** `order` lists the nodes below n once each, dependencies first. */
  ghost predicate IsTopological(edges: Edges, n: nat, order: seq<nat>) {
    NoDuplicates(order) && Ordered(edges, order) && (forall u: nat :: u in order <==> u < n)
  }

  function IndexOf(s: seq<nat>, x: nat): (i: nat)
    requires x in s
    ensures i < |s| && s[i] == x
  {
    if s[0] == x then 0 else 1 + IndexOf(s[1..], x)
  }

  lemma EdgeGoesBack(edges: Edges, order: seq<nat>, u: nat, v: nat)
    requires NoDuplicates(order) && Ordered(edges, order) && u in order && v in Succ(edges, u)
    ensures v in order && IndexOf(order, v) < IndexOf(order, u)
  {
    var i := IndexOf(order, u);
    assert v in order[..i];
    var j :| 0 <= j < i && order[j] == v;
    assert IndexOf(order, v) == j;
  }

  lemma {:induction false} WalkGoesBack(edges: Edges, order: seq<nat>, p: seq<nat>, k: nat)
    requires NoDuplicates(order) && Ordered(edges, order) && IsWalk(edges, p) && 1 <= k < |p| && p[0] in order
    ensures p[k] in order && IndexOf(order, p[k]) < IndexOf(order, p[0])
  {
    if k > 1 { WalkGoesBack(edges, order, p, k - 1); }
    EdgeGoesBack(edges, order, p[k - 1], p[k]);
  }

  /** A topological order rules out every directed cycle. */
  lemma TopologicalMeansAcyclic(edges: Edges, n: nat, order: seq<nat>)
    requires InRange(edges, n) && IsTopological(edges, n, order)
    ensures !HasDirectedCycle(edges)
  {
    if HasDirectedCycle(edges) {
      var p :| IsCycle(edges, p);
      assert p[1] in Succ(edges, p[0]);
      assert p[0] in order;
      WalkGoesBack(edges, order, p, |p| - 1);
    }
  }
}
