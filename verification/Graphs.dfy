/** Dependency graphs: paths, cycles and topological orders. */
module Graphs {
  type Node = string

  /** Each node with the nodes it depends on. */
  type Graph = map<Node, seq<Node>>

  ghost predicate Closed(g: Graph) {
    forall n, d :: n in g && d in g[n] ==> d in g
  }

  predicate Edge(g: Graph, a: Node, b: Node) {
    a in g && b in g[a]
  }

  ghost predicate Path(g: Graph, p: seq<Node>) {
    p != [] && forall i :: 0 <= i < |p| - 1 ==> Edge(g, p[i], p[i + 1])
  }

  ghost predicate Cycle(g: Graph, p: seq<Node>) {
    Path(g, p) && |p| > 1 && p[0] == p[|p| - 1]
  }

  ghost predicate Acyclic(g: Graph) {
    forall p :: !Cycle(g, p)
  }

  ghost predicate NoRepeats<T>(s: seq<T>) {
    forall i, j :: 0 <= i < j < |s| ==> s[i] != s[j]
  }

  /** Every node of the order comes after the nodes it depends on. */
  ghost predicate Sorted(g: Graph, order: seq<Node>) {
    && NoRepeats(order)
    && (forall i :: 0 <= i < |order| ==> order[i] in g)
    && (forall i, d :: 0 <= i < |order| && d in g[order[i]] ==> d in order[..i])
  }

  ghost predicate Topological(g: Graph, order: seq<Node>) {
    Sorted(g, order) && forall n :: n in g ==> n in order
  }

  lemma SortedExtends(g: Graph, order: seq<Node>, n: Node)
    requires Sorted(g, order) && n in g && n !in order && forall d :: d in g[n] ==> d in order
    ensures Sorted(g, order + [n])
  {
    var longer := order + [n];
    forall i, d | 0 <= i < |longer| && d in g[longer[i]]
      ensures d in longer[..i]
    {
      if i < |order| {
        assert longer[..i] == order[..i];
      } else {
        assert longer[..i] == order;
      }
    }
  }

  /** Following a path strictly descends a topological order. */
  lemma {:induction false} PathDescends(g: Graph, order: seq<Node>, p: seq<Node>, i: nat)
    requires Topological(g, order) && Path(g, p) && i < |order| && p[0] == order[i]
    ensures p[|p| - 1] in order[..i + 1]
    ensures |p| > 1 ==> p[|p| - 1] in order[..i]
    decreases |p|
  {
    if |p| == 1 {
      assert order[..i + 1][i] == p[0];
    } else {
      assert Edge(g, p[0], p[1]);
      var j :| 0 <= j < i && order[..i][j] == p[1];
      var rest := p[1..];
      forall k | 0 <= k < |rest| - 1
        ensures Edge(g, rest[k], rest[k + 1])
      {
        assert Edge(g, p[k + 1], p[k + 1 + 1]);
      }
      PathDescends(g, order, rest, j);
      var k :| 0 <= k < j + 1 && order[..j + 1][k] == p[|p| - 1];
      assert order[..i][k] == order[k] && order[..i + 1][k] == order[k];
    }
  }

  lemma TopologicalIsAcyclic(g: Graph, order: seq<Node>)
    requires Topological(g, order)
    ensures Acyclic(g)
  {
    forall p
      ensures !Cycle(g, p)
    {
      if Cycle(g, p) {
        assert Edge(g, p[0], p[1]);
        var i :| 0 <= i < |order| && order[i] == p[0];
        PathDescends(g, order, p, i);
      }
    }
  }

  // ---------- Renaming ----------

  /** `m.get(n, n)`. */
  function Renamed(m: map<Node, Node>, n: Node): Node {
    if n in m then m[n] else n
  }

  function RenameAll(m: map<Node, Node>, s: seq<Node>): (r: seq<Node>)
    ensures |r| == |s| && forall i :: 0 <= i < |s| ==> r[i] == Renamed(m, s[i])
  {
    seq(|s|, i requires 0 <= i < |s| => Renamed(m, s[i]))
  }

  ghost predicate InjectiveOn(m: map<Node, Node>, ids: set<Node>) {
    forall a, b :: a in ids && b in ids && Renamed(m, a) == Renamed(m, b) ==> a == b
  }

  /** `h` is `g` under the renaming. */
  ghost predicate RenamedGraph(m: map<Node, Node>, g: Graph, h: Graph) {
    && (forall x :: x in h ==> exists n :: n in g && Renamed(m, n) == x)
    && (forall n :: n in g ==> Renamed(m, n) in h && h[Renamed(m, n)] == RenameAll(m, g[n]))
  }

  lemma RenamedDependency(m: map<Node, Node>, g: Graph, order: seq<Node>, h: Graph, i: nat, d: Node)
    requires Sorted(g, order) && RenamedGraph(m, g, h) && i < |order|
    requires d in h[Renamed(m, order[i])]
    ensures d in RenameAll(m, order)[..i]
  {
    var deps := g[order[i]];
    var k :| 0 <= k < |deps| && d == RenameAll(m, deps)[k];
    hide RenamedGraph;
    assert deps[k] in order[..i];
    var j :| 0 <= j < i && order[..i][j] == deps[k];
    assert RenameAll(m, order)[..i][j] == d;
  }

  /** A renaming takes topological orders to topological orders. */
  lemma RenamedTopological(m: map<Node, Node>, g: Graph, order: seq<Node>, h: Graph)
    requires Topological(g, order) && InjectiveOn(m, g.Keys) && RenamedGraph(m, g, h)
    ensures Topological(h, RenameAll(m, order))
  {
    var order' := RenameAll(m, order);
    assert NoRepeats(order');
    forall i | 0 <= i < |order'|
      ensures order'[i] in h
    {
      assert order'[i] == Renamed(m, order[i]);
    }
    forall i, d | 0 <= i < |order'| && d in h[order'[i]]
      ensures d in order'[..i]
    {
      RenamedDependency(m, g, order, h, i, d);
    }
    forall x | x in h
      ensures x in order'
    {
      var n :| n in g && Renamed(m, n) == x;
      assert n in order;
    }
  }
}
