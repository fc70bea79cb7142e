/** Equality classes of identity nodes: a parent map with path halving, one union per equality edge. */
module IdentityClasses {

  datatype Edge = Edge(left: string, right: string)

  /** The two nodes are joined by one of the edges, in either direction. */
  predicate Joined(edges: seq<Edge>, a: string, b: string)
  {
    Edge(a, b) in edges || Edge(b, a) in edges
  }

  predicate IsWalk(edges: seq<Edge>, p: seq<string>)
  {
    forall k :: 0 <= k < |p| - 1 ==> Joined(edges, p[k], p[k + 1])
  }

  /** The equivalence the edges generate. */
  ghost predicate Connected(edges: seq<Edge>, a: string, b: string)
  {
    exists p :: IsWalk(edges, p) && |p| >= 1 && p[0] == a && p[|p| - 1] == b
  }

  /** Two nodes have one representative exactly when the edges connect them. */
  ghost predicate Represents(root: map<string, string>, edges: seq<Edge>)
  {
    forall a, b {:trigger Connected(edges, a, b)} ::
      a in root && b in root ==> (root[a] == root[b] <==> Connected(edges, a, b))
  }

  predicate Inside(edges: seq<Edge>, nodes: set<string>)
  {
    forall e :: e in edges ==> e.left in nodes && e.right in nodes
  }

  // ---------------------------------------------------------------- one more edge

  lemma ConnectedByWalk(edges: seq<Edge>, p: seq<string>)
    requires IsWalk(edges, p) && |p| >= 1
    ensures Connected(edges, p[0], p[|p| - 1])
  {
  }

  lemma MoreEdges(edges: seq<Edge>, e: Edge, a: string, b: string)
    requires Connected(edges, a, b)
    ensures Connected(edges + [e], a, b)
  {
    var p :| IsWalk(edges, p) && |p| >= 1 && p[0] == a && p[|p| - 1] == b;
    assert IsWalk(edges + [e], p) by {
      forall k | 0 <= k < |p| - 1 ensures Joined(edges + [e], p[k], p[k + 1]) { assert Joined(edges, p[k], p[k + 1]); }
    }
  }

  lemma ConnectedJoin(edges: seq<Edge>, a: string, b: string, c: string, d: string)
    requires Connected(edges, a, b) && Joined(edges, b, c) && Connected(edges, c, d)
    ensures Connected(edges, a, d)
  {
    var p :| IsWalk(edges, p) && |p| >= 1 && p[0] == a && p[|p| - 1] == b;
    var q :| IsWalk(edges, q) && |q| >= 1 && q[0] == c && q[|q| - 1] == d;
    var w := p + q;
    assert IsWalk(edges, w) by {
      forall k | 0 <= k < |w| - 1 ensures Joined(edges, w[k], w[k + 1]) {
        if k < |p| - 1 { assert Joined(edges, p[k], p[k + 1]); }
        else if k >= |p| { assert Joined(edges, q[k - |p|], q[k - |p| + 1]); }
      }
    }
    ConnectedByWalk(edges, w);
  }

  /** The representatives after the class of `e.right` joined the class of `e.left`. */
  ghost function Merged(root: map<string, string>, e: Edge): (m: map<string, string>)
    requires e.left in root && e.right in root
    ensures m.Keys == root.Keys
  {
    map x | x in root :: if root[x] == root[e.right] then root[e.left] else root[x]
  }

  lemma {:induction false} WalkStaysInClass(root: map<string, string>, edges: seq<Edge>, e: Edge, p: seq<string>)
    requires Represents(root, edges) && Inside(edges + [e], root.Keys) && IsWalk(edges + [e], p) && |p| >= 1
    requires p[0] in root
    ensures p[|p| - 1] in root && Merged(root, e)[p[|p| - 1]] == Merged(root, e)[p[0]]
    decreases |p|
  {
    if |p| >= 2 {
      var n := |p| - 1;
      var q := p[..n];
      assert IsWalk(edges + [e], q) by {
        forall k | 0 <= k < |q| - 1 ensures Joined(edges + [e], q[k], q[k + 1]) {
          assert Joined(edges + [e], p[k], p[k + 1]);
        }
      }
      WalkStaysInClass(root, edges, e, q);
      assert Joined(edges + [e], p[n - 1], p[n - 1 + 1]);
      if Joined(edges, p[n - 1], p[n]) {
        assert IsWalk(edges, [p[n - 1], p[n]]);
        ConnectedByWalk(edges, [p[n - 1], p[n]]);
      }
    }
  }

  lemma Reflexive(edges: seq<Edge>, a: string)
    ensures Connected(edges, a, a)
  {
    ConnectedByWalk(edges, [a]);
  }

  /** Merging two classes is what one more edge does to the equivalence. */
  lemma MergeRepresents(root: map<string, string>, edges: seq<Edge>, e: Edge)
    requires Represents(root, edges) && Inside(edges + [e], root.Keys) && e.left in root && e.right in root
    ensures Represents(Merged(root, e), edges + [e])
  {
    var merged := Merged(root, e);
    forall a, b | a in merged && b in merged ensures merged[a] == merged[b] <==> Connected(edges + [e], a, b) {
      if Connected(edges + [e], a, b) {
        var p :| IsWalk(edges + [e], p) && |p| >= 1 && p[0] == a && p[|p| - 1] == b;
        WalkStaysInClass(root, edges, e, p);
      }
      if merged[a] == merged[b] { MergedConnected(root, edges, e, a, b); }
    }
  }

  lemma MergedConnected(root: map<string, string>, edges: seq<Edge>, e: Edge, a: string, b: string)
    requires Represents(root, edges) && e.left in root && e.right in root && a in root && b in root
    requires Merged(root, e)[a] == Merged(root, e)[b]
    ensures Connected(edges + [e], a, b)
  {
    var all := edges + [e];
    assert e in all;
    if root[a] == root[b] {
      MoreEdges(edges, e, a, b);
    } else if root[a] == root[e.right] {
      MoreEdges(edges, e, a, e.right);
      MoreEdges(edges, e, e.left, b);
      ConnectedJoin(all, a, e.right, e.left, b);
    } else {
      MoreEdges(edges, e, a, e.left);
      MoreEdges(edges, e, e.right, b);
      ConnectedJoin(all, a, e.left, e.right, b);
    }
  }

  /** Edges within domains never connect two domains. */
  lemma {:induction false} OneDomain(edges: seq<Edge>, domain: map<string, string>, p: seq<string>)
    requires Inside(edges, domain.Keys) && (forall e :: e in edges ==> domain[e.left] == domain[e.right])
    requires IsWalk(edges, p) && |p| >= 1 && p[0] in domain
    ensures p[|p| - 1] in domain && domain[p[|p| - 1]] == domain[p[0]]
    decreases |p|
  {
    if |p| >= 2 {
      var q := p[..|p| - 1];
      assert IsWalk(edges, q) by {
        forall k | 0 <= k < |q| - 1 ensures Joined(edges, q[k], q[k + 1]) { assert Joined(edges, p[k], p[k + 1]); }
      }
      OneDomain(edges, domain, q);
      assert Joined(edges, p[|p| - 2], p[|p| - 2 + 1]);
    }
  }

  // ---------------------------------------------------------------- the parent map

  /** The node's parent is nearer to its representative, and higher; a node without one represents itself. */
  ghost predicate Climbs(
    nodes: set<string>, parent: map<string, string>, root: map<string, string>, height: map<string, nat>, x: string)
  {
    && x in parent && x in root && x in height && parent[x] in nodes && root[x] in nodes
    && parent[x] in root && parent[x] in height && root[parent[x]] == root[x]
    && root[x] in parent && parent[root[x]] == root[x]
    && (parent[x] == x ==> root[x] == x) && (parent[x] != x ==> height[x] < height[parent[x]])
  }

  ghost predicate Forest(nodes: set<string>, parent: map<string, string>, root: map<string, string>,
                         height: map<string, nat>)
  {
    forall x {:trigger Climbs(nodes, parent, root, height, x)} :: x in nodes ==> Climbs(nodes, parent, root, height, x)
  }

  /** Pointing a node at its grandparent keeps the forest. */
  lemma Halved(nodes: set<string>, parent: map<string, string>, root: map<string, string>, height: map<string, nat>,
               x: string)
    requires Forest(nodes, parent, root, height) && x in nodes && x in parent && parent[x] in parent
    ensures Forest(nodes, parent[x := parent[parent[x]]], root, height)
  {
    assert Climbs(nodes, parent, root, height, x) && Climbs(nodes, parent, root, height, parent[x]);
    assert Climbs(nodes, parent, root, height, parent[parent[x]]);
    forall y | y in nodes ensures Climbs(nodes, parent[x := parent[parent[x]]], root, height, y) {
      assert Climbs(nodes, parent, root, height, y);
    }
  }

  ghost function Lifted(root: map<string, string>, height: map<string, nat>, top: string, lift: nat)
    : (m: map<string, nat>)
    ensures m.Keys == height.Keys
  {
    map x | x in height :: if x in root && root[x] == top then height[x] + lift else height[x]
  }

  /** Hanging one representative below another, whose whole class is lifted above it, keeps the forest. */
  lemma Hung(
    nodes: set<string>, parent: map<string, string>, root: map<string, string>, height: map<string, nat>, e: Edge,
    l: string, r: string, lift: nat)
    requires Forest(nodes, parent, root, height) && e.left in nodes && e.right in nodes
    requires e.left in root && e.right in root && l == root[e.left] && r == root[e.right] && l != r
    requires r in height && lift == height[r] + 1
    ensures Forest(nodes, parent[r := l], Merged(root, e), Lifted(root, height, l, lift))
  {
    forall y | y in nodes ensures Climbs(nodes, parent[r := l], Merged(root, e), Lifted(root, height, l, lift), y) {
      assert Climbs(nodes, parent, root, height, y);
      HungNode(nodes, parent, root, height, e, l, r, lift, y);
    }
  }

  lemma HungNode(
    nodes: set<string>, parent: map<string, string>, root: map<string, string>, height: map<string, nat>, e: Edge,
    l: string, r: string, lift: nat, y: string)
    requires Forest(nodes, parent, root, height) && e.left in nodes && e.right in nodes && y in nodes
    requires e.left in root && e.right in root && l == root[e.left] && r == root[e.right] && l != r
    requires r in height && lift == height[r] + 1
    ensures Climbs(nodes, parent[r := l], Merged(root, e), Lifted(root, height, l, lift), y)
  {
    assert Climbs(nodes, parent, root, height, e.left) && Climbs(nodes, parent, root, height, e.right);
    assert Climbs(nodes, parent, root, height, l) && Climbs(nodes, parent, root, height, r);
    assert Climbs(nodes, parent, root, height, y);
    assert Climbs(nodes, parent, root, height, parent[y]);
  }

  class Classes {
    const domain: map<string, string>
    var parent: map<string, string>
    ghost var root: map<string, string>
    ghost var height: map<string, nat>
    ghost var bound: nat
    ghost var edges: seq<Edge>

    ghost predicate Valid()
      reads this
    {
      && parent.Keys == domain.Keys && root.Keys == domain.Keys && height.Keys == domain.Keys
      && Forest(domain.Keys, parent, root, height) && (forall x :: x in height ==> height[x] < bound)
      && Inside(edges, domain.Keys) && Represents(root, edges)
    }

    /** Every node starts in a class of its own. */
    constructor (domain: map<string, string>)
      ensures Valid() && this.domain == domain && edges == []
    {
      this.domain := domain;
      parent := map x | x in domain :: x;
      root := map x | x in domain :: x;
      height := map x | x in domain :: 0;
      bound, edges := 1, [];
      new;
      forall a, b | a in root && b in root ensures root[a] == root[b] <==> Connected([], a, b) {
        if Connected([], a, b) {
          var p :| IsWalk([], p) && |p| >= 1 && p[0] == a && p[|p| - 1] == b;
          assert |p| >= 2 ==> Joined([], p[0], p[0 + 1]);
        } else {
          assert a == b ==> Connected([], a, b) by { Reflexive([], a); }
        }
      }
    }

    /** The representative of a node; on the way every second parent link is shortened. */
    method Find(identifier: string) returns (r: string)
      requires Valid() && identifier in domain
      modifies this`parent
      ensures Valid() && r == root[identifier] && r in parent && parent[r] == r
    {
      r := identifier;
      assert Climbs(domain.Keys, parent, root, height, r);
      while parent[r] != r
        invariant Valid() && Climbs(domain.Keys, parent, root, height, r) && r in domain && root[r] == root[identifier]
        decreases bound - height[r]
      {
        assert Climbs(domain.Keys, parent, root, height, r) && Climbs(domain.Keys, parent, root, height, parent[r]);
        Halved(domain.Keys, parent, root, height, r);
        parent := parent[r := parent[parent[r]]];
        r := parent[r];
      }
    }

    method Union(left: string, right: string)
      requires Valid() && left in domain && right in domain
      modifies this
      ensures Valid() && edges == old(edges) + [Edge(left, right)]
    {
      var leftRoot := Find(left);
      var rightRoot := Find(right);
      if leftRoot != rightRoot {
        Link(Edge(left, right), leftRoot, rightRoot);
      } else {
        Repeat(Edge(left, right));
      }
    }

    method Link(e: Edge, leftRoot: string, rightRoot: string)
      requires Valid() && e.left in domain && e.right in domain
      requires leftRoot == root[e.left] && rightRoot == root[e.right] && leftRoot != rightRoot
      modifies this
      ensures Valid() && edges == old(edges) + [e]
    {
      assert Climbs(domain.Keys, parent, root, height, e.right);
      MergeRepresents(root, edges, e);
      ghost var lift := height[rightRoot] + 1;
      Hung(domain.Keys, parent, root, height, e, leftRoot, rightRoot, lift);
      parent := parent[rightRoot := leftRoot];
      Record(e, leftRoot, lift);
    }

    /** An edge inside a class changes no class. */
    ghost method Repeat(e: Edge)
      requires Valid() && e.left in domain && e.right in domain && root[e.left] == root[e.right]
      modifies this`edges
      ensures Valid() && edges == old(edges) + [e]
    {
      MergeRepresents(root, edges, e);
      assert Merged(root, e) == root;
      edges := edges + [e];
    }

    ghost method Record(e: Edge, top: string, lift: nat)
      requires e.left in root && e.right in root
      requires forall x :: x in height ==> height[x] < bound
      modifies this`root, this`height, this`bound, this`edges
      ensures root == Merged(old(root), e) && height == Lifted(old(root), old(height), top, lift)
      ensures (forall x :: x in height ==> height[x] < bound) && edges == old(edges) + [e]
    {
      height := Lifted(root, height, top, lift);
      root := Merged(root, e);
      bound := bound + lift;
      edges := edges + [e];
    }

    /** Unites along every equality edge; refuses an edge between two domains. */
    method Unite(equalities: seq<Edge>) returns (ok: bool)
      requires Valid() && edges == [] && Inside(equalities, domain.Keys)
      modifies this
      ensures Valid()
      ensures ok <==> forall e :: e in equalities ==> domain[e.left] == domain[e.right]
      ensures ok ==> edges == equalities
    {
      for k := 0 to |equalities|
        invariant Valid() && edges == equalities[..k]
        invariant forall e :: e in equalities[..k] ==> domain[e.left] == domain[e.right]
      {
        var e := equalities[k];
        assert e in equalities && equalities[..k + 1] == equalities[..k] + [e];
        if domain[e.left] != domain[e.right] { return false; }
        Union(e.left, e.right);
      }
      assert equalities[..|equalities|] == equalities;
      return true;
    }

    /** Whether an independence relation is accepted: the class test adds nothing to the domain test. */
    method Independent(left: string, right: string, independentKind: bool) returns (ok: bool)
      requires Valid() && forall e :: e in edges ==> domain[e.left] == domain[e.right]
      modifies this`parent
      ensures Valid()
      ensures ok <==> left in domain && right in domain && independentKind && domain[left] != domain[right]
    {
      if left !in domain || right !in domain || !independentKind || domain[left] == domain[right] { return false; }
      var a := Find(left);
      var b := Find(right);
      if Connected(edges, left, right) {
        var p :| IsWalk(edges, p) && |p| >= 1 && p[0] == left && p[|p| - 1] == right;
        OneDomain(edges, domain, p);
      }
      return a != b;
    }
  }
}
