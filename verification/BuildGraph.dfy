/** The check that a build-trust graph is one acyclic tree of references below its root. */
module BuildGraph {

  type Graph = map<string, seq<string>>

  /** Every child is a node of the graph. */
  predicate Closed(g: Graph) { forall n, c :: n in g && c in g[n] ==> c in g }

  predicate IsPath(g: Graph, p: seq<string>)
  {
    && (forall k :: 0 <= k < |p| ==> p[k] in g)
    && forall k :: 0 <= k < |p| - 1 ==> p[k + 1] in g[p[k]]
  }

  /** A path of at least one edge. */
  ghost predicate Leads(g: Graph, a: string, b: string)
  {
    exists p :: IsPath(g, p) && |p| >= 2 && p[0] == a && p[|p| - 1] == b
  }

  ghost predicate Reaches(g: Graph, a: string, b: string) { (a == b && a in g) || Leads(g, a, b) }

  ghost predicate Acyclic(g: Graph) { forall n :: n in g ==> !Leads(g, n, n) }

  ghost predicate AllBelow(g: Graph, root: string) { forall n :: n in g ==> Reaches(g, root, n) }

  lemma EdgeLeads(g: Graph, a: string, b: string)
    requires a in g && b in g && b in g[a]
    ensures Leads(g, a, b)
  {
    assert IsPath(g, [a, b]);
  }

  lemma LeadsOn(g: Graph, a: string, b: string, c: string)
    requires Reaches(g, a, b) && b in g && c in g && c in g[b]
    ensures Leads(g, a, c)
  {
    if Leads(g, a, b) {
      var p :| IsPath(g, p) && |p| >= 2 && p[0] == a && p[|p| - 1] == b;
      assert IsPath(g, p + [c]);
    } else {
      EdgeLeads(g, a, c);
    }
  }

  /** The nodes are numbered so that every edge goes to a smaller number. */
  predicate Ranked(g: Graph, rank: map<string, nat>)
  {
    && (forall n :: n in rank ==> n in g && rank[n] < |rank|)
    && forall n, c :: n in rank && c in g[n] ==> c in rank && rank[c] < rank[n]
  }

  lemma RankedOnward(g: Graph, rank: map<string, nat>, n: string)
    requires Ranked(g, rank) && n in g && n !in rank && forall c :: c in g[n] ==> c in rank
    ensures Ranked(g, rank[n := |rank|])
  {
    assert |rank[n := |rank|]| == |rank| + 1;
  }

  /** Along a path from a numbered node every node is numbered, and the numbers fall. */
  lemma {:induction false} RankFalls(g: Graph, rank: map<string, nat>, p: seq<string>)
    requires Ranked(g, rank) && IsPath(g, p) && |p| >= 1 && p[0] in rank
    ensures p[|p| - 1] in rank && (|p| >= 2 ==> rank[p[|p| - 1]] < rank[p[0]])
    decreases |p|
  {
    if |p| >= 2 {
      assert p[0 + 1] in g[p[0]];
      assert forall k :: 0 <= k < |p| - 1 ==> p[1..][k] == p[k + 1];
      RankFalls(g, rank, p[1..]);
    }
  }

  lemma RankedAcyclic(g: Graph, rank: map<string, nat>)
    requires Ranked(g, rank)
    ensures forall n :: n in rank ==> !Leads(g, n, n)
    ensures forall a, b :: a in rank && Reaches(g, a, b) ==> b in rank
  {
    forall a, b | a in rank && Leads(g, a, b) ensures b in rank && a != b {
      var p :| IsPath(g, p) && |p| >= 2 && p[0] == a && p[|p| - 1] == b;
      RankFalls(g, rank, p);
    }
  }

  class Walk {
    const children: Graph
    var visiting: set<string>
    var visited: set<string>
    ghost var rank: map<string, nat>

    constructor (children: Graph)
      ensures this.children == children && visiting == {} && visited == {} && rank == map[]
    {
      this.children, visiting, visited, rank := children, {}, {}, map[];
    }

    /** What is finished is closed below and numbered; what is under way is not finished. */
    ghost predicate Valid()
      reads this
    {
      && Closed(children) && visiting <= children.Keys && visiting !! visited
      && rank.Keys == visited && Ranked(children, rank)
    }

    /** Visits everything below a node; fails exactly when it comes back to a node under way. */
    method Visit(id: string) returns (ok: bool)
      requires Valid() && id in children
      requires forall v :: v in visiting ==> Leads(children, v, id)
      modifies this
      ensures ok ==> Valid() && visiting == old(visiting) && id in visited && old(visited) <= visited
      ensures ok ==> forall v :: v in visited && v !in old(visited) ==> Reaches(children, id, v)
      ensures !ok ==> !Acyclic(children)
      decreases children.Keys - visiting, 0
    {
      if id in visiting { return false; }
      if id in visited { return true; }
      visiting := visiting + {id};
      ok := VisitChildren(id);
      if ok { Finish(id); }
    }

    method VisitChildren(id: string) returns (ok: bool)
      requires Valid() && id in visiting
      requires forall v :: v in visiting && v != id ==> Leads(children, v, id)
      modifies this
      ensures ok ==> Valid() && visiting == old(visiting) && old(visited) <= visited
      ensures ok ==> forall c :: c in children[id] ==> c in visited
      ensures ok ==> forall v :: v in visited && v !in old(visited) ==> Reaches(children, id, v)
      ensures !ok ==> !Acyclic(children)
      decreases children.Keys - visiting, 1
    {
      var below := children[id];
      for k := 0 to |below|
        invariant Valid() && visiting == old(visiting) && old(visited) <= visited
        invariant forall v :: v in visited && v !in old(visited) ==> Reaches(children, id, v)
        invariant forall j :: 0 <= j < k ==> below[j] in visited
      {
        var child := below[k];
        forall v | v in visiting ensures Leads(children, v, child) { LeadsOn(children, v, id, child); }
        ghost var before := visited;
        ok := Visit(child);
        if !ok { return; }
        forall v | v in visited && v !in before ensures Reaches(children, id, v) {
          ReachesThrough(children, id, child, v);
        }
      }
      ok := true;
    }

    method Finish(id: string)
      requires Valid() && id in visiting && forall c :: c in children[id] ==> c in visited
      modifies this
      ensures Valid() && visiting == old(visiting) - {id} && visited == old(visited) + {id}
    {
      visiting := visiting - {id};
      visited := visited + {id};
      RankedOnward(children, rank, id);
      rank := rank[id := |rank|];
    }

    /** The graph passes: nothing below the root comes back, and no node is left over. */
    method Check(root: string) returns (ok: bool)
      requires Closed(children) && root in children && visiting == {} && visited == {} && rank == map[]
      modifies this
      ensures ok <==> Acyclic(children) && AllBelow(children, root)
    {
      ok := Visit(root);
      if !ok { return; }
      RankedAcyclic(children, rank);
      ok := visited == children.Keys;
      if !ok {
        var n :| n in children && n !in visited;
        assert !Reaches(children, root, n);
      }
    }
  }

  lemma ReachesThrough(g: Graph, a: string, b: string, c: string)
    requires a in g && b in g && b in g[a] && Reaches(g, b, c)
    ensures Reaches(g, a, c)
  {
    if b == c {
      EdgeLeads(g, a, b);
    } else {
      var p :| IsPath(g, p) && |p| >= 2 && p[0] == b && p[|p| - 1] == c;
      assert IsPath(g, [a] + p);
    }
  }
}
