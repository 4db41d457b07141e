// The lineage graph: which nodes derive from which.
module Lineage {
  type Edges = set<(string, string)>

  function Children(edges: Edges, node: string): set<string> {
    set e | e in edges && e.0 == node :: e.1
  }

  function Targets(edges: Edges): set<string> {
    set e | e in edges :: e.1
  }

  // A path follows one or more edges.
  ghost predicate IsPath(edges: Edges, path: seq<string>) {
    |path| >= 2 && forall i, j :: 0 <= i && j == i + 1 && j < |path| ==> (path[i], path[j]) in edges
  }

  ghost predicate PathBetween(edges: Edges, path: seq<string>, from: string, to: string) {
    IsPath(edges, path) && path[0] == from && path[|path| - 1] == to
  }

  ghost predicate Reaches(edges: Edges, from: string, to: string) {
    exists path :: PathBetween(edges, path, from, to)
  }

  ghost predicate Derived(edges: Edges, roots: set<string>, node: string) {
    exists root :: root in roots && Reaches(edges, root, node)
  }

  ghost function DerivedFrom(edges: Edges, roots: set<string>): set<string> {
    set node | node in Targets(edges) && Derived(edges, roots, node)
  }

  lemma EdgeReaches(edges: Edges, from: string, to: string)
    requires (from, to) in edges
    ensures Reaches(edges, from, to)
  {
    assert PathBetween(edges, [from, to], from, to);
  }

  lemma ReachesFurther(edges: Edges, from: string, middle: string, to: string)
    requires Reaches(edges, from, middle) && (middle, to) in edges
    ensures Reaches(edges, from, to)
  {
    var path :| PathBetween(edges, path, from, middle);
    assert PathBetween(edges, path + [to], from, to);
  }

  // The last step of a path: the edge into its end, from its start or from a
  // node its start reaches.
  lemma LastStep(edges: Edges, from: string, to: string) returns (middle: string)
    requires Reaches(edges, from, to)
    ensures (middle, to) in edges && (middle == from || Reaches(edges, from, middle))
  {
    var path :| PathBetween(edges, path, from, to);
    middle := path[|path| - 2];
    assert (path[|path| - 2], path[|path| - 1]) in edges;
    if |path| > 2 {
      assert PathBetween(edges, path[..|path| - 1], from, middle);
    }
  }

  lemma ReachedIsTarget(edges: Edges, from: string, to: string)
    requires Reaches(edges, from, to)
    ensures to in Targets(edges)
  {
    var middle := LastStep(edges, from, to);
  }

  // A set holding the children of the roots and of itself holds all that is derived.
  ghost predicate ClosedUnderEdges(edges: Edges, roots: set<string>, found: set<string>) {
    forall e :: e in edges && (e.0 in roots || e.0 in found) ==> e.1 in found
  }

  lemma {:induction false} ClosedHoldsPath(edges: Edges, roots: set<string>, found: set<string>, path: seq<string>)
    requires ClosedUnderEdges(edges, roots, found) && IsPath(edges, path) && path[0] in roots
    ensures path[|path| - 1] in found
    decreases |path|
  {
    var n := |path| - 1;
    if n > 1 {
      ClosedHoldsPath(edges, roots, found, path[..n]);
      assert path[..n][n - 1] == path[n - 1];
    }
    assert (path[n - 1], path[n]) in edges;
  }

  lemma ClosedHoldsDerived(edges: Edges, roots: set<string>, found: set<string>)
    requires ClosedUnderEdges(edges, roots, found)
    ensures DerivedFrom(edges, roots) <= found
  {
    forall node | node in DerivedFrom(edges, roots) ensures node in found {
      var root :| root in roots && Reaches(edges, root, node);
      var path :| PathBetween(edges, path, root, node);
      ClosedHoldsPath(edges, roots, found, path);
    }
  }

  // The worklist holds every node whose children are not all found yet.
  ghost predicate Progress(edges: Edges, roots: set<string>, found: set<string>, frontier: seq<string>) {
    && found <= DerivedFrom(edges, roots)
    && (forall node :: node in frontier ==> node in roots || node in found)
    && (forall e :: e in edges && (e.0 in roots || e.0 in found) ==> e.1 in found || e.0 in frontier)
  }

  // Finds all that some path from a root ends in, and stops on
  // any graph, cycles included.
  method Descendants(edges: Edges, roots: seq<string>) returns (found: set<string>)
    ensures found == DerivedFrom(edges, set root | root in roots)
  {
    ghost var rootSet := set root | root in roots;
    var frontier := roots;
    found := {};
    while frontier != []
      invariant Progress(edges, rootSet, found, frontier)
      decreases Targets(edges) - found, |frontier|
    {
      var node, rest := frontier[|frontier| - 1], frontier[..|frontier| - 1];
      ghost var before := found;
      assert frontier == rest + [node];
      found, frontier := AddChildren(edges, rootSet, node, found, rest);
      StillProgress(edges, rootSet, before, rest, node, found, frontier);
    }
    ClosedHoldsDerived(edges, rootSet, found);
  }

  // The children of `node` not found before join the worklist.
  method AddChildren(edges: Edges, ghost roots: set<string>, node: string, before: set<string>, rest: seq<string>)
    returns (found: set<string>, frontier: seq<string>)
    requires node in roots || node in DerivedFrom(edges, roots)
    requires before <= DerivedFrom(edges, roots)
    ensures before <= found <= DerivedFrom(edges, roots) && Children(edges, node) <= found
    ensures rest <= frontier && (forall x :: x in frontier ==> x in rest || x in found)
    ensures forall x :: x in found ==> x in before || x in frontier
    ensures found == before ==> frontier == rest
  {
    found, frontier := before, rest;
    var children := Children(edges, node);
    while children != {}
      invariant children <= Children(edges, node) && Children(edges, node) - children <= found
      invariant before <= found <= DerivedFrom(edges, roots)
      invariant rest <= frontier && (forall x :: x in frontier ==> x in rest || x in found)
      invariant forall x :: x in found ==> x in before || x in frontier
      invariant found == before ==> frontier == rest
      decreases |children|
    {
      var child :| child in children;
      children := children - {child};
      ChildIsDerived(edges, roots, node, child);
      if child !in found {
        found := found + {child};
        frontier := frontier + [child];
      }
    }
  }

  lemma ChildIsDerived(edges: Edges, roots: set<string>, node: string, child: string)
    requires node in roots || node in DerivedFrom(edges, roots)
    requires child in Children(edges, node)
    ensures child in DerivedFrom(edges, roots)
  {
    if node in roots {
      EdgeReaches(edges, node, child);
    } else {
      var root :| root in roots && Reaches(edges, root, node);
      ReachesFurther(edges, root, node, child);
    }
  }

  lemma StillProgress(
    edges: Edges, roots: set<string>, before: set<string>, rest: seq<string>, node: string,
    found: set<string>, frontier: seq<string>)
    requires Progress(edges, roots, before, rest + [node])
    requires before <= found <= DerivedFrom(edges, roots) && Children(edges, node) <= found
    requires rest <= frontier && (forall x :: x in frontier ==> x in rest || x in found)
    requires forall x :: x in found ==> x in before || x in frontier
    ensures Progress(edges, roots, found, frontier)
  {
    forall x | x in frontier ensures x in roots || x in found {
      assert x in rest ==> x in rest + [node];
    }
    forall e | e in edges && (e.0 in roots || e.0 in found) ensures e.1 in found || e.0 in frontier {
      if e.0 in roots || e.0 in before {
        assert e.1 in before || e.0 in rest + [node];
        if e.0 == node {
          assert e.1 in Children(edges, node);
        } else if e.0 in rest {
          var k :| 0 <= k < |rest| && rest[k] == e.0;
          assert frontier[k] == e.0;
        }
      }
    }
  }

  // Edges that only enter new nodes make no path to an old one.
  lemma {:induction false} OldPathStays(edges: Edges, added: Edges, path: seq<string>)
    requires IsPath(edges + added, path)
    requires forall e :: e in added ==> e.1 !in Targets(edges) && !exists f :: f in edges && f.0 == e.1
    requires path[|path| - 1] !in Targets(added)
    ensures IsPath(edges, path)
    decreases |path|
  {
    var n := |path| - 1;
    assert (path[n - 1], path[n]) in edges + added;
    assert (path[n - 1], path[n]) in edges;
    if n > 1 {
      assert path[n - 1] !in Targets(added);
      OldPathStays(edges, added, path[..n]);
      forall i, j | 0 <= i && j == i + 1 && j < |path| ensures (path[i], path[j]) in edges {
        if j < n {
          assert path[..n][i] == path[i] && path[..n][j] == path[j];
        }
      }
    }
  }
}
