/** Paths over a set of directed edges between named nodes. */
module Paths {

  type Edges = set<(string, string)>

  predicate Path(edges: Edges, path: seq<string>)
  {
    path != [] && forall i | 0 < i < |path| :: (path[i - 1], path[i]) in edges
  }

  /** A path leads from one of the nodes in `from` to b. */
  ghost predicate Reaches(edges: Edges, from: set<string>, b: string)
  {
    exists path :: Path(edges, path) && path[0] in from && path[|path| - 1] == b
  }

  lemma ReachesSelf(edges: Edges, from: set<string>, b: string)
    requires b in from
    ensures Reaches(edges, from, b)
  {
    assert Path(edges, [b]);
  }

  lemma ReachesMore(edges: Edges, from: set<string>, more: set<string>, b: string)
    requires Reaches(edges, from, b) && from <= more
    ensures Reaches(edges, more, b)
  {
    var path :| Path(edges, path) && path[0] in from && path[|path| - 1] == b;
    assert Path(edges, path);
  }

  lemma ReachesStep(edges: Edges, from: set<string>, a: string, b: string)
    requires Reaches(edges, from, a) && (a, b) in edges
    ensures Reaches(edges, from, b)
  {
    var path :| Path(edges, path) && path[0] in from && path[|path| - 1] == a;
    var longer := path + [b];
    forall i | 0 < i < |longer| ensures (longer[i - 1], longer[i]) in edges {
      assert i < |path| ==> (path[i - 1], path[i]) in edges;
    }
    assert Path(edges, longer);
  }

  /** A set of nodes closed under the edges holds everything reached from it. */
  lemma {:induction false} PathStays(edges: Edges, path: seq<string>, closed: iset<string>)
    requires Path(edges, path) && path[0] in closed
    requires forall a, b | (a, b) in edges && a in closed :: b in closed
    ensures path[|path| - 1] in closed
  {
    if |path| > 1 {
      assert (path[0], path[0 + 1]) in edges;
      forall i | 0 < i < |path| - 1 ensures (path[1..][i - 1], path[1..][i]) in edges {
        assert (path[i], path[i + 1]) in edges;
      }
      PathStays(edges, path[1..], closed);
    }
  }

  lemma ReachedStays(edges: Edges, from: set<string>, b: string, closed: iset<string>)
    requires Reaches(edges, from, b) && forall a | a in from :: a in closed
    requires forall a, b | (a, b) in edges && a in closed :: b in closed
    ensures b in closed
  {
    var path :| Path(edges, path) && path[0] in from && path[|path| - 1] == b;
    PathStays(edges, path, closed);
  }
}
