/** Paths and reachability over an arbitrary edge relation. */
module Graphs {

  ghost predicate IsPath<V(!new)>(edge: (V, V) -> bool, path: seq<V>) {
    |path| > 0 && forall i :: 0 <= i < |path| - 1 ==> edge(path[i], path[i + 1])
  }

  ghost predicate Connects<V(!new)>(edge: (V, V) -> bool, path: seq<V>, u: V, v: V) {
    IsPath(edge, path) && path[0] == u && path[|path| - 1] == v
  }

  ghost predicate Reaches<V(!new)>(edge: (V, V) -> bool, u: V, v: V) {
    exists path :: Connects(edge, path, u, v)
  }

  ghost predicate Simple<V(!new)>(path: seq<V>) {
    forall i, j :: 0 <= i < j < |path| ==> path[i] != path[j]
  }

  /** Cutting out the loops of a path leaves a path between the same ends that visits
      nothing twice. */
  lemma {:induction false} SimplePath<V(!new)>(edge: (V, V) -> bool, path: seq<V>, u: V, v: V) returns (simple: seq<V>)
    requires Connects(edge, path, u, v)
    ensures Connects(edge, simple, u, v) && Simple(simple)
    decreases |path|
  {
    if Simple(path) {
      return path;
    }
    var i, j :| 0 <= i < j < |path| && path[i] == path[j];
    var cut := path[..i] + path[j..];
    assert forall k :: 0 <= k < |cut| - 1 ==> edge(cut[k], cut[k + 1]) by {
      forall k | 0 <= k < |cut| - 1
        ensures edge(cut[k], cut[k + 1])
      {
        if k < i {
          assert edge(path[k], path[k + 1]);
        } else {
          assert edge(path[k - i + j], path[k - i + j + 1]);
        }
      }
    }
    simple := SimplePath(edge, cut, u, v);
  }

  lemma ReachesSelf<V(!new)>(edge: (V, V) -> bool, u: V)
    ensures Reaches(edge, u, u)
  {
    assert Connects(edge, [u], u, u);
  }

  lemma ConsIsPath<V(!new)>(edge: (V, V) -> bool, u: V, path: seq<V>)
    requires IsPath(edge, path) && edge(u, path[0])
    ensures IsPath(edge, [u] + path)
  {
  }

  lemma StepReaches<V(!new)>(edge: (V, V) -> bool, u: V, v: V, w: V)
    requires edge(u, v) && Reaches(edge, v, w)
    ensures Reaches(edge, u, w)
  {
    var path :| Connects(edge, path, v, w);
    ConsIsPath(edge, u, path);
    assert Connects(edge, [u] + path, u, w);
  }

  lemma ReachesStep<V(!new)>(edge: (V, V) -> bool, u: V, v: V, w: V)
    requires Reaches(edge, u, v) && edge(v, w)
    ensures Reaches(edge, u, w)
  {
    var path :| Connects(edge, path, u, v);
    assert Connects(edge, path + [w], u, w);
  }

  lemma ReachesThrough<V(!new)>(edge: (V, V) -> bool, u: V, v: V, w: V)
    requires Reaches(edge, u, v) && Reaches(edge, v, w)
    ensures Reaches(edge, u, w)
  {
    var path :| Connects(edge, path, u, v);
    PathThenReaches(edge, path, u, v, w);
  }

  lemma {:induction false} PathThenReaches<V(!new)>(edge: (V, V) -> bool, path: seq<V>, u: V, v: V, w: V)
    requires Connects(edge, path, u, v) && Reaches(edge, v, w)
    ensures Reaches(edge, u, w)
    decreases |path|
  {
    if |path| > 1 {
      TailIsPath(edge, path);
      PathThenReaches(edge, path[1..], path[1], v, w);
      StepReaches(edge, u, path[1], w);
    }
  }

  lemma TailIsPath<V(!new)>(edge: (V, V) -> bool, path: seq<V>)
    requires IsPath(edge, path) && |path| > 1
    ensures edge(path[0], path[1]) && IsPath(edge, path[1..])
  {
  }

  /** What edges do not leave, paths do not leave. */
  lemma {:induction false} PathStaysInside<V(!new)>(edge: (V, V) -> bool, inside: V -> bool, path: seq<V>)
    requires IsPath(edge, path) && inside(path[0])
    requires forall u, v :: inside(u) && edge(u, v) ==> inside(v)
    ensures inside(path[|path| - 1])
    decreases |path|
  {
    if |path| > 1 {
      TailIsPath(edge, path);
      PathStaysInside(edge, inside, path[1..]);
    }
  }
}
