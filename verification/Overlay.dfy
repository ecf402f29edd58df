/** Adjacency lists over peers, as `PalmTreeProtocol.adjacency_list` holds them. */
module Overlay {
  import opened Peers

  type Adjacency = map<PeerId, seq<PeerId>>

  ghost predicate Linked(adj: Adjacency, a: PeerId, b: PeerId) { a in adj && b in adj[a] }

  /** Symmetric, loop-free, without repetition, and closed. */
  ghost predicate GoodGraph(adj: Adjacency) {
    && (forall a :: a in adj ==> Distinct(adj[a]))
    && (forall a, b :: Linked(adj, a, b) ==> a != b && Linked(adj, b, a))
  }

  ghost predicate Walk(adj: Adjacency, path: seq<PeerId>) {
    && path != [] && path[0] in adj
    && forall i :: 0 <= i < |path| - 1 ==> Linked(adj, path[i], path[i + 1])
  }

  ghost predicate WalkBetween(adj: Adjacency, path: seq<PeerId>, a: PeerId, b: PeerId) {
    Walk(adj, path) && path[0] == a && path[|path| - 1] == b
  }

  ghost predicate Reaches(adj: Adjacency, a: PeerId, b: PeerId) { exists path :: WalkBetween(adj, path, a, b) }
}
