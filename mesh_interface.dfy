/** The few mesh queries the vertex selector makes, abstracted as given
    functions. Entity handles and partition ids are plain numbers; faces are
    ordered by their handle, as `std::map` keyed on entity pointers orders them. */
module MeshInterface {

  type Vertex = nat
  type Region = nat
  type Side = nat
  type Face = nat
  type Part = nat

  /** What the selector asks of the mesh:
      - regionsOf(v): the top-dimension regions adjacent to vertex v, in adjacency order
      - sidesOf(v): the codimension-2 entities adjacent to v
      - remotes(s): the partition ids holding a remote copy of side s
      - facesOf(r): the codimension-1 faces on the boundary of region r
      - upOf(f): the regions above face f
      - weight(v): the weight stored on v by the weight tag */
  datatype Mesh = Mesh(
    regionsOf: Vertex -> seq<Region>,
    sidesOf: Vertex -> seq<Side>,
    remotes: Side -> seq<Part>,
    facesOf: Region -> seq<Face>,
    upOf: Face -> seq<Region>,
    weight: Vertex -> real)

  /** All weights non-negative: the condition under which the selector's
      accumulators only grow. */
  ghost predicate NonNegativeWeights(m: Mesh) {
    forall v: Vertex :: m.weight(v) >= 0.0
  }

  /** The entries of f(xs[0]), f(xs[1]), ... one after another: what a
      nested loop over xs and then over f(x) visits. */
  function Flatten<T, U(!new)>(xs: seq<T>, f: T -> seq<U>): (r: seq<U>)
    ensures |r| == TotalLength(xs, f)
  {
    if xs == [] then []
    else
      var init := xs[..|xs| - 1];
      assert xs == init + [xs[|xs| - 1]];
      TotalLengthAppend(init, xs[|xs| - 1], f);
      Flatten(init, f) + f(xs[|xs| - 1])
  }

  /** y occurs in the flattening exactly when it occurs in some f(xs[i]). */
  lemma {:induction false} FlattenMembers<T, U(!new)>(xs: seq<T>, f: T -> seq<U>)
    ensures forall y :: y in Flatten(xs, f) <==> exists i :: 0 <= i < |xs| && y in f(xs[i])
  {
    if xs != [] {
      var init := xs[..|xs| - 1];
      FlattenMembers(init, f);
      assert forall i :: 0 <= i < |init| ==> init[i] == xs[i];
    }
  }

  /** |f(xs[0])| + |f(xs[1])| + ... */
  function TotalLength<T, U>(xs: seq<T>, f: T -> seq<U>): (r: nat) {
    if xs == [] then 0 else |f(xs[0])| + TotalLength(xs[1..], f)
  }

  lemma {:induction false} TotalLengthAppend<T, U>(xs: seq<T>, x: T, f: T -> seq<U>)
    ensures TotalLength(xs + [x], f) == TotalLength(xs, f) + |f(x)|
  {
    if xs != [] {
      assert (xs + [x])[1..] == xs[1..] + [x];
      TotalLengthAppend(xs[1..], x, f);
    }
  }

  lemma FlattenStep<T, U(!new)>(xs: seq<T>, i: nat, f: T -> seq<U>)
    requires i < |xs|
    ensures Flatten(xs[..i + 1], f) == Flatten(xs[..i], f) + f(xs[i])
  {
    assert xs[..i + 1][..i] == xs[..i];
  }
}
