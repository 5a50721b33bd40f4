/**
 * The sequence-backed vector of src/vector/experimental.rs: a wrapper
 * around a growable sequence whose `+` adds element by element.
 *
 * The wrapper dereferences to its sequence, so its length and indexing are
 * those of the sequence; here that sequence is the field `items`.
 */
module SeqVectors {
  import Vectors

  /** The wrapper `Vector<T>(Vec<T>)`, with `T` taken as `real`. */
  datatype SeqVector = SeqVector(items: seq<real>)

  /**
   * The sequence the loop of `add` builds: one pushed sum per element of
   * `a`, in order, each taking the element of `b` at the same index.
   */
  function ElementwiseSum(a: seq<real>, b: seq<real>): (r: seq<real>)
    requires |a| <= |b|
    ensures |r| == |a|
    ensures forall i :: 0 <= i < |a| ==> r[i] == a[i] + b[i]
  {
    if |a| == 0 then []
    else ElementwiseSum(a[..|a| - 1], b) + [a[|a| - 1] + b[|a| - 1]]
  }

  /**
   * `Add for Vector<T>`: starts from an empty sequence and, for each index
   * of `lhs`, pushes `lhs[i] + rhs[i]`. Indexing `rhs` past its end panics,
   * so `rhs` must be at least as long as `lhs`.
   */
  method Add(lhs: SeqVector, rhs: SeqVector) returns (result: SeqVector)
    requires |lhs.items| <= |rhs.items|
    ensures |result.items| == |lhs.items|
    ensures forall i :: 0 <= i < |lhs.items| ==> result.items[i] == lhs.items[i] + rhs.items[i]
    ensures result.items == ElementwiseSum(lhs.items, rhs.items)
  {
    result := SeqVector([]);
    for i := 0 to |lhs.items|
      invariant result.items == ElementwiseSum(lhs.items[..i], rhs.items)
    {
      assert lhs.items[..i + 1][..i] == lhs.items[..i];
      result := SeqVector(result.items + [lhs.items[i] + rhs.items[i]]);
    }
    assert lhs.items[..|lhs.items|] == lhs.items;
  }

  /** Elements of `b` beyond the length of `a` never affect the sum. */
  lemma ElementwiseSumIgnoresTail(a: seq<real>, b: seq<real>, c: seq<real>)
    requires |a| <= |b| && |a| <= |c|
    requires b[..|a|] == c[..|a|]
    ensures ElementwiseSum(a, b) == ElementwiseSum(a, c)
  {
    forall i | 0 <= i < |a| ensures b[i] == c[i] {
      assert b[i] == b[..|a|][i];
    }
  }

  /** On sequences of equal length the element-wise sum is commutative. */
  lemma ElementwiseSumCommutes(a: seq<real>, b: seq<real>)
    requires |a| == |b|
    ensures ElementwiseSum(a, b) == ElementwiseSum(b, a)
  {
  }

  /**
   * The fixed three-component `+` agrees with the sequence-backed `+` on the
   * components: each component of the sum is the sum of the components.
   */
  lemma Vector3AddIsElementwiseSum(u: Vectors.Vector, v: Vectors.Vector)
    ensures Vectors.Components(Vectors.Add(u, v))
         == ElementwiseSum(Vectors.Components(u), Vectors.Components(v))
  {
  }
}
