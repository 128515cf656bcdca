/**
 * The SVM's kernels (dist/index.umd.js:325-337) and `zeros`
 * (dist/index.umd.js:345-349). Vectors are sequences of reals. Both kernels
 * loop over the first argument's coordinates and read the second argument at
 * the same positions, so the second must be at least as long (past its end
 * JavaScript would read `undefined` and produce NaN).
 */
module Kernels {

  type Vector = seq<real>

  /** `linearKernel(v1, v2)`: the dot product, accumulated from the first coordinate; 0 when either side is 0 where it is read. */
  function LinearKernel(v1: Vector, v2: Vector): (r: real)
    requires |v1| <= |v2|
    decreases |v1|
  {
    if |v1| == 0 then 0.0
    else LinearKernel(v1[..|v1| - 1], v2) + v1[|v1| - 1] * v2[|v1| - 1]
  }

  /** The squared Euclidean distance accumulated by the RBF kernel's loop. */
  function SqDist(v1: Vector, v2: Vector): real
    requires |v1| <= |v2|
    decreases |v1|
  {
    if |v1| == 0 then 0.0
    else SqDist(v1[..|v1| - 1], v2) + (v1[|v1| - 1] - v2[|v1| - 1]) * (v1[|v1| - 1] - v2[|v1| - 1])
  }

  /**
   * `makeRbfKernel(sigma)(v1, v2)`. `Math.exp` is the host function `exp`;
   * nothing is assumed about it.
   */
  function RbfKernel(exp: real -> real, sigma: real, v1: Vector, v2: Vector): real
    requires |v1| <= |v2| && sigma != 0.0
  {
    exp(-SqDist(v1, v2) / (2.0 * sigma * sigma))
  }

  /** The kernel an SVM evaluates: the two built-in ones or a caller's function. */
  datatype Kernel = Linear | Rbf(sigma: real) | Custom(f: (Vector, Vector) -> real)

  /** The vectors `k` can be applied to without reading past the end or dividing by zero. */
  predicate Applicable(k: Kernel, v1: Vector, v2: Vector)
  {
    match k
    case Linear => |v1| <= |v2|
    case Rbf(sigma) => |v1| <= |v2| && sigma != 0.0
    case Custom(_) => true
  }

  function Apply(k: Kernel, exp: real -> real, v1: Vector, v2: Vector): real
    requires Applicable(k, v1, v2)
  {
    match k
    case Linear => LinearKernel(v1, v2)
    case Rbf(sigma) => RbfKernel(exp, sigma, v1, v2)
    case Custom(f) => f(v1, v2)
  }

  /** `zeros(n)`: an array of `n` zeros. */
  function Zeros(n: nat): (r: Vector)
    ensures |r| == n && forall i :: 0 <= i < n ==> r[i] == 0.0
  {
    seq(n, _ => 0.0)
  }

  /** The linear kernel reads `v2` only where `v1` has coordinates. */
  lemma {:induction false} LinearKernelPrefix(v1: Vector, v2: Vector, m: nat)
    requires |v1| <= m <= |v2|
    ensures LinearKernel(v1, v2) == LinearKernel(v1, v2[..m])
    decreases |v1|
  {
    if |v1| > 0 {
      LinearKernelPrefix(v1[..|v1| - 1], v2, m);
    }
  }

  /** The linear kernel is symmetric on vectors of one dimension. */
  lemma {:induction false} LinearKernelSymmetric(v1: Vector, v2: Vector)
    requires |v1| == |v2|
    ensures LinearKernel(v1, v2) == LinearKernel(v2, v1)
    decreases |v1|
  {
    if |v1| > 0 {
      var m := |v1| - 1;
      LinearKernelSymmetric(v1[..m], v2[..m]);
      LinearKernelPrefix(v1[..m], v2, m);
      LinearKernelPrefix(v2[..m], v1, m);
    }
  }

  lemma {:induction false} SqDistNonNegative(v1: Vector, v2: Vector)
    requires |v1| <= |v2|
    ensures SqDist(v1, v2) >= 0.0
    decreases |v1|
  {
    if |v1| > 0 {
      SqDistNonNegative(v1[..|v1| - 1], v2);
    }
  }

  /** A vector is at distance 0 from itself (or from any extension of itself). */
  lemma {:induction false} SqDistSelf(v: Vector, u: Vector)
    requires |v| <= |u| && v == u[..|v|]
    ensures SqDist(v, u) == 0.0
    decreases |v|
  {
    if |v| > 0 {
      var m := |v| - 1;
      assert v[..m] == u[..m];
      SqDistSelf(v[..m], u);
    }
  }

  lemma {:induction false} SqDistPrefix(v1: Vector, v2: Vector, m: nat)
    requires |v1| <= m <= |v2|
    ensures SqDist(v1, v2) == SqDist(v1, v2[..m])
    decreases |v1|
  {
    if |v1| > 0 {
      SqDistPrefix(v1[..|v1| - 1], v2, m);
    }
  }

  /** The RBF kernel is symmetric on vectors of one dimension. */
  lemma {:induction false} SqDistSymmetric(v1: Vector, v2: Vector)
    requires |v1| == |v2|
    ensures SqDist(v1, v2) == SqDist(v2, v1)
    decreases |v1|
  {
    if |v1| > 0 {
      var m := |v1| - 1;
      SqDistSymmetric(v1[..m], v2[..m]);
      SqDistPrefix(v1[..m], v2, m);
      SqDistPrefix(v2[..m], v1, m);
    }
  }

  lemma RbfSymmetric(exp: real -> real, sigma: real, v1: Vector, v2: Vector)
    requires |v1| == |v2| && sigma != 0.0
    ensures RbfKernel(exp, sigma, v1, v2) == RbfKernel(exp, sigma, v2, v1)
  {
    SqDistSymmetric(v1, v2);
  }
}
