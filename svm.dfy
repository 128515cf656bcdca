/**
 * The SVM object of dist/index.umd.js:31-322: its state, training, the
 * margin and predictions, the deprecated `getWeights`, and the JSON
 * snapshot. The value-level functions state what each method leaves
 * behind; `class Svm` keeps the same fields and updates them in place.
 */
module SvmModel {
  import opened Wrappers
  import opened Kernels
  import opened Smo

  // ---------------------------------------------------------------------------
  // State
  // ---------------------------------------------------------------------------

  /**
   * The fields of an SVM object. `rbfSigma` is `None` until something writes
   * it; `usew` is the `usew_` flag that switches `marginOne` to the weights.
   */
  datatype SvmState = SvmState(
    data: seq<Vector>, labels: seq<real>, kernelType: string, kernel: Kernel,
    rbfSigma: Option<real>, n: int, d: int, alpha: seq<real>, b: real,
    usew: bool, w: seq<real>)

  /** A new object, before `train` or `fromJSON`, with empty values standing for the undefined fields. */
  function Fresh(): SvmState
  {
    SvmState([], [], "", Linear, None, 0, 0, [], 0.0, false, [])
  }

  // ---------------------------------------------------------------------------
  // The margin (dist/index.umd.js:197-230)
  // ---------------------------------------------------------------------------

  /** What `marginOne(x)` reads: the first D coordinates and weights, or the kernel sum's rows. */
  predicate CanEvaluate(st: SvmState, x: Vector)
  {
    if st.usew then 0 <= st.d <= |x| && st.d <= |st.w|
    else Evaluable(st.kernel, st.alpha, st.labels, st.data, x, st.n)
  }

  /** `b + x . w` over the first D coordinates when `usew_` is set, else `b + sum_i alpha[i] * labels[i] * K(x, data[i])`. */
  function Margin(st: SvmState, exp: real -> real, x: Vector): (m: real)
    requires CanEvaluate(st, x)
    ensures st.usew && st.d == 0 ==> m == st.b
    ensures !st.usew && st.n <= 0 ==> m == st.b
  {
    if st.usew then st.b + LinearKernel(x[..st.d], st.w)
    else st.b + KernelSum(st.kernel, exp, st.alpha, st.labels, st.data, x, st.n)
  }

  /** `m > 0 ? 1 : -1`. */
  function Sign(m: real): (r: real)
    ensures r == 1.0 <==> m > 0.0
    ensures r == -1.0 <==> m <= 0.0
  {
    if m > 0.0 then 1.0 else -1.0
  }

  // ---------------------------------------------------------------------------
  // Training (dist/index.umd.js:37-192)
  // ---------------------------------------------------------------------------

  /** An N x D data set with one label per row. */
  predicate Matrix(data: seq<Vector>, labels: seq<real>)
  {
    |labels| == |data| && forall i :: 0 <= i < |data| ==> |data[i]| == |data[0]|
  }

  /**
   * How `train` fails: `data[0].length` on an empty data set is a TypeError;
   * a lone sample that violates the KKT test never finds a partner and the
   * call never returns.
   */
  datatype TrainError = TypeError | NoPartner

  /** The object after `train` and what the call returns: `iters`, or the failure. */
  datatype TrainRun = TrainRun(st: SvmState, result: Result<int, TrainError>)

  /** The fields written before `data[0]` is read (dist/index.umd.js:40-73). */
  function Configured(st: SvmState, data: seq<Vector>, labels: seq<real>, cfg: Config): SvmState
  {
    st.(data := data, labels := labels, kernelType := cfg.kernelType,
        rbfSigma := if cfg.rbfSigma.Some? then cfg.rbfSigma else st.rbfSigma,
        kernel := cfg.kernel, n := |data|)
  }

  /** The rows of `st` have `st.d` coordinates, one label and one coefficient each. */
  predicate Aligned(st: SvmState)
  {
    && 0 <= st.d && st.n == |st.data| == |st.labels| == |st.alpha|
    && forall i :: 0 <= i < st.n ==> |st.data[i]| == st.d
  }

  lemma AlignedColumns(st: SvmState)
    requires Aligned(st)
    ensures Columns(st.alpha, st.labels, st.data, st.n, st.d)
  {
  }

  /**
   * After the loop (dist/index.umd.js:149-187): the linear kernel gets its
   * dense weights, and `usew_` is set only if there is a dimension to loop
   * over; any other kernel keeps only the rows with `alpha > alphatol`.
   */
  function Finish(st: SvmState, alphatol: real): (r: SvmState)
    requires Aligned(st)
  {
    if st.kernelType == "linear" then
      st.(w := Weights(st.alpha, st.labels, st.data, st.n, st.d), usew := st.usew || st.d > 0)
    else
      var kept := Select(st.data, st.alpha, alphatol, st.n);
      st.(data := kept, labels := Select(st.labels, st.alpha, alphatol, st.n),
          alpha := Select(st.alpha, st.alpha, alphatol, st.n), n := |kept|)
  }

  /** The training problem `train` solves from the configured state. */
  function ProblemOf(data: seq<Vector>, labels: seq<real>, o: Options, exp: real -> real): Problem
  {
    Problem(data, labels, Configure(o).kernel, exp)
  }

  /**
   * `train(data, labels, options)` with the pair-update variables declared,
   * on the object in state `st`, with `Math.exp` as `exp` and the random
   * partners drawn by `partner`.
   */
  function TrainSpec(st: SvmState, exp: real -> real, data: seq<Vector>, labels: seq<real>, o: Options,
                     partner: (int, int) -> int): (t: TrainRun)
    requires Matrix(data, labels) && PartnerOk(partner, |data|)
    ensures t.result == Failure(TypeError) <==> |data| == 0
    ensures t.st.kernelType == Configure(o).kernelType && t.st.kernel == Configure(o).kernel
  {
    var cfg := Configure(o);
    var st1 := Configured(st, data, labels, cfg);
    if |data| == 0 then TrainRun(st1, Failure(TypeError))
    else
      ConfigureSpec(o);
      var p := ProblemOf(data, labels, o, exp);
      var st2 := st1.(d := |data[0]|, alpha := Zeros(|data|), b := 0.0, usew := false);
      RunNeverThrows(p, cfg, partner, 0, 0, Start(p));
      match Run(p, cfg, partner, false, 0, 0, Start(p))
      case Done(s, iters, _) => TrainRun(Finish(st2.(alpha := s.alpha, b := s.b), cfg.alphatol), Success(iters))
      case Diverges => TrainRun(st2, Failure(NoPartner))
  }

  // ---------------------------------------------------------------------------
  // Snapshots (dist/index.umd.js:266-321)
  // ---------------------------------------------------------------------------

  /** The object `toJSON` returns: `{}` for a custom kernel, else the fields, the optional ones as `Option`. */
  datatype SvmJson =
    | Empty
    | Snapshot(n: int, d: int, b: real, kernelType: string, w: Option<seq<real>>, rbfSigma: Option<real>,
               data: Option<seq<Vector>>, labels: Option<seq<real>>, alpha: Option<seq<real>>)

  /** `toJSON` with `json` declared: the weights for a linear SVM, the support vectors and sigma for an RBF one. */
  function SnapshotOf(st: SvmState): (j: SvmJson)
    ensures j.Empty? <==> st.kernelType == "custom"
    ensures j.Snapshot? ==> j.n == st.n && j.d == st.d && j.b == st.b && j.kernelType == st.kernelType
    ensures st.kernelType == "linear" || (st.kernelType == "rbf" && st.rbfSigma.Some?) ==> Loadable(j)
  {
    if st.kernelType == "custom" then Empty
    else
      var rbf := st.kernelType == "rbf";
      Snapshot(st.n, st.d, st.b, st.kernelType,
               if st.kernelType == "linear" then Some(st.w) else None,
               if rbf then st.rbfSigma else None,
               if rbf then Some(st.data) else None,
               if rbf then Some(st.labels) else None,
               if rbf then Some(st.alpha) else None)
  }

  /** The error `toJSON` throws as bundled. */
  datatype JsonError = UndeclaredVariable

  /**
   * `toJSON` as bundled: in strict mode (dist/index.umd.js:4) the assignment
   * `json = {}` to an undeclared variable (dist/index.umd.js:273) throws.
   */
  function SnapshotAsWritten(st: SvmState): Result<SvmJson, JsonError>
  {
    if st.kernelType == "custom" then Success(Empty) else Failure(UndeclaredVariable)
  }

  /** A snapshot carries the fields its kernel type needs. */
  predicate Loadable(j: SvmJson)
  {
    && j.Snapshot?
    && (j.kernelType == "linear" ==> j.w.Some?)
    && (j.kernelType == "rbf" ==> j.rbfSigma.Some? && j.data.Some? && j.labels.Some? && j.alpha.Some?)
  }

  /**
   * `fromJSON(json)`: `N`, `D`, `b` and the kernel type always; the weights
   * (and `usew_ = true`) for "linear"; sigma, kernel and support vectors for
   * "rbf", leaving `usew_` as it was; nothing more for any other type.
   */
  function Load(st: SvmState, j: SvmJson): (r: SvmState)
    requires Loadable(j)
    ensures r.n == j.n && r.d == j.d && r.b == j.b && r.kernelType == j.kernelType
    ensures r.usew == (j.kernelType == "linear" || st.usew)
    ensures j.kernelType != "rbf" ==> r.data == st.data && r.labels == st.labels && r.alpha == st.alpha
  {
    var st1 := st.(n := j.n, d := j.d, b := j.b, kernelType := j.kernelType);
    if j.kernelType == "linear" then st1.(w := j.w.value, usew := true, kernel := Linear)
    else if j.kernelType == "rbf" then
      st1.(rbfSigma := j.rbfSigma, kernel := Rbf(j.rbfSigma.value),
           data := j.data.value, labels := j.labels.value, alpha := j.alpha.value)
    else st1
  }

  // ---------------------------------------------------------------------------
  // Properties of training
  // ---------------------------------------------------------------------------

  /**
   * With labels in {+1, -1} and C >= 0: `train` throws only on an empty data
   * set, hangs only on a single sample, and otherwise returns at most
   * `maxiter` iterations with every kept coefficient in [0, C].
   */
  lemma TrainOutcome(st: SvmState, exp: real -> real, data: seq<Vector>, labels: seq<real>, o: Options, partner: (int, int) -> int)
    requires Matrix(data, labels) && PartnerOk(partner, |data|)
    requires Binary(labels) && Configure(o).c >= 0.0
    ensures var t := TrainSpec(st, exp, data, labels, o, partner);
      && (t.result == Failure(TypeError) <==> |data| == 0)
      && (t.result == Failure(NoPartner) ==> |data| == 1)
      && (t.result.Success? ==>
            && 0 <= t.result.value
            && (Configure(o).maxIter >= 0 ==> t.result.value <= Configure(o).maxIter)
            && Box(t.st.alpha, Configure(o).c))
  {
    if |data| > 0 {
      var cfg := Configure(o);
      ConfigureSpec(o);
      var p := ProblemOf(data, labels, o, exp);
      LabelSumZeros(labels, |data|);
      RunSpec(p, cfg, partner, 0, 0, Start(p), 0.0);
      var r := Run(p, cfg, partner, false, 0, 0, Start(p));
      if r.Done? && cfg.kernelType != "linear" {
        SelectSpec(r.s.alpha, r.s.alpha, cfg.alphatol, |data|);
      }
    }
  }

  /** The state a linear training run leaves: aligned rows, the dense weights, and `usew_` iff D > 0. */
  predicate LinearTrained(st: SvmState)
  {
    && Aligned(st) && st.kernelType == "linear" && st.kernel == Linear
    && st.usew == (st.d > 0)
    && st.w == Weights(st.alpha, st.labels, st.data, st.n, st.d)
  }

  /** A completed linear training run keeps the training set and materialises `w[j] = sum_i alpha[i] * labels[i] * data[i][j]`. */
  lemma TrainLinear(st: SvmState, exp: real -> real, data: seq<Vector>, labels: seq<real>, o: Options, partner: (int, int) -> int)
    requires Matrix(data, labels) && PartnerOk(partner, |data|)
    requires Configure(o).kernelType == "linear"
    requires TrainSpec(st, exp, data, labels, o, partner).result.Success?
    ensures var t := TrainSpec(st, exp, data, labels, o, partner);
      && LinearTrained(t.st) && t.st.data == data && t.st.labels == labels && t.st.d == |data[0]|
      && |t.st.w| == t.st.d
      && forall j :: 0 <= j < t.st.d ==> t.st.w[j] == ColumnSum(t.st.alpha, labels, data, |data|, j)
  {
    ConfigureSpec(o);
  }

  /**
   * For a linear SVM the margin through the weights is the kernel-sum margin
   * `b + sum_i alpha[i] * labels[i] * linearKernel(x, data[i])`.
   */
  lemma LinearMarginAgrees(st: SvmState, exp: real -> real, x: Vector)
    requires LinearTrained(st) && |x| == st.d
    ensures Evaluable(Linear, st.alpha, st.labels, st.data, x, st.n)
    ensures CanEvaluate(st, x)
    ensures Margin(st, exp, x) == st.b + KernelSum(Linear, exp, st.alpha, st.labels, st.data, x, st.n)
  {
    DenseMarginAgrees(exp, st.alpha, st.labels, st.data, st.n, x);
    assert x[..st.d] == x;
  }

  /**
   * A completed run with any other kernel keeps, in order, exactly the rows
   * whose final coefficient exceeds `alphatol`, with their labels and
   * coefficients, and sets N to their number.
   */
  lemma TrainCompacts(st: SvmState, exp: real -> real, data: seq<Vector>, labels: seq<real>, o: Options, partner: (int, int) -> int)
    requires Matrix(data, labels) && PartnerOk(partner, |data|)
    requires Configure(o).kernelType != "linear" && |data| > 0
    requires TrainSpec(st, exp, data, labels, o, partner).result.Success?
    ensures var t := TrainSpec(st, exp, data, labels, o, partner);
      var cfg := Configure(o);
      var r := Run(ProblemOf(data, labels, o, exp), cfg, partner, false, 0, 0, Start(ProblemOf(data, labels, o, exp)));
      && r.Done? && |r.s.alpha| == |data|
      && var ks := Kept(r.s.alpha, cfg.alphatol, |data|);
      && t.st.n == |t.st.data| == |t.st.labels| == |t.st.alpha| == |ks|
      && (forall k :: 0 <= k < |ks| ==>
            && ks[k] < |data|
            && t.st.data[k] == data[ks[k]] && t.st.labels[k] == labels[ks[k]]
            && t.st.alpha[k] == r.s.alpha[ks[k]] && t.st.alpha[k] > cfg.alphatol)
      && (forall k, l :: 0 <= k < l < |ks| ==> ks[k] < ks[l])
      && (forall i :: 0 <= i < |data| && r.s.alpha[i] > cfg.alphatol ==> i in ks)
  {
    var cfg := Configure(o);
    ConfigureSpec(o);
    var p := ProblemOf(data, labels, o, exp);
    var r := Run(p, cfg, partner, false, 0, 0, Start(p));
    RunNeverThrows(p, cfg, partner, 0, 0, Start(p));
    SelectSpec(data, r.s.alpha, cfg.alphatol, |data|);
    SelectSpec(labels, r.s.alpha, cfg.alphatol, |data|);
    SelectSpec(r.s.alpha, r.s.alpha, cfg.alphatol, |data|);
  }

  /** A completed RBF run keeps sigma on the object and leaves `usew_` false. */
  lemma TrainRbf(st: SvmState, exp: real -> real, data: seq<Vector>, labels: seq<real>, o: Options, partner: (int, int) -> int)
    requires Matrix(data, labels) && PartnerOk(partner, |data|)
    requires Configure(o).kernelType == "rbf"
    requires TrainSpec(st, exp, data, labels, o, partner).result.Success?
    ensures var t := TrainSpec(st, exp, data, labels, o, partner);
      && t.st.kernelType == "rbf" && t.st.kernel.Rbf? && t.st.rbfSigma == Some(t.st.kernel.sigma)
      && t.st.kernel.sigma != 0.0 && !t.st.usew
  {
    ConfigureSpec(o);
  }

  // ---------------------------------------------------------------------------
  // Properties of snapshots
  // ---------------------------------------------------------------------------

  /** A linear snapshot loaded into any object gives the same margin on every D-dimensional input. */
  lemma LinearRoundTrip(st: SvmState, target: SvmState, exp: real -> real, x: Vector)
    requires LinearTrained(st) && |x| == st.d
    ensures Loadable(SnapshotOf(st))
    ensures CanEvaluate(st, x) && CanEvaluate(Load(target, SnapshotOf(st)), x)
    ensures Margin(Load(target, SnapshotOf(st)), exp, x) == Margin(st, exp, x)
  {
    LinearMarginAgrees(st, exp, x);
    if st.d == 0 {
      KernelSumLinearEmpty(exp, st.alpha, st.labels, st.data, x, st.n);
    }
  }

  lemma {:induction false} KernelSumLinearEmpty(exp: real -> real, alpha: seq<real>, labels: seq<real>, data: seq<Vector>, x: Vector, n: int)
    requires Evaluable(Linear, alpha, labels, data, x, n) && |x| == 0
    ensures KernelSum(Linear, exp, alpha, labels, data, x, n) == 0.0
    decreases n
  {
    if n > 0 {
      KernelSumLinearEmpty(exp, alpha, labels, data, x, n - 1);
    }
  }

  /**
   * An RBF snapshot loaded into an object whose `usew_` is false gives the
   * same margin on every input, and the loaded object has the same support
   * vectors, labels, coefficients, bias and sigma.
   */
  lemma RbfRoundTrip(st: SvmState, target: SvmState, exp: real -> real, x: Vector)
    requires st.kernelType == "rbf" && st.kernel.Rbf? && st.rbfSigma == Some(st.kernel.sigma)
    requires !st.usew && !target.usew && CanEvaluate(st, x)
    ensures Loadable(SnapshotOf(st))
    ensures var st' := Load(target, SnapshotOf(st));
      && st' == st.(w := target.w)
      && CanEvaluate(st', x) && Margin(st', exp, x) == Margin(st, exp, x)
  {
  }

  /** Loading an RBF snapshot leaves `usew_` as it was, so an object that held a linear model keeps using its old weights. */
  lemma RbfLoadKeepsWeights(target: SvmState, j: SvmJson)
    requires Loadable(j) && j.kernelType == "rbf"
    ensures Load(target, j).usew == target.usew && Load(target, j).w == target.w
  {
  }

  /** As bundled, `toJSON` throws for every kernel but a custom one; with `json` declared it returns a loadable snapshot. */
  lemma SnapshotAsWrittenThrows(st: SvmState)
    requires st.kernelType != "custom"
    requires st.kernelType == "rbf" ==> st.rbfSigma.Some?
    ensures SnapshotAsWritten(st) == Failure(UndeclaredVariable)
    ensures SnapshotOf(st).Snapshot? && Loadable(SnapshotOf(st))
  {
  }

  // ---------------------------------------------------------------------------
  // The object
  // ---------------------------------------------------------------------------

  /** `SVM`: the fields `train` and `fromJSON` write, with `Math.exp` supplied by the host. */
  class Svm {
    var data: seq<Vector>
    var labels: seq<real>
    var kernelType: string
    var kernel: Kernel
    var rbfSigma: Option<real>
    var n: int
    var d: int
    var alpha: seq<real>
    var b: real
    var usew: bool
    var w: seq<real>
    const exp: real -> real

    function State(): SvmState
      reads this
    {
      SvmState(data, labels, kernelType, kernel, rbfSigma, n, d, alpha, b, usew, w)
    }

    constructor(exp: real -> real)
      ensures State() == Fresh() && this.exp == exp
    {
      data, labels, kernelType, kernel, rbfSigma := [], [], "", Linear, None;
      n, d, alpha, b, usew, w := 0, 0, [], 0.0, false, [];
      this.exp := exp;
    }

    /** `marginOne(inst)`: the bias plus either `inst . w` over D coordinates or the kernel sum over N rows. */
    method MarginOne(x: Vector) returns (f: real)
      requires CanEvaluate(State(), x)
      ensures f == Margin(State(), exp, x)
    {
      f := b;
      if usew {
        var j := 0;
        while j < d
          invariant 0 <= j <= d
          invariant f == b + LinearKernel(x[..j], w)
        {
          assert x[..j + 1][..j] == x[..j];
          f := f + x[j] * w[j];
          j := j + 1;
        }
      } else {
        var i := 0;
        while i < n
          invariant 0 <= i && (i <= n || i == 0)
          invariant f == b + KernelSum(kernel, exp, alpha, labels, data, x, i)
        {
          f := f + alpha[i] * labels[i] * Apply(kernel, exp, x, data[i]);
          i := i + 1;
        }
      }
    }

    /** `predictOne(inst)`: +1 exactly when the margin is positive, else -1. */
    method PredictOne(x: Vector) returns (r: real)
      requires CanEvaluate(State(), x)
      ensures r == 1.0 <==> Margin(State(), exp, x) > 0.0
      ensures r == -1.0 <==> Margin(State(), exp, x) <= 0.0
    {
      var m := MarginOne(x);
      r := if m > 0.0 then 1.0 else -1.0;
    }

    /** `margins(data)`: one margin per row, in order. */
    method Margins(xs: seq<Vector>) returns (m: seq<real>)
      requires forall i :: 0 <= i < |xs| ==> CanEvaluate(State(), xs[i])
      ensures |m| == |xs|
      ensures forall i :: 0 <= i < |xs| ==> m[i] == Margin(State(), exp, xs[i])
    {
      m := [];
      var i := 0;
      while i < |xs|
        invariant 0 <= i <= |xs| && |m| == i
        invariant forall k :: 0 <= k < i ==> m[k] == Margin(State(), exp, xs[k])
      {
        var f := MarginOne(xs[i]);
        m := m + [f];
        i := i + 1;
      }
    }

    /** `predict(data)`: the margins, each replaced in place by its sign. */
    method Predict(xs: seq<Vector>) returns (p: seq<real>)
      requires forall i :: 0 <= i < |xs| ==> CanEvaluate(State(), xs[i])
      ensures |p| == |xs|
      ensures forall i :: 0 <= i < |xs| ==> p[i] == Sign(Margin(State(), exp, xs[i]))
    {
      p := Margins(xs);
      var i := 0;
      while i < |p|
        invariant 0 <= i <= |p| == |xs|
        invariant forall k :: 0 <= k < i ==> p[k] == Sign(Margin(State(), exp, xs[k]))
        invariant forall k :: i <= k < |xs| ==> p[k] == Margin(State(), exp, xs[k])
      {
        p := p[i := if p[i] > 0.0 then 1.0 else -1.0];
        i := i + 1;
      }
    }

    /** `sum_i alpha[i] * labels[i] * data[i][j]` over the first N rows. */
    method SumColumn(j: nat) returns (s: real)
      requires n <= |alpha| && n <= |labels| && n <= |data|
      requires forall i :: 0 <= i < n ==> j < |data[i]|
      ensures s == ColumnSum(alpha, labels, data, n, j)
    {
      s := 0.0;
      var i := 0;
      while i < n
        invariant 0 <= i && (i <= n || i == 0)
        invariant s == ColumnSum(alpha, labels, data, i, j)
      {
        s := s + alpha[i] * labels[i] * data[i][j];
        i := i + 1;
      }
    }

    /** `getWeights()`: the dense weights `w[j] = sum_i alpha[i] * labels[i] * data[i][j]` for j < D, and `b`. */
    method GetWeights() returns (wt: seq<real>, bias: real)
      requires 0 <= d && Columns(alpha, labels, data, n, d)
      ensures |wt| == d && forall j :: 0 <= j < d ==> wt[j] == ColumnSum(alpha, labels, data, n, j)
      ensures wt == Weights(alpha, labels, data, n, d) && bias == b
    {
      wt := [];
      var j := 0;
      while j < d
        invariant 0 <= j <= d && |wt| == j
        invariant forall k :: 0 <= k < j ==> wt[k] == ColumnSum(alpha, labels, data, n, k)
      {
        var s := SumColumn(j);
        wt := wt + [s];
        j := j + 1;
      }
      bias := b;
    }

    /** The fields `train` reads during the loop agree with the problem `p`, and `usew_` is off. */
    ghost predicate Solving(p: Problem)
      reads this
    {
      && p.data == data && p.labels == labels && p.kernel == kernel && p.exp == exp
      && n == |data| && !usew && Fits(p, Solver(alpha, b))
    }

    /**
     * The arithmetic of the pair update (dist/index.umd.js:99-132) with `ai`
     * and `aj` declared: `false` where one of the three tests continues with
     * the next example, else the new `alpha[i]`, `alpha[j]` and `b`. The
     * imperative counterpart of `Smo.PairUpdate`, which its contract names.
     */
    static method PairStep(c: real, yi: real, yj: real, ai: real, aj: real, ei: real, ej: real,
                           kii: real, kij: real, kjj: real, b: real)
      returns (applied: bool, newai: real, newaj: real, newb: real)
      ensures applied <==> PairUpdate(c, yi, yj, ai, aj, ei, ej, kii, kij, kjj, b).Some?
      ensures applied ==> PairUpdate(c, yi, yj, ai, aj, ei, ej, kii, kij, kjj, b).value == Update(newai, newaj, newb)
    {
      newai, newaj, newb := ai, aj, b;
      var lo, hi := 0.0, c;
      if yi == yj {
        lo, hi := Max(0.0, ai + aj - c), Min(c, ai + aj);
      } else {
        lo, hi := Max(0.0, aj - ai), Min(c, c + aj - ai);
      }
      assert (lo, hi) == Bounds(c, yi, yj, ai, aj);
      if Abs(lo - hi) < MinStep {
        return false, newai, newaj, newb;
      }
      var eta := 2.0 * kij - kii - kjj;
      if eta >= 0.0 {
        return false, newai, newaj, newb;
      }
      newaj := aj - yj * (ei - ej) / eta;
      if newaj > hi {
        newaj := hi;
      }
      if newaj < lo {
        newaj := lo;
      }
      assert newaj == Clip(aj - yj * (ei - ej) / eta, lo, hi);
      if Abs(aj - newaj) < MinStep {
        return false, newai, newaj, newb;
      }
      PairUpdateAccepted(c, yi, yj, ai, aj, ei, ej, kii, kij, kjj, b, lo, hi, newaj);
      newai, newb := Accept(c, yi, yj, ai, aj, ei, ej, kii, kij, kjj, b, newaj);
      applied := true;
    }

    /** The accepted step (dist/index.umd.js:121-132): `alpha[i]` moves against `alpha[j]`, then the bias; it computes `Smo.NewAlphaI` and `Smo.BiasAfter`. */
    static method Accept(c: real, yi: real, yj: real, ai: real, aj: real, ei: real, ej: real,
                         kii: real, kij: real, kjj: real, b: real, newaj: real)
      returns (newai: real, newb: real)
      ensures newai == NewAlphaI(yi, yj, ai, aj, newaj)
      ensures newb == BiasAfter(c, yi, yj, ai, aj, ei, ej, kii, kij, kjj, b, newai, newaj)
    {
      newai := ai + yi * yj * (aj - newaj);
      var b1 := b - ei - yi * (newai - ai) * kii - yj * (newaj - aj) * kij;
      var b2 := b - ej - yi * (newai - ai) * kij - yj * (newaj - aj) * kjj;
      newb := ChooseBias(b1, b2, newai, newaj, c);
      BiasAfterIs(c, yi, yj, ai, aj, ei, ej, kii, kij, kjj, b, newai, newaj, b1, b2);
    }

    /** `b = 0.5 * (b1 + b2)`, then `b1` if the new `alpha[i]` is strictly inside (0, C), then `b2` if the new `alpha[j]` is; it computes `Smo.NewBias`. */
    static method ChooseBias(b1: real, b2: real, newai: real, newaj: real, c: real) returns (newb: real)
      ensures newb == NewBias(b1, b2, newai, newaj, c)
    {
      newb := 0.5 * (b1 + b2);
      if newai > 0.0 && newai < c {
        newb := b1;
      }
      if newaj > 0.0 && newaj < c {
        newb := b2;
      }
    }

    /**
     * Example i of a sweep (dist/index.umd.js:88-137): the KKT test, the
     * partner, the pair update written to `alpha[j]`, `alpha[i]` and `b`.
     * `stuck` when a lone sample must look for a partner forever.
     */
    method Examine(ghost p: Problem, cfg: Config, partner: (int, int) -> int, iter: int, i: nat, changed: nat)
      returns (changed': nat, stuck: bool)
      requires Solving(p) && i < n && PartnerOk(partner, |p.data|)
      modifies this`alpha, this`b
      ensures Solving(p)
      ensures var pr := StepAt(p, cfg, partner, false, iter, Running(old(Solver(alpha, b)), changed), i);
        (stuck <==> pr.Stuck?) && (!stuck ==> pr == Running(Solver(alpha, b), changed'))
    {
      var s := Solver(alpha, b);
      RowsEvaluable(p, s, i);
      var fi := MarginOne(data[i]);
      assert fi == TrainingMargin(p, s, i);
      var ei := fi - labels[i];
      changed', stuck := changed, false;
      if (labels[i] * ei < -cfg.tol && alpha[i] < cfg.c) || (labels[i] * ei > cfg.tol && alpha[i] > 0.0) {
        if n < 2 {
          stuck := true;
          return;
        }
        assert Violates(cfg.c, cfg.tol, p.labels[i], TrainingMargin(p, s, i) - p.labels[i], s.alpha[i]);
        StepAtPair(p, cfg, partner, iter, s, changed, i);
        var j := partner(iter, i);
        var applied := TryPair(p, cfg.c, i, j, ei);
        if applied {
          changed' := changed + 1;
        }
      } else {
        StepAtQuiet(p, cfg, partner, iter, s, changed, i);
      }
    }

    /**
     * The pair step of examples i and j (dist/index.umd.js:93-133), given
     * example i's error: `applied` when `alpha[i]`, `alpha[j]` and `b` are
     * rewritten, otherwise nothing changes.
     */
    method TryPair(ghost p: Problem, c: real, i: nat, j: nat, ei: real) returns (applied: bool)
      requires Solving(p) && i < n && j < n && i != j
      requires ei == TrainingMargin(p, Solver(alpha, b), i) - labels[i]
      modifies this`alpha, this`b
      ensures Solving(p)
      ensures var r := Pair(p, c, old(Solver(alpha, b)), i, j);
        (applied <==> r.Some?) && Solver(alpha, b) == if applied then r.value else old(Solver(alpha, b))
    {
      ghost var s := Solver(alpha, b);
      RowsEvaluable(p, s, j);
      var fj := MarginOne(data[j]);
      assert fj == TrainingMargin(p, s, j);
      var ej := fj - labels[j];
      var kii, kij, kjj := Apply(kernel, exp, data[i], data[i]), Apply(kernel, exp, data[i], data[j]), Apply(kernel, exp, data[j], data[j]);
      assert kii == Kij(p, i, i) && kij == Kij(p, i, j) && kjj == Kij(p, j, j);
      var newai, newaj, newb;
      applied, newai, newaj, newb := PairStep(c, labels[i], labels[j], alpha[i], alpha[j], ei, ej, kii, kij, kjj, b);
      PairIs(p, c, s, i, j);
      if applied {
        alpha := alpha[j := newaj];
        alpha := alpha[i := newai];
        b := newb;
      }
    }

    /** One sweep over the examples; `stuck` as in `Examine`. */
    method Sweep(ghost p: Problem, cfg: Config, partner: (int, int) -> int, iter: int) returns (changed: nat, stuck: bool)
      requires Solving(p) && PartnerOk(partner, |p.data|)
      modifies this`alpha, this`b
      ensures Solving(p)
      ensures var pr := SweepUpTo(p, cfg, partner, false, iter, old(Solver(alpha, b)), |p.data|);
        && (stuck <==> pr.Stuck?)
        && (!stuck ==> pr == Running(Solver(alpha, b), changed))
    {
      ghost var s0 := Solver(alpha, b);
      changed, stuck := 0, false;
      var i := 0;
      while i < n
        invariant 0 <= i <= n
        invariant Solving(p)
        invariant SweepUpTo(p, cfg, partner, false, iter, s0, i) == Running(Solver(alpha, b), changed)
      {
        SweepUpToNext(p, cfg, partner, false, iter, s0, i);
        changed, stuck := Examine(p, cfg, partner, iter, i, changed);
        if stuck {
          SweepStuckStays(p, cfg, partner, false, iter, s0, i + 1, |p.data|);
          return;
        }
        i := i + 1;
      }
    }

    /** The linear branch after the loop (dist/index.umd.js:149-160): dense weights, and `usew_` once a column is stored. */
    method StoreWeights()
      requires 0 <= d && Columns(alpha, labels, data, n, d)
      modifies this`w, this`usew
      ensures w == Weights(alpha, labels, data, n, d) && usew == (old(usew) || d > 0)
    {
      var wt: seq<real> := [];
      var j := 0;
      while j < d
        invariant 0 <= j <= d && |wt| == j
        invariant usew == (old(usew) || j > 0)
        invariant forall k :: 0 <= k < j ==> wt[k] == ColumnSum(alpha, labels, data, n, k)
      {
        var s := SumColumn(j);
        wt := wt + [s];
        usew := true;
        j := j + 1;
      }
      w := wt;
    }

    /** The other branch (dist/index.umd.js:161-186): only the examples with `alpha[i] > alphatol` are kept. */
    method Compact(alphatol: real)
      requires n == |data| == |labels| == |alpha|
      modifies this`data, this`labels, this`alpha, this`n
      ensures data == Select(old(data), old(alpha), alphatol, old(n))
      ensures labels == Select(old(labels), old(alpha), alphatol, old(n))
      ensures alpha == Select(old(alpha), old(alpha), alphatol, old(n))
      ensures n == |data|
    {
      var newdata, newlabels, newalpha := [], [], [];
      var i := 0;
      while i < n
        invariant 0 <= i <= n
        invariant newdata == Select(data, alpha, alphatol, i)
        invariant newlabels == Select(labels, alpha, alphatol, i)
        invariant newalpha == Select(alpha, alpha, alphatol, i)
      {
        if alpha[i] > alphatol {
          newdata, newlabels, newalpha := newdata + [data[i]], newlabels + [labels[i]], newalpha + [alpha[i]];
        }
        i := i + 1;
      }
      data, labels, alpha := newdata, newlabels, newalpha;
      n := |data|;
    }

    /** The code after the loop (dist/index.umd.js:149-187). */
    method Finalize(alphatol: real)
      requires Aligned(State())
      modifies this
      ensures State() == Finish(old(State()), alphatol)
    {
      if kernelType == "linear" {
        AlignedColumns(State());
        StoreWeights();
      } else {
        Compact(alphatol);
      }
    }

    /**
     * The outer loop (dist/index.umd.js:83-147) from `iter = passes = 0`:
     * sweeps until `numpasses` quiet sweeps in a row or `maxiter` sweeps;
     * `stuck` exactly when training never ends, otherwise the solver state is
     * the one `Run` ends in after `iter` sweeps.
     */
    method Solve(ghost p: Problem, cfg: Config, partner: (int, int) -> int) returns (iter: int, stuck: bool)
      requires Solving(p) && PartnerOk(partner, |p.data|)
      requires !Run(p, cfg, partner, false, 0, 0, Solver(alpha, b)).ReferenceError?
      modifies this`alpha, this`b
      ensures Solving(p)
      ensures var o := Run(p, cfg, partner, false, 0, 0, old(Solver(alpha, b)));
        (stuck <==> o.Diverges?) && (!stuck ==> o.s == Solver(alpha, b) && o.iters == iter)
    {
      ghost var o := Run(p, cfg, partner, false, 0, 0, Solver(alpha, b));
      var passes := 0;
      iter, stuck := 0, false;
      while passes < cfg.numPasses && iter < cfg.maxIter
        invariant Solving(p)
        invariant Run(p, cfg, partner, false, iter, passes, Solver(alpha, b)) == o
        decreases cfg.maxIter - iter
      {
        var changed;
        changed, stuck := Sweep(p, cfg, partner, iter);
        if stuck {
          return;
        }
        iter := iter + 1;
        if changed == 0 {
          passes := passes + 1;
        } else {
          passes := 0;
        }
      }
    }

    /** The start of `train` (dist/index.umd.js:40-76): the data, labels, kernel options and `N` are stored. */
    method ApplyOptions(data: seq<Vector>, labels: seq<real>, cfg: Config)
      modifies this`data, this`labels, this`kernelType, this`rbfSigma, this`kernel, this`n
      ensures State() == Configured(old(State()), data, labels, cfg)
    {
      this.data, this.labels := data, labels;
      kernelType := cfg.kernelType;
      if cfg.rbfSigma.Some? {
        rbfSigma := cfg.rbfSigma;
      }
      kernel := cfg.kernel;
      n := |data|;
    }

    /** The solver's initial state (dist/index.umd.js:77-80): `D`, `alpha = zeros(N)`, `b = 0`, `usew_ = false`. */
    method Reset(dim: int)
      requires 0 <= n
      modifies this`d, this`alpha, this`b, this`usew
      ensures State() == old(State()).(d := dim, alpha := Zeros(n), b := 0.0, usew := false)
    {
      d := dim;
      alpha := Zeros(n);
      b := 0.0;
      usew := false;
    }

    /**
     * `train(data, labels, options)` with `ai` and `aj` declared: the state and
     * result of `TrainSpec`, except that where the source never returns the
     * method reports `NoPartner`.
     */
    method Train(data: seq<Vector>, labels: seq<real>, o: Options, partner: (int, int) -> int)
      returns (r: Result<int, TrainError>)
      requires Matrix(data, labels) && PartnerOk(partner, |data|)
      modifies this
      ensures var t := TrainSpec(old(State()), exp, data, labels, o, partner);
        r == t.result && (r != Failure(NoPartner) ==> State() == t.st)
    {
      var cfg := Configure(o);
      ConfigureSpec(o);
      ghost var st0 := State();
      ApplyOptions(data, labels, cfg);
      if |data| == 0 {
        return Failure(TypeError);
      }
      Reset(|data[0]|);
      ghost var st2 := State();
      assert st2 == Configured(st0, data, labels, cfg).(d := |data[0]|, alpha := Zeros(|data|), b := 0.0, usew := false);
      ghost var p := ProblemOf(data, labels, o, exp);
      RunNeverThrows(p, cfg, partner, 0, 0, Start(p));
      var iter, stuck := Solve(p, cfg, partner);
      if stuck {
        return Failure(NoPartner);
      }
      assert State() == st2.(alpha := alpha, b := b);
      Finalize(cfg.alphatol);
      return Success(iter);
    }

    /** `toJSON()` with `json` declared: `SnapshotOf` of the object's fields. */
    function ToJson(): (j: SvmJson)
      reads this
      ensures j == SnapshotOf(State())
    {
      if kernelType == "custom" then Empty
      else if kernelType == "linear" then Snapshot(n, d, b, kernelType, Some(w), None, None, None, None)
      else if kernelType == "rbf" then Snapshot(n, d, b, kernelType, None, rbfSigma, Some(data), Some(labels), Some(alpha))
      else Snapshot(n, d, b, kernelType, None, None, None, None, None)
    }

    /** `toJSON()` as bundled. */
    function ToJsonAsWritten(): (r: Result<SvmJson, JsonError>)
      reads this
      ensures r == SnapshotAsWritten(State())
    {
      if kernelType == "custom" then Success(Empty) else Failure(UndeclaredVariable)
    }

    /** `fromJSON(json)`. */
    method FromJson(j: SvmJson)
      requires Loadable(j)
      modifies this
      ensures State() == Load(old(State()), j)
    {
      ghost var st1 := old(State()).(n := j.n, d := j.d, b := j.b, kernelType := j.kernelType);
      n, d, b, kernelType := j.n, j.d, j.b, j.kernelType;
      assert State() == st1;
      if j.kernelType == "linear" {
        w, usew, kernel := j.w.value, true, Linear;
        assert State() == st1.(w := j.w.value, usew := true, kernel := Linear);
      } else if j.kernelType == "rbf" {
        rbfSigma, kernel := j.rbfSigma, Rbf(j.rbfSigma.value);
        data, labels, alpha := j.data.value, j.labels.value, j.alpha.value;
      }
    }
  }
}
