/**
 * The Simplified SMO solver behind `SVM.prototype.train`
 * (dist/index.umd.js:37-192), stated on values. The class in svm.dfy runs the
 * same loops in place and is proved to end in the state these functions give.
 *
 * The random partner `j = randi(0, N)`, redrawn until `j != i`
 * (dist/index.umd.js:95-96, 340-342), is an oracle `partner(iter, i)`: each
 * pair (outer iteration, sample) draws at most once, so every sequence of
 * draws is some such function, and `PartnerOk` says it returns a valid index.
 */
module Smo {
  import opened Wrappers
  import opened Kernels

  // ---------------------------------------------------------------------------
  // Options (dist/index.umd.js:43-72)
  // ---------------------------------------------------------------------------

  /** `options.kernel`: a name or a caller's function. */
  datatype KernelOption = Named(name: string) | Function(f: (Vector, Vector) -> real)

  /** The options object; `None` is an absent key. */
  datatype Options = Options(
    c: Option<real>, tol: Option<real>, alphatol: Option<real>,
    maxiter: Option<int>, numpasses: Option<int>,
    kernel: Option<KernelOption>, rbfsigma: Option<real>)

  /** The solver's settings once defaults are applied. `rbfSigma` is `Some` only when `this.rbfSigma` is written. */
  datatype Config = Config(
    c: real, tol: real, alphatol: real, maxIter: int, numPasses: int,
    kernel: Kernel, kernelType: string, rbfSigma: Option<real>)

  const DefaultC: real := 1.0
  const DefaultTol: real := 0.0001
  const DefaultAlphaTol: real := 0.0000001
  const DefaultMaxIter: int := 10000
  const DefaultNumPasses: int := 10
  const DefaultRbfSigma: real := 0.5

  /** Option defaults are read with `||`, so 0 is replaced by the default. */
  function Configure(o: Options): (cfg: Config)
    ensures cfg.kernel.Rbf? <==> cfg.kernelType == "rbf"
    ensures cfg.kernel.Custom? <==> cfg.kernelType == "custom"
    ensures cfg.kernel.Rbf? ==> cfg.kernel.sigma != 0.0
  {
    var base := Config(
      OrDefault(o.c, DefaultC), OrDefault(o.tol, DefaultTol), OrDefault(o.alphatol, DefaultAlphaTol),
      OrDefaultInt(o.maxiter, DefaultMaxIter), OrDefaultInt(o.numpasses, DefaultNumPasses),
      Linear, "linear", None);
    match o.kernel
    case None => base
    case Some(Function(f)) => base.(kernel := Custom(f), kernelType := "custom")
    case Some(Named(name)) =>
      if name == "rbf" then
        var sigma := OrDefault(o.rbfsigma, DefaultRbfSigma);
        base.(kernel := Rbf(sigma), kernelType := "rbf", rbfSigma := Some(sigma))
      else base
  }

  /**
   * The kernel tag matches the kernel; an unknown kernel name keeps the linear
   * kernel; the RBF width is never 0; a zero `alphatol` or `C` is read as the
   * default, so truncation cannot be switched off.
   */
  lemma ConfigureSpec(o: Options)
    ensures var cfg := Configure(o);
      && (cfg.kernelType == "linear" <==> cfg.kernel.Linear?)
      && (cfg.kernelType == "rbf" <==> cfg.kernel.Rbf?)
      && (cfg.kernelType == "custom" <==> cfg.kernel.Custom?)
      && (cfg.kernel.Rbf? ==> cfg.kernel.sigma != 0.0 && cfg.rbfSigma == Some(cfg.kernel.sigma))
      && (!cfg.kernel.Rbf? ==> cfg.rbfSigma.None?)
      && (o.kernel.Some? && o.kernel.value.Named? && o.kernel.value.name != "rbf" ==> cfg.kernel.Linear?)
      && (o.alphatol.None? || o.alphatol.value >= 0.0 ==> cfg.alphatol > 0.0)
      && (o.alphatol == Some(0.0) ==> cfg.alphatol == DefaultAlphaTol)
      && (o.c == Some(0.0) ==> cfg.c == DefaultC)
  {
  }

  // ---------------------------------------------------------------------------
  // The training problem and the margin during training
  // ---------------------------------------------------------------------------

  /** The training set, the kernel and `Math.exp`. */
  datatype Problem = Problem(data: seq<Vector>, labels: seq<real>, kernel: Kernel, exp: real -> real)

  /** An N x D data set with one label per row, and a kernel that applies to its rows. */
  predicate WellShaped(p: Problem)
  {
    && |p.labels| == |p.data|
    && (forall i :: 0 <= i < |p.data| ==> |p.data[i]| == |p.data[0]|)
    && (p.kernel.Rbf? ==> p.kernel.sigma != 0.0)
  }

  /** What `marginOne` needs to evaluate the kernel sum over the first `n` samples. */
  predicate Evaluable(k: Kernel, alpha: seq<real>, labels: seq<real>, data: seq<Vector>, x: Vector, n: int)
  {
    && n <= |alpha| && n <= |labels| && n <= |data|
    && forall i :: 0 <= i < n ==> Applicable(k, x, data[i])
  }

  /** Sum over i < n of `alpha[i] * labels[i] * kernel(x, data[i])` (dist/index.umd.js:214-216). */
  function KernelSum(k: Kernel, exp: real -> real, alpha: seq<real>, labels: seq<real>, data: seq<Vector>, x: Vector, n: int): real
    requires Evaluable(k, alpha, labels, data, x, n)
    decreases n
  {
    if n <= 0 then 0.0
    else KernelSum(k, exp, alpha, labels, data, x, n - 1) + alpha[n - 1] * labels[n - 1] * Apply(k, exp, x, data[n - 1])
  }

  /** The solver state: `this.alpha` and `this.b`. */
  datatype Solver = Solver(alpha: seq<real>, b: real)

  predicate Fits(p: Problem, s: Solver)
  {
    WellShaped(p) && |s.alpha| == |p.data|
  }

  lemma RowsEvaluable(p: Problem, s: Solver, i: nat)
    requires Fits(p, s) && i < |p.data|
    ensures Evaluable(p.kernel, s.alpha, p.labels, p.data, p.data[i], |p.data|)
  {
  }

  /** `marginOne(data[i])` during training, when `usew_` is still false. */
  function TrainingMargin(p: Problem, s: Solver, i: nat): real
    requires Fits(p, s) && i < |p.data|
  {
    RowsEvaluable(p, s, i);
    s.b + KernelSum(p.kernel, p.exp, s.alpha, p.labels, p.data, p.data[i], |p.data|)
  }

  /** `K(data[i], data[j])`. */
  function Kij(p: Problem, i: nat, j: nat): real
    requires WellShaped(p) && i < |p.data| && j < |p.data|
  {
    Apply(p.kernel, p.exp, p.data[i], p.data[j])
  }

  // ---------------------------------------------------------------------------
  // One pair update (dist/index.umd.js:90-137)
  // ---------------------------------------------------------------------------

  /** The KKT test of dist/index.umd.js:91-92 for label `y`, error `e` and coefficient `a`. */
  predicate Violates(c: real, tol: real, y: real, e: real, a: real)
  {
    (y * e < -tol && a < c) || (y * e > tol && a > 0.0)
  }

  function Max(a: real, b: real): real { if a >= b then a else b }
  function Min(a: real, b: real): real { if a <= b then a else b }

  /** The box `[L, H]` for the new `alpha[j]` (dist/index.umd.js:102-109). */
  function Bounds(c: real, yi: real, yj: real, ai: real, aj: real): (real, real)
  {
    if yi == yj then (Max(0.0, ai + aj - c), Min(c, ai + aj))
    else (Max(0.0, aj - ai), Min(c, c + aj - ai))
  }

  /** `if (v > H) v = H; if (v < L) v = L;` */
  function Clip(v: real, lo: real, hi: real): real
  {
    var w := if v > hi then hi else v;
    if w < lo then lo else w
  }

  /** The bias after an update (dist/index.umd.js:130-132): the average, unless a new alpha is strictly inside the box. */
  function NewBias(b1: real, b2: real, newai: real, newaj: real, c: real): real
  {
    var b := 0.5 * (b1 + b2);
    var b' := if newai > 0.0 && newai < c then b1 else b;
    if newaj > 0.0 && newaj < c then b2 else b'
  }

  /** The minimum step: `Math.abs(L - H) < 1e-4` and `Math.abs(aj - newaj) < 1e-4` skip the pair. */
  const MinStep: real := 0.0001

  /** New values for `alpha[i]`, `alpha[j]` and `b`. */
  datatype Update = Update(ai: real, aj: real, b: real)

  /**
   * The arithmetic of one pair update (dist/index.umd.js:99-132) from the
   * labels, coefficients and errors of i and j, the three kernel values and the
   * bias; `None` when one of the three tests skips the pair.
   */
  function PairUpdate(c: real, yi: real, yj: real, ai: real, aj: real, ei: real, ej: real,
                      kii: real, kij: real, kjj: real, b: real): Option<Update>
  {
    var (lo, hi) := Bounds(c, yi, yj, ai, aj);
    if Abs(lo - hi) < MinStep then None
    else
      var eta := 2.0 * kij - kii - kjj;
      if eta >= 0.0 then None
      else
        var newaj := Clip(aj - yj * (ei - ej) / eta, lo, hi);
        if Abs(aj - newaj) < MinStep then None
        else
          var newai := NewAlphaI(yi, yj, ai, aj, newaj);
          Some(Update(newai, newaj, BiasAfter(c, yi, yj, ai, aj, ei, ej, kii, kij, kjj, b, newai, newaj)))
  }

  /** `newai = ai + labels[i] * labels[j] * (aj - newaj)` (dist/index.umd.js:123). */
  function NewAlphaI(yi: real, yj: real, ai: real, aj: real, newaj: real): real
  {
    ai + yi * yj * (aj - newaj)
  }

  /** The candidate biases `b1` and `b2` and the choice between them (dist/index.umd.js:127-132). */
  function BiasAfter(c: real, yi: real, yj: real, ai: real, aj: real, ei: real, ej: real,
                     kii: real, kij: real, kjj: real, b: real, newai: real, newaj: real): real
  {
    var b1 := b - ei - yi * (newai - ai) * kii - yj * (newaj - aj) * kij;
    var b2 := b - ej - yi * (newai - ai) * kij - yj * (newaj - aj) * kjj;
    NewBias(b1, b2, newai, newaj, c)
  }

  /** When none of the three tests skips the pair, the update is the clipped `alpha[j]`, the derived `alpha[i]` and the chosen bias. */
  lemma PairUpdateAccepted(c: real, yi: real, yj: real, ai: real, aj: real, ei: real, ej: real,
                           kii: real, kij: real, kjj: real, b: real, lo: real, hi: real, newaj: real)
    requires (lo, hi) == Bounds(c, yi, yj, ai, aj) && !(Abs(lo - hi) < MinStep)
    requires 2.0 * kij - kii - kjj < 0.0
    requires newaj == Clip(aj - yj * (ei - ej) / (2.0 * kij - kii - kjj), lo, hi)
    requires !(Abs(aj - newaj) < MinStep)
    ensures var newai := NewAlphaI(yi, yj, ai, aj, newaj);
      PairUpdate(c, yi, yj, ai, aj, ei, ej, kii, kij, kjj, b)
        == Some(Update(newai, newaj, BiasAfter(c, yi, yj, ai, aj, ei, ej, kii, kij, kjj, b, newai, newaj)))
  {
  }

  lemma BiasAfterIs(c: real, yi: real, yj: real, ai: real, aj: real, ei: real, ej: real,
                    kii: real, kij: real, kjj: real, b: real, newai: real, newaj: real, b1: real, b2: real)
    requires b1 == b - ei - yi * (newai - ai) * kii - yj * (newaj - aj) * kij
    requires b2 == b - ej - yi * (newai - ai) * kij - yj * (newaj - aj) * kjj
    ensures BiasAfter(c, yi, yj, ai, aj, ei, ej, kii, kij, kjj, b, newai, newaj) == NewBias(b1, b2, newai, newaj, c)
  {
  }

  /** The update of the pair (i, j) on the solver state, or `None` when the pair is skipped. */
  function Pair(p: Problem, c: real, s: Solver, i: nat, j: nat): (r: Option<Solver>)
    requires Fits(p, s) && i < |p.data| && j < |p.data| && i != j
    ensures r.Some? ==> |r.value.alpha| == |s.alpha|
  {
    var u := PairUpdate(c, p.labels[i], p.labels[j], s.alpha[i], s.alpha[j],
                        TrainingMargin(p, s, i) - p.labels[i], TrainingMargin(p, s, j) - p.labels[j],
                        Kij(p, i, i), Kij(p, i, j), Kij(p, j, j), s.b);
    match u
    case None => None
    case Some(Update(newai, newaj, b)) => Some(Solver(s.alpha[j := newaj][i := newai], b))
  }

  // ---------------------------------------------------------------------------
  // Sweeps and the outer loop (dist/index.umd.js:83-145)
  // ---------------------------------------------------------------------------

  /** The partner oracle returns another valid index whenever there is one. */
  ghost predicate PartnerOk(partner: (int, int) -> int, n: int)
  {
    n >= 2 ==> forall it: int, i: int :: 0 <= i < n ==> 0 <= partner(it, i) < n && partner(it, i) != i
  }

  /**
   * A sweep in progress: the solver state and `alphaChanged`, or a sweep
   * that never ends (a lone sample violating the KKT test makes
   * `while (j === i)` spin forever), or one that threw.
   */
  datatype Progress = Running(s: Solver, changed: nat) | Stuck | Thrown

  predicate ProgressFits(p: Problem, pr: Progress)
  {
    pr.Running? ==> Fits(p, pr.s)
  }

  /**
   * Example i of the sweep of outer iteration `iter`. With `strict` set, the
   * source as bundled: the assignment to the undeclared `ai` throws a
   * ReferenceError in strict mode (dist/index.umd.js:4, 100).
   */
  function StepAt(p: Problem, cfg: Config, partner: (int, int) -> int, strict: bool, iter: int, pr: Progress, i: nat): (r: Progress)
    requires ProgressFits(p, pr) && i < |p.data| && PartnerOk(partner, |p.data|)
    ensures ProgressFits(p, r)
    ensures r.Thrown? ==> strict || pr.Thrown?
    ensures r.Stuck? ==> |p.data| == 1 || pr.Stuck?
  {
    match pr
    case Running(s, changed) =>
      var ei := TrainingMargin(p, s, i) - p.labels[i];
      if !Violates(cfg.c, cfg.tol, p.labels[i], ei, s.alpha[i]) then pr
      else if |p.data| < 2 then Stuck
      else if strict then Thrown
      else
        (match Pair(p, cfg.c, s, i, partner(iter, i))
         case None => pr
         case Some(s') => Running(s', changed + 1))
    case _ => pr
  }

  /** The first `i` examples of the sweep, starting from `s0` with `alphaChanged = 0`. */
  function SweepUpTo(p: Problem, cfg: Config, partner: (int, int) -> int, strict: bool, iter: int, s0: Solver, i: nat): (r: Progress)
    requires Fits(p, s0) && i <= |p.data| && PartnerOk(partner, |p.data|)
    ensures ProgressFits(p, r)
    decreases i
  {
    if i == 0 then Running(s0, 0)
    else StepAt(p, cfg, partner, strict, iter, SweepUpTo(p, cfg, partner, strict, iter, s0, i - 1), i - 1)
  }

  /** A sweep prefix one longer is one more example step. */
  lemma SweepUpToNext(p: Problem, cfg: Config, partner: (int, int) -> int, strict: bool, iter: int, s0: Solver, i: nat)
    requires Fits(p, s0) && i < |p.data| && PartnerOk(partner, |p.data|)
    ensures SweepUpTo(p, cfg, partner, strict, iter, s0, i + 1)
      == StepAt(p, cfg, partner, strict, iter, SweepUpTo(p, cfg, partner, strict, iter, s0, i), i)
  {
  }

  /** How training ends: the final solver state, `iter` and `passes`; or never; or a thrown ReferenceError. */
  datatype Outcome = Done(s: Solver, iters: int, passes: int) | Diverges | ReferenceError

  /** The outer loop from `iter` and `passes` on. */
  function Run(p: Problem, cfg: Config, partner: (int, int) -> int, strict: bool, iter: int, passes: int, s: Solver): (r: Outcome)
    requires Fits(p, s) && PartnerOk(partner, |p.data|)
    ensures r.Done? ==> Fits(p, r.s)
    ensures r.Done? ==> iter <= r.iters && (r.passes >= cfg.numPasses || r.iters >= cfg.maxIter)
    decreases cfg.maxIter - iter
  {
    if passes < cfg.numPasses && iter < cfg.maxIter then
      match SweepUpTo(p, cfg, partner, strict, iter, s, |p.data|)
      case Running(s', changed) =>
        Run(p, cfg, partner, strict, iter + 1, if changed == 0 then passes + 1 else 0, s')
      case Stuck => Diverges
      case Thrown => ReferenceError
    else Done(s, iter, passes)
  }

  /** The initial state: `alpha = zeros(N)`, `b = 0`. */
  function Start(p: Problem): (s: Solver)
    ensures |s.alpha| == |p.data|
  {
    Solver(Zeros(|p.data|), 0.0)
  }

  // ---------------------------------------------------------------------------
  // After the loop (dist/index.umd.js:149-187)
  // ---------------------------------------------------------------------------

  /** Sum over i < n of `alpha[i] * labels[i] * data[i][j]`. */
  function ColumnSum(alpha: seq<real>, labels: seq<real>, data: seq<Vector>, n: int, j: nat): real
    requires n <= |alpha| && n <= |labels| && n <= |data|
    requires forall i :: 0 <= i < n ==> j < |data[i]|
    decreases n
  {
    if n <= 0 then 0.0
    else ColumnSum(alpha, labels, data, n - 1, j) + alpha[n - 1] * labels[n - 1] * data[n - 1][j]
  }

  /** What the rows must offer for the first `d` weights over `n` samples. */
  predicate Columns(alpha: seq<real>, labels: seq<real>, data: seq<Vector>, n: int, d: int)
  {
    n <= |alpha| && n <= |labels| && n <= |data| && forall i :: 0 <= i < n ==> d <= |data[i]|
  }

  /** The dense weights `w[j] = sum_i alpha[i] * labels[i] * data[i][j]` for j < d. */
  function Weights(alpha: seq<real>, labels: seq<real>, data: seq<Vector>, n: int, d: nat): (w: Vector)
    requires Columns(alpha, labels, data, n, d)
    ensures |w| == d
  {
    seq(d, j requires 0 <= j < d => ColumnSum(alpha, labels, data, n, j))
  }

  /** The entries of `xs` at the indices i < n with `alpha[i] > tol`, in order (the filter of dist/index.umd.js:169-176). */
  function Select<T>(xs: seq<T>, alpha: seq<real>, tol: real, n: nat): (r: seq<T>)
    requires n <= |xs| && n <= |alpha|
    ensures |r| <= n
    decreases n
  {
    if n == 0 then []
    else if alpha[n - 1] > tol then Select(xs, alpha, tol, n - 1) + [xs[n - 1]]
    else Select(xs, alpha, tol, n - 1)
  }

  /** The indices kept by the filter. */
  function Kept(alpha: seq<real>, tol: real, n: nat): seq<nat>
    requires n <= |alpha|
    decreases n
  {
    if n == 0 then []
    else if alpha[n - 1] > tol then Kept(alpha, tol, n - 1) + [n - 1]
    else Kept(alpha, tol, n - 1)
  }

  // ---------------------------------------------------------------------------
  // Properties of one pair update
  // ---------------------------------------------------------------------------

  /** Every coefficient lies in [0, C]. */
  predicate Box(alpha: seq<real>, c: real)
  {
    forall k :: 0 <= k < |alpha| ==> 0.0 <= alpha[k] <= c
  }

  /** Every label is +1 or -1. */
  predicate Binary(labels: seq<real>)
  {
    forall k :: 0 <= k < |labels| ==> labels[k] == 1.0 || labels[k] == -1.0
  }

  /** Sum over k < n of `labels[k] * alpha[k]`, the SMO equality constraint. */
  function LabelSum(alpha: seq<real>, labels: seq<real>, n: nat): real
    requires n <= |alpha| && n <= |labels|
    decreases n
  {
    if n == 0 then 0.0 else LabelSum(alpha, labels, n - 1) + labels[n - 1] * alpha[n - 1]
  }

  /** With both coefficients in [0, C], the bounds satisfy 0 <= L <= H <= C (dist/index.umd.js:102-109). */
  lemma BoundsInBox(c: real, yi: real, yj: real, ai: real, aj: real)
    requires 0.0 <= ai <= c && 0.0 <= aj <= c
    ensures var (lo, hi) := Bounds(c, yi, yj, ai, aj); 0.0 <= lo <= hi <= c
  {
  }

  /** A clipped value lies in a non-empty [L, H]. */
  lemma ClipInBounds(v: real, lo: real, hi: real)
    requires lo <= hi
    ensures lo <= Clip(v, lo, hi) <= hi
  {
  }

  /** The derived `alpha[i]` stays in [0, C] (dist/index.umd.js:118-124). */
  lemma NewAlphaIInBox(c: real, yi: real, yj: real, ai: real, aj: real, newaj: real)
    requires 0.0 <= ai <= c && 0.0 <= aj <= c
    requires yi == 1.0 || yi == -1.0
    requires yj == 1.0 || yj == -1.0
    requires Bounds(c, yi, yj, ai, aj).0 <= newaj <= Bounds(c, yi, yj, ai, aj).1
    ensures 0.0 <= ai + yi * yj * (aj - newaj) <= c
  {
    if yi == yj {
      assert yi * yj == 1.0;
    } else {
      assert yi * yj == -1.0;
    }
  }

  /** The pair update keeps `yi * ai + yj * aj`. */
  lemma PairSumKept(yi: real, yj: real, ai: real, aj: real, newaj: real)
    requires yi == 1.0 || yi == -1.0
    ensures yi * (ai + yi * yj * (aj - newaj)) + yj * newaj == yi * ai + yj * aj
  {
    assert yi * yi == 1.0;
    assert yi * (ai + yi * yj * (aj - newaj)) == yi * ai + (yi * yi) * (yj * (aj - newaj));
    assert yj * (aj - newaj) == yj * aj - yj * newaj;
  }

  lemma {:induction false} LabelSumUpdate(alpha: seq<real>, labels: seq<real>, n: nat, k: nat, v: real)
    requires n <= |alpha| && n <= |labels| && k < |alpha|
    ensures LabelSum(alpha[k := v], labels, n)
      == LabelSum(alpha, labels, n) + (if k < n then labels[k] * v - labels[k] * alpha[k] else 0.0)
    decreases n
  {
    if n > 0 {
      LabelSumUpdate(alpha, labels, n - 1, k, v);
    }
  }

  /**
   * An accepted update keeps both coefficients in [0, C] and
   * `yi * ai + yj * aj`, and moves `alpha[j]` by at least the minimum step.
   */
  lemma PairUpdateSpec(c: real, yi: real, yj: real, ai: real, aj: real, ei: real, ej: real,
                       kii: real, kij: real, kjj: real, b: real)
    requires 0.0 <= ai <= c && 0.0 <= aj <= c
    requires yi == 1.0 || yi == -1.0
    requires yj == 1.0 || yj == -1.0
    requires PairUpdate(c, yi, yj, ai, aj, ei, ej, kii, kij, kjj, b).Some?
    ensures var u := PairUpdate(c, yi, yj, ai, aj, ei, ej, kii, kij, kjj, b).value;
      && 0.0 <= u.ai <= c && 0.0 <= u.aj <= c
      && yi * u.ai + yj * u.aj == yi * ai + yj * aj
      && Abs(u.aj - aj) >= MinStep
  {
    var u := PairUpdate(c, yi, yj, ai, aj, ei, ej, kii, kij, kjj, b).value;
    var (lo, hi) := Bounds(c, yi, yj, ai, aj);
    BoundsInBox(c, yi, yj, ai, aj);
    var eta := 2.0 * kij - kii - kjj;
    ClipInBounds(aj - yj * (ei - ej) / eta, lo, hi);
    NewAlphaIInBox(c, yi, yj, ai, aj, u.aj);
    PairSumKept(yi, yj, ai, aj, u.aj);
  }

  /**
   * Writing new values for `alpha[i]` and `alpha[j]` that lie in [0, C] and
   * keep `yi * ai + yj * aj` keeps the box and the label-weighted sum and no
   * other coefficient changes.
   */
  lemma WritePairSpec(alpha: seq<real>, labels: seq<real>, c: real, i: nat, j: nat, newai: real, newaj: real)
    requires |alpha| == |labels| && i < |alpha| && j < |alpha| && i != j
    requires Box(alpha, c) && 0.0 <= newai <= c && 0.0 <= newaj <= c
    requires labels[i] * newai + labels[j] * newaj == labels[i] * alpha[i] + labels[j] * alpha[j]
    ensures var a' := alpha[j := newaj][i := newai];
      && Box(a', c)
      && LabelSum(a', labels, |alpha|) == LabelSum(alpha, labels, |alpha|)
      && (forall k :: 0 <= k < |alpha| && k != i && k != j ==> a'[k] == alpha[k])
  {
    LabelSumUpdate(alpha, labels, |alpha|, j, newaj);
    LabelSumUpdate(alpha[j := newaj], labels, |alpha|, i, newai);
  }

  /**
   * An accepted update keeps every coefficient in [0, C], keeps the
   * label-weighted sum, changes only `alpha[i]` and `alpha[j]`, and moves
   * `alpha[j]` by at least the minimum step.
   */
  lemma PairSpec(p: Problem, c: real, s: Solver, i: nat, j: nat)
    requires Fits(p, s) && i < |p.data| && j < |p.data| && i != j
    requires Box(s.alpha, c) && Binary(p.labels)
    requires Pair(p, c, s, i, j).Some?
    ensures var s' := Pair(p, c, s, i, j).value;
      && Box(s'.alpha, c)
      && LabelSum(s'.alpha, p.labels, |p.data|) == LabelSum(s.alpha, p.labels, |p.data|)
      && (forall k :: 0 <= k < |s.alpha| && k != i && k != j ==> s'.alpha[k] == s.alpha[k])
      && Abs(s'.alpha[j] - s.alpha[j]) >= MinStep
  {
    var yi, yj := p.labels[i], p.labels[j];
    var ai, aj := s.alpha[i], s.alpha[j];
    var ei, ej := TrainingMargin(p, s, i) - yi, TrainingMargin(p, s, j) - yj;
    var kii, kij, kjj := Kij(p, i, i), Kij(p, i, j), Kij(p, j, j);
    var u := PairUpdate(c, yi, yj, ai, aj, ei, ej, kii, kij, kjj, s.b).value;
    PairUpdateSpec(c, yi, yj, ai, aj, ei, ej, kii, kij, kjj, s.b);
    assert Pair(p, c, s, i, j).value.alpha == s.alpha[j := u.aj][i := u.ai];
    WritePairSpec(s.alpha, p.labels, c, i, j, u.ai, u.aj);
  }

  // ---------------------------------------------------------------------------
  // Properties of sweeps and of the outer loop
  // ---------------------------------------------------------------------------

  /** What a sweep keeps: the box, the label-weighted sum `k`. */
  predicate Kept2(p: Problem, c: real, s: Solver, k: real)
    requires Fits(p, s)
  {
    Box(s.alpha, c) && LabelSum(s.alpha, p.labels, |p.data|) == k
  }

  /** The pair step in terms of the scalar update of the pair's labels, coefficients, errors and kernel values. */
  lemma PairIs(p: Problem, c: real, s: Solver, i: nat, j: nat)
    requires Fits(p, s) && i < |p.data| && j < |p.data| && i != j
    ensures var u := PairUpdate(c, p.labels[i], p.labels[j], s.alpha[i], s.alpha[j],
                                TrainingMargin(p, s, i) - p.labels[i], TrainingMargin(p, s, j) - p.labels[j],
                                Kij(p, i, i), Kij(p, i, j), Kij(p, j, j), s.b);
      Pair(p, c, s, i, j) == if u.Some? then Some(Solver(s.alpha[j := u.value.aj][i := u.value.ai], u.value.b)) else None
  {
  }

  /** An example that fails the KKT test, on two or more samples, takes the pair step with its partner. */
  lemma StepAtPair(p: Problem, cfg: Config, partner: (int, int) -> int, iter: int, s: Solver, changed: nat, i: nat)
    requires Fits(p, s) && i < |p.data| && PartnerOk(partner, |p.data|)
    requires Violates(cfg.c, cfg.tol, p.labels[i], TrainingMargin(p, s, i) - p.labels[i], s.alpha[i]) && |p.data| >= 2
    ensures StepAt(p, cfg, partner, false, iter, Running(s, changed), i)
      == match Pair(p, cfg.c, s, i, partner(iter, i))
         case None => Running(s, changed)
         case Some(s') => Running(s', changed + 1)
  {
  }

  /** An example that passes the KKT test changes nothing. */
  lemma StepAtQuiet(p: Problem, cfg: Config, partner: (int, int) -> int, iter: int, s: Solver, changed: nat, i: nat)
    requires Fits(p, s) && i < |p.data| && PartnerOk(partner, |p.data|)
    requires !Violates(cfg.c, cfg.tol, p.labels[i], TrainingMargin(p, s, i) - p.labels[i], s.alpha[i])
    ensures StepAt(p, cfg, partner, false, iter, Running(s, changed), i) == Running(s, changed)
  {
  }

  /**
   * What holds after part of a sweep that started from `s0`: nothing threw,
   * only a lone sample can spin, and a running sweep keeps the box and the
   * label-weighted sum `k` and has changed nothing while `alphaChanged` is 0.
   */
  predicate SweepOk(p: Problem, c: real, s0: Solver, k: real, pr: Progress)
    requires ProgressFits(p, pr)
  {
    && !pr.Thrown?
    && (pr.Stuck? ==> |p.data| == 1)
    && (pr.Running? ==> Kept2(p, c, pr.s, k) && (pr.changed == 0 ==> pr.s == s0))
  }

  /**
   * One example of a sweep keeps `SweepOk`: the state and count are unchanged
   * unless a pair update is applied, and then the count grows by one and the
   * update keeps the box and the label-weighted sum.
   */
  lemma StepAtSpec(p: Problem, cfg: Config, partner: (int, int) -> int, iter: int, s0: Solver, k: real, pr: Progress, i: nat)
    requires ProgressFits(p, pr) && i < |p.data| && PartnerOk(partner, |p.data|)
    requires Binary(p.labels) && SweepOk(p, cfg.c, s0, k, pr)
    ensures SweepOk(p, cfg.c, s0, k, StepAt(p, cfg, partner, false, iter, pr, i))
  {
    if pr.Running? {
      var s := pr.s;
      var ei := TrainingMargin(p, s, i) - p.labels[i];
      if Violates(cfg.c, cfg.tol, p.labels[i], ei, s.alpha[i]) && |p.data| >= 2 {
        var j := partner(iter, i);
        if Pair(p, cfg.c, s, i, j).Some? {
          PairSpec(p, cfg.c, s, i, j);
        }
      }
    }
  }

  /** Every prefix of a sweep, and so the whole sweep, satisfies `SweepOk`. */
  lemma {:induction false} SweepSpec(p: Problem, cfg: Config, partner: (int, int) -> int, iter: int, s0: Solver, i: nat, k: real)
    requires Fits(p, s0) && i <= |p.data| && PartnerOk(partner, |p.data|)
    requires Binary(p.labels) && Kept2(p, cfg.c, s0, k)
    ensures SweepOk(p, cfg.c, s0, k, SweepUpTo(p, cfg, partner, false, iter, s0, i))
    decreases i
  {
    if i > 0 {
      SweepSpec(p, cfg, partner, iter, s0, i - 1, k);
      StepAtSpec(p, cfg, partner, iter, s0, k, SweepUpTo(p, cfg, partner, false, iter, s0, i - 1), i - 1);
    }
  }

  /**
   * The outer loop keeps the box and the label-weighted sum, ends with either
   * `numpasses` quiet sweeps in a row or `maxiter` sweeps, returns at most
   * `maxiter` iterations, never throws, and never ends only with a single
   * sample (dist/index.umd.js:83-145).
   */
  lemma {:induction false} RunSpec(p: Problem, cfg: Config, partner: (int, int) -> int, iter: int, passes: int, s: Solver, k: real)
    requires Fits(p, s) && PartnerOk(partner, |p.data|)
    requires Binary(p.labels) && Kept2(p, cfg.c, s, k)
    requires 0 <= passes <= iter
    ensures var r := Run(p, cfg, partner, false, iter, passes, s);
      && !r.ReferenceError?
      && (r.Diverges? ==> |p.data| == 1)
      && (r.Done? ==>
          && Kept2(p, cfg.c, r.s, k)
          && (r.passes >= cfg.numPasses || r.iters >= cfg.maxIter)
          && iter <= r.iters && (iter < cfg.maxIter ==> r.iters <= cfg.maxIter)
          && 0 <= r.passes <= r.iters)
    decreases cfg.maxIter - iter
  {
    if passes < cfg.numPasses && iter < cfg.maxIter {
      SweepSpec(p, cfg, partner, iter, s, |p.data|, k);
      var pr := SweepUpTo(p, cfg, partner, false, iter, s, |p.data|);
      if pr.Running? {
        RunSpec(p, cfg, partner, iter + 1, if pr.changed == 0 then passes + 1 else 0, pr.s, k);
      }
    }
  }

  lemma {:induction false} LabelSumZeros(labels: seq<real>, n: nat)
    requires n <= |labels|
    ensures LabelSum(Zeros(n), labels, n) == 0.0
    decreases n
  {
    if n > 0 {
      assert Zeros(n)[..n - 1] == Zeros(n - 1);
      LabelSumPrefix(Zeros(n), Zeros(n - 1), labels, n - 1);
      LabelSumZeros(labels, n - 1);
    }
  }

  lemma {:induction false} LabelSumPrefix(a: seq<real>, b: seq<real>, labels: seq<real>, n: nat)
    requires n <= |a| && n <= |b| && n <= |labels| && a[..n] == b[..n]
    ensures LabelSum(a, labels, n) == LabelSum(b, labels, n)
    decreases n
  {
    if n > 0 {
      assert a[..n - 1] == b[..n - 1];
      assert a[n - 1] == a[..n][n - 1];
      LabelSumPrefix(a, b, labels, n - 1);
    }
  }

  /**
   * Training from the start: every coefficient stays in [0, C] and the
   * label-weighted sum stays 0, for labels in {+1, -1} and C >= 0.
   */
  lemma TrainingKeepsBox(p: Problem, cfg: Config, partner: (int, int) -> int)
    requires WellShaped(p) && PartnerOk(partner, |p.data|) && Binary(p.labels) && cfg.c >= 0.0
    ensures var r := Run(p, cfg, partner, false, 0, 0, Start(p));
      r.Done? ==> Box(r.s.alpha, cfg.c) && LabelSum(r.s.alpha, p.labels, |p.data|) == 0.0
  {
    LabelSumZeros(p.labels, |p.data|);
    RunSpec(p, cfg, partner, 0, 0, Start(p), 0.0);
  }

  // ---------------------------------------------------------------------------
  // Properties of the result
  // ---------------------------------------------------------------------------

  /** `u + c * v`, coordinate by coordinate. */
  function AddScaled(u: Vector, v: Vector, c: real): (r: Vector)
    requires |u| == |v|
    ensures |r| == |u|
  {
    seq(|u|, j requires 0 <= j < |u| => u[j] + c * v[j])
  }

  /** Nonlinear step of LinearKernelAddScaled, split out so that its solver query stays small. */
  lemma Distrib(a: real, b: real, c: real, d: real)
    ensures a * (b + c * d) == a * b + c * (a * d)
  {
  }

  /** The other nonlinear step of LinearKernelAddScaled, split out for the same reason. */
  lemma MulAdd(c: real, x: real, y: real)
    ensures c * (x + y) == c * x + c * y
  {
  }

  /** The linear kernel is linear in its second argument. */
  lemma {:induction false} LinearKernelAddScaled(x: Vector, u: Vector, v: Vector, c: real)
    requires |x| <= |u| == |v|
    ensures LinearKernel(x, AddScaled(u, v, c)) == LinearKernel(x, u) + c * LinearKernel(x, v)
    decreases |x|
  {
    if |x| > 0 {
      var m := |x| - 1;
      LinearKernelAddScaled(x[..m], u, v, c);
      Distrib(x[m], u[m], c, v[m]);
      MulAdd(c, LinearKernel(x[..m], v), x[m] * v[m]);
    }
  }

  lemma {:induction false} LinearKernelZeros(x: Vector, d: nat)
    requires |x| <= d
    ensures LinearKernel(x, Zeros(d)) == 0.0
    decreases |x|
  {
    if |x| > 0 {
      LinearKernelZeros(x[..|x| - 1], d);
    }
  }

  lemma WeightsStep(alpha: seq<real>, labels: seq<real>, data: seq<Vector>, n: nat, d: nat)
    requires 0 < n && Columns(alpha, labels, data, n, d) && |data[n - 1]| == d
    ensures Weights(alpha, labels, data, n, d) == AddScaled(Weights(alpha, labels, data, n - 1, d), data[n - 1], alpha[n - 1] * labels[n - 1])
  {
    var w, u := Weights(alpha, labels, data, n, d), Weights(alpha, labels, data, n - 1, d);
    forall j | 0 <= j < d
      ensures w[j] == AddScaled(u, data[n - 1], alpha[n - 1] * labels[n - 1])[j]
    {
      assert w[j] == ColumnSum(alpha, labels, data, n, j);
      assert u[j] == ColumnSum(alpha, labels, data, n - 1, j);
    }
  }

  lemma KernelSumLinearStep(exp: real -> real, alpha: seq<real>, labels: seq<real>, data: seq<Vector>, x: Vector, n: nat)
    requires 0 < n && Evaluable(Linear, alpha, labels, data, x, n)
    ensures KernelSum(Linear, exp, alpha, labels, data, x, n)
      == KernelSum(Linear, exp, alpha, labels, data, x, n - 1) + (alpha[n - 1] * labels[n - 1]) * LinearKernel(x, data[n - 1])
  {
  }

  /**
   * With the linear kernel, the dense weights give the same margin as the
   * kernel sum: `x . w == sum_i alpha[i] * labels[i] * (x . data[i])`
   * (dist/index.umd.js:149-160 against 203-217).
   */
  lemma {:induction false} DenseMarginAgrees(exp: real -> real, alpha: seq<real>, labels: seq<real>, data: seq<Vector>, n: nat, x: Vector)
    requires Columns(alpha, labels, data, n, |x|)
    requires forall i :: 0 <= i < n ==> |data[i]| == |x|
    ensures Evaluable(Linear, alpha, labels, data, x, n)
    ensures LinearKernel(x, Weights(alpha, labels, data, n, |x|)) == KernelSum(Linear, exp, alpha, labels, data, x, n)
    decreases n
  {
    var d := |x|;
    if n == 0 {
      assert Weights(alpha, labels, data, 0, d) == Zeros(d);
      LinearKernelZeros(x, d);
    } else {
      DenseMarginAgrees(exp, alpha, labels, data, n - 1, x);
      var w, c := Weights(alpha, labels, data, n - 1, d), alpha[n - 1] * labels[n - 1];
      WeightsStep(alpha, labels, data, n, d);
      LinearKernelAddScaled(x, w, data[n - 1], c);
      KernelSumLinearStep(exp, alpha, labels, data, x, n);
    }
  }

  lemma {:induction false} SelectLength<T>(xs: seq<T>, alpha: seq<real>, tol: real, n: nat)
    requires n <= |xs| && n <= |alpha|
    ensures |Select(xs, alpha, tol, n)| == |Kept(alpha, tol, n)|
    decreases n
  {
    if n > 0 {
      SelectLength(xs, alpha, tol, n - 1);
    }
  }

  lemma {:induction false} KeptBelow(alpha: seq<real>, tol: real, n: nat)
    requires n <= |alpha|
    ensures forall k :: 0 <= k < |Kept(alpha, tol, n)| ==> Kept(alpha, tol, n)[k] < n && alpha[Kept(alpha, tol, n)[k]] > tol
    decreases n
  {
    if n > 0 {
      KeptBelow(alpha, tol, n - 1);
    }
  }

  lemma {:induction false} SelectAt<T>(xs: seq<T>, alpha: seq<real>, tol: real, n: nat, k: nat)
    requires n <= |xs| && n <= |alpha| && k < |Kept(alpha, tol, n)|
    ensures Kept(alpha, tol, n)[k] < n
    ensures |Select(xs, alpha, tol, n)| == |Kept(alpha, tol, n)|
    ensures Select(xs, alpha, tol, n)[k] == xs[Kept(alpha, tol, n)[k]]
    decreases n
  {
    SelectLength(xs, alpha, tol, n);
    KeptBelow(alpha, tol, n);
    if k < |Kept(alpha, tol, n - 1)| {
      SelectAt(xs, alpha, tol, n - 1, k);
    }
  }

  lemma {:induction false} KeptIncreasing(alpha: seq<real>, tol: real, n: nat)
    requires n <= |alpha|
    ensures forall k, l :: 0 <= k < l < |Kept(alpha, tol, n)| ==> Kept(alpha, tol, n)[k] < Kept(alpha, tol, n)[l]
    decreases n
  {
    if n > 0 {
      KeptIncreasing(alpha, tol, n - 1);
      KeptBelow(alpha, tol, n - 1);
    }
  }

  lemma {:induction false} KeptComplete(alpha: seq<real>, tol: real, n: nat)
    requires n <= |alpha|
    ensures forall i :: 0 <= i < n && alpha[i] > tol ==> i in Kept(alpha, tol, n)
    decreases n
  {
    if n > 0 {
      KeptComplete(alpha, tol, n - 1);
    }
  }

  /**
   * The support-vector filter: `Select` over `xs` is `xs` read at the kept
   * indices, which increase, are below n, have `alpha > tol`, and include
   * every such index (dist/index.umd.js:169-186).
   */
  lemma SelectSpec<T>(xs: seq<T>, alpha: seq<real>, tol: real, n: nat)
    requires n <= |xs| && n <= |alpha|
    ensures var ks := Kept(alpha, tol, n);
      && |Select(xs, alpha, tol, n)| == |ks|
      && (forall k :: 0 <= k < |ks| ==> ks[k] < n && alpha[ks[k]] > tol && Select(xs, alpha, tol, n)[k] == xs[ks[k]])
      && (forall k, l :: 0 <= k < l < |ks| ==> ks[k] < ks[l])
      && (forall i :: 0 <= i < n && alpha[i] > tol ==> i in ks)
  {
    SelectLength(xs, alpha, tol, n);
    KeptBelow(alpha, tol, n);
    forall k | 0 <= k < |Kept(alpha, tol, n)|
      ensures Select(xs, alpha, tol, n)[k] == xs[Kept(alpha, tol, n)[k]]
    {
      SelectAt(xs, alpha, tol, n, k);
    }
    KeptIncreasing(alpha, tol, n);
    KeptComplete(alpha, tol, n);
  }

  /** Every retained coefficient exceeds `alphatol`. */
  lemma RetainedAboveTol(alpha: seq<real>, tol: real, n: nat)
    requires n <= |alpha|
    ensures forall k :: 0 <= k < |Select(alpha, alpha, tol, n)| ==> Select(alpha, alpha, tol, n)[k] > tol
  {
    SelectSpec(alpha, alpha, tol, n);
  }

  // ---------------------------------------------------------------------------
  // The bundled code throws on its first pair update
  // ---------------------------------------------------------------------------

  lemma {:induction false} KernelSumZeroAlpha(k: Kernel, exp: real -> real, alpha: seq<real>, labels: seq<real>, data: seq<Vector>, x: Vector, n: int)
    requires Evaluable(k, alpha, labels, data, x, n)
    requires forall i :: 0 <= i < |alpha| ==> alpha[i] == 0.0
    ensures KernelSum(k, exp, alpha, labels, data, x, n) == 0.0
    decreases n
  {
    if n > 0 {
      KernelSumZeroAlpha(k, exp, alpha, labels, data, x, n - 1);
    }
  }

  lemma {:induction false} SweepThrownStays(p: Problem, cfg: Config, partner: (int, int) -> int, iter: int, s0: Solver, i: nat)
    requires Fits(p, s0) && 1 <= i <= |p.data| && PartnerOk(partner, |p.data|)
    requires SweepUpTo(p, cfg, partner, true, iter, s0, 1).Thrown?
    ensures SweepUpTo(p, cfg, partner, true, iter, s0, i).Thrown?
    decreases i
  {
    if i > 1 {
      SweepThrownStays(p, cfg, partner, iter, s0, i - 1);
    }
  }

  /**
   * As bundled, training on two or more samples with labels in {+1, -1},
   * C > 0 and tol < 1 always throws: at the start every margin is 0, so
   * sample 0 has `labels[0] * E0 = -1 < -tol` with `alpha[0] = 0 < C`, and the
   * pair update begins with the assignment to the undeclared `ai`.
   */
  lemma StrictTrainThrows(p: Problem, cfg: Config, partner: (int, int) -> int)
    requires WellShaped(p) && PartnerOk(partner, |p.data|) && Binary(p.labels)
    requires |p.data| >= 2 && cfg.c > 0.0 && cfg.tol < 1.0 && cfg.numPasses > 0 && cfg.maxIter > 0
    ensures Run(p, cfg, partner, true, 0, 0, Start(p)) == ReferenceError
  {
    var s0 := Start(p);
    RowsEvaluable(p, s0, 0);
    KernelSumZeroAlpha(p.kernel, p.exp, s0.alpha, p.labels, p.data, p.data[0], |p.data|);
    assert TrainingMargin(p, s0, 0) == 0.0;
    var y := p.labels[0];
    assert y * (0.0 - y) == -1.0;
    assert SweepUpTo(p, cfg, partner, true, 0, s0, 1).Thrown?;
    SweepThrownStays(p, cfg, partner, 0, s0, |p.data|);
  }

  /** Once a sweep spins, the rest of the sweep spins too. */
  lemma {:induction false} SweepStuckStays(p: Problem, cfg: Config, partner: (int, int) -> int, strict: bool, iter: int, s0: Solver, i: nat, m: nat)
    requires Fits(p, s0) && i <= m <= |p.data| && PartnerOk(partner, |p.data|)
    requires SweepUpTo(p, cfg, partner, strict, iter, s0, i).Stuck?
    ensures SweepUpTo(p, cfg, partner, strict, iter, s0, m).Stuck?
    decreases m
  {
    if m > i {
      SweepStuckStays(p, cfg, partner, strict, iter, s0, i, m - 1);
    }
  }

  /** With the variables declared, no example of a sweep throws. */
  lemma {:induction false} SweepNeverThrows(p: Problem, cfg: Config, partner: (int, int) -> int, iter: int, s0: Solver, i: nat)
    requires Fits(p, s0) && i <= |p.data| && PartnerOk(partner, |p.data|)
    ensures !SweepUpTo(p, cfg, partner, false, iter, s0, i).Thrown?
    decreases i
  {
    if i > 0 {
      SweepNeverThrows(p, cfg, partner, iter, s0, i - 1);
    }
  }

  /** With the variables declared, training never ends in a ReferenceError, whatever the labels and options. */
  lemma {:induction false} RunNeverThrows(p: Problem, cfg: Config, partner: (int, int) -> int, iter: int, passes: int, s: Solver)
    requires Fits(p, s) && PartnerOk(partner, |p.data|)
    ensures !Run(p, cfg, partner, false, iter, passes, s).ReferenceError?
    decreases cfg.maxIter - iter
  {
    if passes < cfg.numPasses && iter < cfg.maxIter {
      SweepNeverThrows(p, cfg, partner, iter, s, |p.data|);
      var pr := SweepUpTo(p, cfg, partner, false, iter, s, |p.data|);
      if pr.Running? {
        RunNeverThrows(p, cfg, partner, iter + 1, if pr.changed == 0 then passes + 1 else 0, pr.s);
      }
    }
  }

  /**
   * The same training run with the undeclared variables declared ends whenever
   * N != 1. That it never throws holds by construction: with `strict` off no
   * step of a sweep can throw (`StepAt`'s contract, `RunNeverThrows`).
   */
  lemma CorrectedTrainDoesNotThrow(p: Problem, cfg: Config, partner: (int, int) -> int)
    requires WellShaped(p) && PartnerOk(partner, |p.data|) && Binary(p.labels) && cfg.c >= 0.0
    ensures var r := Run(p, cfg, partner, false, 0, 0, Start(p));
      !r.ReferenceError? && (|p.data| != 1 ==> r.Done?)
  {
    LabelSumZeros(p.labels, |p.data|);
    RunSpec(p, cfg, partner, 0, 0, Start(p), 0.0);
  }
}
