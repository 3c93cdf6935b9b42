/** `apply_3DVar` and `apply_4DVar`: fixed-budget minimisation of the 3D-Var and
    4D-Var costs. The observation operator, the forward model, the quadratic
    form `v @ solve(A, v)`, the gradient norm and the Adam update are black
    boxes; the costs are exact real sums over them, and the loops' bookkeeping
    (accumulators, diagnostics, snapshots, trajectory chaining) is modelled as
    the source performs it. */
module Variational {
  import opened Wrappers
  import opened Tensors

  /** The exceptions the solvers can raise. */
  datatype VarError =
    | IndexError       // an index or dimension out of range
    | BroadcastError   // RuntimeError: the operands of a subtraction do not broadcast
    | NegativeSteps    // RuntimeError: torch.linspace asked for gap + 1 < 0 points
    | SolveError       // RuntimeError: torch.linalg.solve given a matrix that is not n-by-n for a length-n vector
    | InvalidLearningRate  // ValueError: torch.optim.Adam built with a negative learning rate
    | NoBackward       // AttributeError: `loss` is still the integer 0, which has no `backward`
    | NoItem           // AttributeError: `loss_Jo` is still the integer 0, which has no `item`
    | UnboundLatest    // UnboundLocalError: `latest_x0` was never assigned

  /** A running loss that starts as the Python integer 0 and becomes a tensor at
      its first `+=`. */
  datatype Acc = IntZero | Sum(total: real)

  function AccValue(a: Acc): real
  {
    match a
    case IntZero => 0.0
    case Sum(t) => t
  }

  /** `loss += t`: the accumulator becomes a tensor holding the sum. */
  function Add(a: Acc, t: real): Acc
  {
    Sum(AccValue(a) + t)
  }

  /** The black boxes every solver calls. */
  datatype Numerics = Numerics(
    H: Vector -> Vector,              // the observation operator, followed by `.ravel()`
    quad: (Tensor, Vector) -> real,   // `v @ torch.linalg.solve(A, v)`
    gradNorm: Vector -> real,         // `torch.norm` of the loss gradient at a candidate
    adam: (real, seq<Vector>, nat) -> real)
      // element j of the candidate after one Adam step at the given learning
      // rate, given the candidates so far (which fix the gradients and moments)

  /** `trainer.step()`: the new candidate, element by element. */
  function AdamStep(num: Numerics, learningRate: real, history: seq<Vector>): (x: Vector)
    requires |history| >= 1
    ensures |x| == |history[|history| - 1]|
  {
    seq(|history[|history| - 1]|, j requires 0 <= j => num.adam(learningRate, history, j))
  }

  /** `trainer.step()` on the candidate array, which it updates in place. */
  method AdamUpdate(num: Numerics, learningRate: real, history: seq<Vector>, x: array<real>)
    requires |history| >= 1 && x.Length == |history[|history| - 1]|
    modifies x
    ensures x[..] == AdamStep(num, learningRate, history)
  {
    forall j | 0 <= j < x.Length {
      x[j] := num.adam(learningRate, history, j);
    }
  }

  /** Whether `torch.linalg.solve(A, u)` accepts the shapes: `A` is n-by-n for
      a vector `u` of length n. */
  predicate SolveFits(A: Tensor, n: nat)
  {
    |A.shape| == 2 && A.shape[0] == n && A.shape[1] == n
  }

  /** `u @ solve(A, u)`, or the RuntimeError of `solve` for mismatched shapes. */
  function Quad(num: Numerics, A: Tensor, u: Vector): (r: Result<real, VarError>)
    ensures r.Ok? <==> SolveFits(A, |u|)
    ensures r.Ok? ==> r.value == num.quad(A, u)
    ensures r.Err? ==> r.error == SolveError
  {
    if SolveFits(A, |u|) then Ok(num.quad(A, u)) else Err(SolveError)
  }

  /** `u @ solve(A, u)` for the residual `u = a - b`. */
  function Misfit(num: Numerics, A: Tensor, a: Vector, b: Vector): Result<real, VarError>
  {
    match Sub(a, b)
    case None => Err(BroadcastError)
    case Some(u) => Quad(num, A, u)
  }

  /** Background term plus observation term, evaluated as the source does: both
      residuals first (only the second can fail to broadcast), then the solve
      against `B`, then the solve against `R`. */
  function Pair(num: Numerics, B: Tensor, R: Tensor, u: Vector, y: Vector, hx: Vector): Result<real, VarError>
  {
    match Sub(y, hx)
    case None => Err(BroadcastError)
    case Some(w) =>
      match Quad(num, B, u)
      case Err(e) => Err(e)
      case Ok(background) =>
        match Quad(num, R, w)
        case Err(e) => Err(e)
        case Ok(observation) => Ok(background + observation)
  }

  // ----------------------------------------------------------------- 3D-Var

  datatype Problem3D = Problem3D(B: Tensor, R: Tensor, xb: Tensor, y: Tensor)

  datatype Diagnostics3D = Diagnostics3D(J: seq<real>, gradNorm: seq<real>, states: seq<Tensor>)

  /** `xb_inner` / `y_inner`: a 1-D tensor is read as a batch of one. */
  function Batched(t: Tensor): (r: Tensor)
    ensures r.data == t.data
    ensures |t.shape| == 1 ==> r.shape == [1, t.shape[0]] && Row(r, 0) == t
    ensures |t.shape| != 1 ==> r == t
  {
    if |t.shape| == 1 then Unsqueeze(t) else t
  }

  /** Batch element `i`'s contribution to the loss at candidate `x` (which has
      `xb_inner`'s shape): background term plus observation term. */
  function Term3D(num: Numerics, pr: Problem3D, x: Tensor, i: nat): Result<real, VarError>
    requires |Batched(pr.xb).shape| >= 1 && x.shape == Batched(pr.xb).shape
    requires i < x.shape[0]
  {
    var xbI, yI := Batched(pr.xb), Batched(pr.y);
    var one := Row(x, i).data;
    if |yI.shape| == 0 || i >= yI.shape[0] then Err(IndexError)
    else Pair(num, pr.B, pr.R, Sub(one, Row(xbI, i).data).value, Row(yI, i).data, num.H(one))
  }

  /** The batch loop, from element `i` on, with `loss` accumulated so far. */
  function Loss3D(num: Numerics, pr: Problem3D, x: Tensor, i: nat, loss: Acc): Result<Acc, VarError>
    requires |Batched(pr.xb).shape| >= 1 && x.shape == Batched(pr.xb).shape
    decreases x.shape[0] - i
  {
    if i >= x.shape[0] then Ok(loss)
    else match Term3D(num, pr, x, i)
      case Err(e) => Err(e)
      case Ok(t) => Loss3D(num, pr, x, i + 1, Add(loss, t))
  }

  /** The candidate whose elements are `x`, in `xb_inner`'s shape. */
  function Candidate3D(pr: Problem3D, x: Vector): Tensor
    requires |x| == |pr.xb.data|
  {
    RawTensor(Batched(pr.xb).shape, x)
  }

  /** The iteration loop from iteration `n` on; `history` holds the candidates so
      far, the last being the current one, and `d` the diagnostics so far. */
  function Iterate3D(num: Numerics, pr: Problem3D, maxIterations: int, learningRate: real,
                     n: nat, history: seq<Vector>, d: Diagnostics3D): Result<Diagnostics3D, VarError>
    requires |Batched(pr.xb).shape| >= 1
    requires |history| >= 1 && |history[|history| - 1]| == |pr.xb.data|
    decreases maxIterations - n
  {
    if n >= maxIterations then Ok(d)
    else
      var x := history[|history| - 1];
      match Loss3D(num, pr, Candidate3D(pr, x), 0, IntZero)
      case Err(e) => Err(e)
      case Ok(IntZero) => Err(NoBackward)
      case Ok(Sum(j)) =>
        var next := AdamStep(num, learningRate, history);
        var snapshot: Tensor := RawTensor(pr.xb.shape, next);
        Iterate3D(num, pr, maxIterations, learningRate, n + 1, history + [next],
          Diagnostics3D(d.J + [j], d.gradNorm + [num.gradNorm(x)], d.states + [snapshot]))
  }

  lemma Iterate3DStep(num: Numerics, pr: Problem3D, maxIterations: int, learningRate: real,
                      n: nat, history: seq<Vector>, d: Diagnostics3D, j: real)
    requires |Batched(pr.xb).shape| >= 1
    requires |history| >= 1 && |history[|history| - 1]| == |pr.xb.data|
    requires n < maxIterations
    requires Loss3D(num, pr, Candidate3D(pr, history[|history| - 1]), 0, IntZero) == Ok(Sum(j))
    ensures var next := AdamStep(num, learningRate, history);
      Iterate3D(num, pr, maxIterations, learningRate, n, history, d) ==
      Iterate3D(num, pr, maxIterations, learningRate, n + 1, history + [next],
        Diagnostics3D(d.J + [j], d.gradNorm + [num.gradNorm(history[|history| - 1])],
                      d.states + [RawTensor(pr.xb.shape, next)]))
  {
  }

  /** The batch loop of one iteration: `loss` after every batch element, or
      the exception an element raises. */
  method BatchLoss(num: Numerics, pr: Problem3D, candidate: Tensor) returns (r: Result<Acc, VarError>)
    requires |Batched(pr.xb).shape| >= 1 && candidate.shape == Batched(pr.xb).shape
    ensures r == Loss3D(num, pr, candidate, 0, IntZero)
  {
    var loss := IntZero;
    var i := 0;
    while i < candidate.shape[0]
      invariant i <= candidate.shape[0]
      invariant Loss3D(num, pr, candidate, 0, IntZero) == Loss3D(num, pr, candidate, i, loss)
    {
      var term := Term3D(num, pr, candidate, i);
      if term.Err? {
        return Err(term.error);
      }
      loss := Add(loss, term.value);
      i := i + 1;
    }
    return Ok(loss);
  }

  /** What `apply_3DVar` returns or raises. */
  function Run3D(num: Numerics, pr: Problem3D, maxIterations: int, learningRate: real)
    : Result<(Tensor, Diagnostics3D), VarError>
  {
    if learningRate < 0.0 then Err(InvalidLearningRate)
    else if |Batched(pr.xb).shape| == 0 then Err(IndexError)
    else match Iterate3D(num, pr, maxIterations, learningRate, 0, [pr.xb.data], Diagnostics3D([], [], []))
      case Err(e) => Err(e)
      case Ok(d) => if d.states == [] then Err(UnboundLatest) else Ok((d.states[|d.states| - 1], d))
  }

  lemma Run3DOutcome(num: Numerics, pr: Problem3D, maxIterations: int, learningRate: real)
    requires learningRate >= 0.0 && |Batched(pr.xb).shape| >= 1
    ensures var it := Iterate3D(num, pr, maxIterations, learningRate, 0, [pr.xb.data], Diagnostics3D([], [], []));
      Run3D(num, pr, maxIterations, learningRate) ==
        if it.Err? then Err(it.error)
        else if it.value.states == [] then Err(UnboundLatest)
        else Ok((it.value.states[|it.value.states| - 1], it.value))
  {
  }

  /** One pass of the iteration loop at candidate `x0`: the loss, the Adam
      step on `x0`, and the new candidate list and diagnostics. */
  method Iteration3D(num: Numerics, pr: Problem3D, maxIterations: int, learningRate: real, n: nat,
                     x0: array<real>, history: seq<Vector>, d: Diagnostics3D)
      returns (r: Result<(seq<Vector>, Diagnostics3D), VarError>)
    requires |Batched(pr.xb).shape| >= 1 && n < maxIterations
    requires x0.Length == |pr.xb.data| && |history| >= 1 && history[|history| - 1] == x0[..]
    modifies x0
    ensures r.Err? ==> Iterate3D(num, pr, maxIterations, learningRate, n, history, d) == Err(r.error)
    ensures r.Ok? ==> x0[..] == AdamStep(num, learningRate, history)
    ensures r.Ok? ==> var (history', d') := r.value;
      var cost := Loss3D(num, pr, Candidate3D(pr, history[|history| - 1]), 0, IntZero);
      history' == history + [x0[..]] && cost.Ok? && cost.value.Sum? &&
      d' == Diagnostics3D(d.J + [cost.value.total], d.gradNorm + [num.gradNorm(history[|history| - 1])],
                          d.states + [RawTensor(pr.xb.shape, x0[..])]) &&
      Iterate3D(num, pr, maxIterations, learningRate, n, history, d) ==
      Iterate3D(num, pr, maxIterations, learningRate, n + 1, history', d')
  {
    var batch := BatchLoss(num, pr, Candidate3D(pr, x0[..]));
    if batch.Err? {
      return Err(batch.error);
    }
    var loss := batch.value;
    if loss.IntZero? {
      return Err(NoBackward);
    }
    var j, gradNorm := loss.total, num.gradNorm(x0[..]);
    Iterate3DStep(num, pr, maxIterations, learningRate, n, history, d, j);
    AdamUpdate(num, learningRate, history, x0);
    var next := x0[..];
    return Ok((history + [next],
      Diagnostics3D(d.J + [j], d.gradNorm + [gradNorm], d.states + [RawTensor(pr.xb.shape, next)])));
  }

  /** `apply_3DVar`; `logging` only decides whether a line is printed. */
  method Apply3DVar(num: Numerics, pr: Problem3D, maxIterations: int, learningRate: real, logging: bool)
    returns (r: Result<(Tensor, Diagnostics3D), VarError>)
    ensures r == Run3D(num, pr, maxIterations, learningRate)
  {
    // new_x0: an independent copy of xb_inner (which holds xb's elements),
    // updated in place by the optimizer
    var x0 := new real[|pr.xb.data|](k requires 0 <= k < |pr.xb.data| => pr.xb.data[k]);
    // torch.optim.Adam checks its learning rate when it is built
    if learningRate < 0.0 {
      return Err(InvalidLearningRate);
    }
    if |Batched(pr.xb).shape| == 0 {
      return Err(IndexError);
    }
    assert x0[..] == pr.xb.data;
    var history := [x0[..]];
    ghost var spec := Iterate3D(num, pr, maxIterations, learningRate, 0, [pr.xb.data], Diagnostics3D([], [], []));
    var d := Diagnostics3D([], [], []);
    var latest: Option<Tensor> := None;
    var n := 0;
    while n < maxIterations
      invariant x0.Length == |pr.xb.data|
      invariant |history| >= 1 && history[|history| - 1] == x0[..]
      invariant spec == Iterate3D(num, pr, maxIterations, learningRate, n, history, d)
      invariant latest.None? <==> d.states == []
      invariant latest.Some? ==> latest.value == d.states[|d.states| - 1]
      decreases maxIterations - n
    {
      var step := Iteration3D(num, pr, maxIterations, learningRate, n, x0, history, d);
      if step.Err? {
        Run3DOutcome(num, pr, maxIterations, learningRate);
        return Err(step.error);
      }
      history, d := step.value.0, step.value.1;
      latest := Some(d.states[|d.states| - 1]);
      n := n + 1;
    }
    assert spec == Ok(d);
    Run3DOutcome(num, pr, maxIterations, learningRate);
    if latest.None? {
      return Err(UnboundLatest);
    }
    return Ok((latest.value, d));
  }

  // ----------------------------------------------------------------- 4D-Var

  /** The inputs of `apply_4DVar` that stay fixed during a run. */
  datatype Problem4D<!A> = Problem4D(
    timeObs: seq<real>, gap: int, M: (Tensor, Vector, A) -> Tensor, args: A,
    B: Tensor, R: Tensor, xb: Tensor, y: Tensor)

  datatype Diagnostics4D = Diagnostics4D(
    Jb: seq<real>, Jo: seq<real>, gradNorm: seq<real>, states: seq<Tensor>)

  /** The nested `Jb`: background term plus the observation term for `y0`. */
  function Jb(num: Numerics, B: Tensor, R: Tensor, x0: Vector, xb: Vector, y0: Vector): Result<real, VarError>
  {
    match Sub(x0, xb)
    case None => Err(BroadcastError)
    case Some(u) => Pair(num, B, R, u, y0, num.H(x0))
  }

  /** The nested `Jo`: one observation term. */
  function Jo(num: Numerics, R: Tensor, xp: Vector, y: Vector): Result<real, VarError>
  {
    Misfit(num, R, y, num.H(xp))
  }

  /** The points `M` is asked for in a segment ending at `timeObs[k]`. */
  function SegmentGrid<A>(pr: Problem4D<A>, current: real, k: nat): Vector
    requires k < |pr.timeObs| && pr.gap + 1 >= 0
  {
    Linspace(current, pr.timeObs[k], pr.gap + 1)
  }

  /** The inner loop of segment `k` from row `i` on: one `Jo` term per kept
      row `xp[i]` against `y[k, i]`; `terms` are the `Jo` terms so far. */
  function SegmentTerms<A>(num: Numerics, pr: Problem4D<A>, k: nat, xp: Tensor, count: nat,
                           i: nat, terms: seq<real>): Result<seq<real>, VarError>
    requires |xp.shape| >= 1
    decreases count - i
  {
    if i >= count then Ok(terms)
    else if i >= xp.shape[0] then Err(IndexError)
    else if |pr.y.shape| < 2 || k >= pr.y.shape[0] || i >= pr.y.shape[1] then Err(IndexError)
    else match Jo(num, pr.R, Row(xp, i).data, Row(Row(pr.y, k), i).data)
      case Err(e) => Err(e)
      case Ok(t) => SegmentTerms(num, pr, k, xp, count, i + 1, terms + [t])
  }

  /** The segment loop from segment `k` on, with the chained state `xp` and the
      time `current` the previous segment ended at. */
  function Segments<A>(num: Numerics, pr: Problem4D<A>, k: nat, current: real, xp: Tensor,
                       terms: seq<real>): Result<seq<real>, VarError>
    decreases |pr.timeObs| - k
  {
    if k >= |pr.timeObs| then Ok(terms)
    else if pr.gap + 1 < 0 then Err(NegativeSteps)
    else
      var xf := pr.M(xp, SegmentGrid(pr, current, k), pr.args);
      if |xf.shape| < 2 then Err(IndexError)
      else
        var count := xf.shape[1];
        var kept := TakeLast(xf, count);
        match SegmentTerms(num, pr, k, kept, count, 0, terms)
        case Err(e) => Err(e)
        case Ok(ts) => Segments(num, pr, k + 1, pr.timeObs[k], kept, ts)
  }

  /** The candidate whose elements are `x`, in `xb`'s shape. */
  function Candidate4D<A>(pr: Problem4D<A>, x: Vector): Tensor
    requires |x| == |pr.xb.data|
  {
    RawTensor(pr.xb.shape, x)
  }

  /** One iteration's cost at candidate `x`: the value of `Jb` and the
      ordered list of `Jo` terms. */
  function Cost4D<A>(num: Numerics, pr: Problem4D<A>, x: Vector): Result<(real, seq<real>), VarError>
    requires |x| == |pr.xb.data|
  {
    if |pr.timeObs| == 0 then Err(IndexError)
    else if |pr.y.shape| == 0 || pr.y.shape[0] == 0 then Err(IndexError)
    else match Jb(num, pr.B, pr.R, x, pr.xb.data, Row(pr.y, 0).data)
      case Err(e) => Err(e)
      case Ok(jb) =>
        match Segments(num, pr, 1, pr.timeObs[0], Candidate4D(pr, x), [])
        case Err(e) => Err(e)
        case Ok(ts) => Ok((jb, ts))
  }

  /** The sum of the `Jo` terms, added left to right. */
  function SumOf(ts: seq<real>): real
  {
    if ts == [] then 0.0 else SumOf(ts[..|ts| - 1]) + ts[|ts| - 1]
  }

  /** `loss_Jo` after adding the terms `ts` to the integer 0. */
  function Total(ts: seq<real>): Acc
  {
    if ts == [] then IntZero else Sum(SumOf(ts))
  }

  lemma TotalAppend(ts: seq<real>, t: real)
    ensures Total(ts + [t]) == Add(Total(ts), t)
  {
    assert (ts + [t])[..|ts|] == ts;
    assert SumOf(ts + [t]) == SumOf(ts) + t;
  }

  function Iterate4D<A>(num: Numerics, pr: Problem4D<A>, maxIterations: int, learningRate: real,
                        n: nat, history: seq<Vector>, d: Diagnostics4D): Result<Diagnostics4D, VarError>
    requires |history| >= 1 && |history[|history| - 1]| == |pr.xb.data|
    decreases maxIterations - n
  {
    if n >= maxIterations then Ok(d)
    else
      var x := history[|history| - 1];
      match Cost4D(num, pr, x)
      case Err(e) => Err(e)
      case Ok((jb, ts)) =>
        if ts == [] then Err(NoItem)
        else
          var next := AdamStep(num, learningRate, history);
          Iterate4D(num, pr, maxIterations, learningRate, n + 1, history + [next],
            Diagnostics4D(d.Jb + [jb], d.Jo + [SumOf(ts)], d.gradNorm + [num.gradNorm(x)],
                          d.states + [Candidate4D(pr, next)]))
  }

  lemma Iterate4DStep<A>(num: Numerics, pr: Problem4D<A>, maxIterations: int, learningRate: real,
                         n: nat, history: seq<Vector>, d: Diagnostics4D, jb: real, ts: seq<real>,
                         next: Vector, d': Diagnostics4D)
    requires |history| >= 1 && |history[|history| - 1]| == |pr.xb.data|
    requires n < maxIterations
    requires Cost4D(num, pr, history[|history| - 1]) == Ok((jb, ts)) && ts != []
    requires next == AdamStep(num, learningRate, history)
    requires d' == Diagnostics4D(d.Jb + [jb], d.Jo + [SumOf(ts)],
      d.gradNorm + [num.gradNorm(history[|history| - 1])], d.states + [Candidate4D(pr, next)])
    ensures Iterate4D(num, pr, maxIterations, learningRate, n, history, d) ==
      Iterate4D(num, pr, maxIterations, learningRate, n + 1, history + [next], d')
  {
  }

  /** What `apply_4DVar` returns or raises. */
  function Run4D<A>(num: Numerics, pr: Problem4D<A>, maxIterations: int, learningRate: real)
    : Result<(Tensor, Diagnostics4D), VarError>
  {
    if learningRate < 0.0 then Err(InvalidLearningRate)
    else match Iterate4D(num, pr, maxIterations, learningRate, 0, [pr.xb.data], Diagnostics4D([], [], [], []))
      case Err(e) => Err(e)
      case Ok(d) => if d.states == [] then Err(UnboundLatest) else Ok((d.states[|d.states| - 1], d))
  }

  lemma Run4DOutcome<A>(num: Numerics, pr: Problem4D<A>, maxIterations: int, learningRate: real)
    ensures var it := Iterate4D(num, pr, maxIterations, learningRate, 0, [pr.xb.data], Diagnostics4D([], [], [], []));
      Run4D(num, pr, maxIterations, learningRate) ==
        if learningRate < 0.0 then Err(InvalidLearningRate)
        else if it.Err? then Err(it.error)
        else if it.value.states == [] then Err(UnboundLatest)
        else Ok((it.value.states[|it.value.states| - 1], it.value))
  {
  }

  /** The inner loop of segment `k` (lines 111-112): one `Jo` term per kept row,
      added to `lossJo`, whose terms so far are `terms`. */
  method SegmentRows<A>(num: Numerics, pr: Problem4D<A>, k: nat, xp: Tensor, count: nat,
                        lossJo: Acc, ghost terms: seq<real>)
      returns (r: Result<Acc, VarError>, ghost ts: seq<real>)
    requires |xp.shape| >= 1 && lossJo == Total(terms)
    ensures r.Err? ==> SegmentTerms(num, pr, k, xp, count, 0, terms) == Err(r.error)
    ensures r.Ok? ==> SegmentTerms(num, pr, k, xp, count, 0, terms) == Ok(ts) && r.value == Total(ts)
  {
    var loss := lossJo;
    ts := terms;
    var i := 0;
    while i < count
      invariant loss == Total(ts)
      invariant SegmentTerms(num, pr, k, xp, count, 0, terms) == SegmentTerms(num, pr, k, xp, count, i, ts)
    {
      if i >= xp.shape[0] || |pr.y.shape| < 2 || k >= pr.y.shape[0] || i >= pr.y.shape[1] {
        return Err(IndexError), ts;
      }
      var term := Jo(num, pr.R, Row(xp, i).data, Row(Row(pr.y, k), i).data);
      if term.Err? {
        return Err(term.error), ts;
      }
      TotalAppend(ts, term.value);
      loss := Add(loss, term.value);
      ts := ts + [term.value];
      i := i + 1;
    }
    return Ok(loss), ts;
  }

  /** The segment loop of one iteration (lines 100-113): `loss_Jo` as it stands
      after every segment, or the exception a segment raises. */
  method SegmentLoop<A>(num: Numerics, pr: Problem4D<A>, x: Vector) returns (r: Result<Acc, VarError>)
    requires |pr.timeObs| >= 1 && |x| == |pr.xb.data|
    ensures var spec := Segments(num, pr, 1, pr.timeObs[0], Candidate4D(pr, x), []);
      (r.Err? <==> spec.Err?) &&
      (r.Err? ==> r.error == spec.error) &&
      (r.Ok? ==> r.value == Total(spec.value))
  {
    var current := pr.timeObs[0];
    var xp := Candidate4D(pr, x);
    var lossJo := IntZero;
    ghost var terms: seq<real> := [];
    ghost var spec := Segments(num, pr, 1, pr.timeObs[0], Candidate4D(pr, x), []);
    var k := 1;
    while k < |pr.timeObs|
      invariant lossJo == Total(terms)
      invariant spec == Segments(num, pr, k, current, xp, terms)
      decreases |pr.timeObs| - k
    {
      if pr.gap + 1 < 0 {
        return Err(NegativeSteps);
      }
      var xf := pr.M(xp, Linspace(current, pr.timeObs[k], pr.gap + 1), pr.args);
      if |xf.shape| < 2 {
        return Err(IndexError);
      }
      var count := xf.shape[1];
      var kept := TakeLast(xf, count);
      var rows, ts := SegmentRows(num, pr, k, kept, count, lossJo, terms);
      if rows.Err? {
        return Err(rows.error);
      }
      lossJo, terms := rows.value, ts;
      assert spec == Segments(num, pr, k + 1, pr.timeObs[k], kept, terms);
      current, xp := pr.timeObs[k], kept;
      k := k + 1;
    }
    assert spec == Ok(terms);
    return Ok(lossJo);
  }

  /** One evaluation of the 4D-Var cost (lines 100-114): `loss_Jb` and `loss_Jo`,
      or the exception raised on the way. */
  method EvaluateCost4D<A>(num: Numerics, pr: Problem4D<A>, x: Vector) returns (r: Result<(real, Acc), VarError>)
    requires |x| == |pr.xb.data|
    ensures var spec := Cost4D(num, pr, x);
      (r.Err? <==> spec.Err?) &&
      (r.Err? ==> r.error == spec.error) &&
      (r.Ok? ==> r.value == (spec.value.0, Total(spec.value.1)))
  {
    if |pr.timeObs| == 0 || |pr.y.shape| == 0 || pr.y.shape[0] == 0 {
      return Err(IndexError);
    }
    var lossJb := Jb(num, pr.B, pr.R, x, pr.xb.data, Row(pr.y, 0).data);
    if lossJb.Err? {
      return Err(lossJb.error);
    }
    var lossJo := SegmentLoop(num, pr, x);
    if lossJo.Err? {
      return Err(lossJo.error);
    }
    return Ok((lossJb.value, lossJo.value));
  }

  /** One pass of the iteration loop at candidate `x0`: both costs, the Adam
      step on `x0`, and the new candidate list and diagnostics. */
  method Iteration4D<A>(num: Numerics, pr: Problem4D<A>, maxIterations: int, learningRate: real, n: nat,
                        x0: array<real>, history: seq<Vector>, d: Diagnostics4D)
      returns (r: Result<(seq<Vector>, Diagnostics4D), VarError>)
    requires n < maxIterations
    requires x0.Length == |pr.xb.data| && |history| >= 1 && history[|history| - 1] == x0[..]
    modifies x0
    ensures r.Err? ==> Iterate4D(num, pr, maxIterations, learningRate, n, history, d) == Err(r.error)
    ensures r.Ok? ==> x0[..] == AdamStep(num, learningRate, history)
    ensures r.Ok? ==> var (history', d') := r.value;
      var cost := Cost4D(num, pr, history[|history| - 1]);
      history' == history + [x0[..]] && cost.Ok? && cost.value.1 != [] &&
      d' == Diagnostics4D(d.Jb + [cost.value.0], d.Jo + [SumOf(cost.value.1)],
                          d.gradNorm + [num.gradNorm(history[|history| - 1])], d.states + [Candidate4D(pr, x0[..])]) &&
      Iterate4D(num, pr, maxIterations, learningRate, n, history, d) ==
      Iterate4D(num, pr, maxIterations, learningRate, n + 1, history', d')
  {
    var cost := EvaluateCost4D(num, pr, x0[..]);
    if cost.Err? {
      return Err(cost.error);
    }
    ghost var ts := Cost4D(num, pr, x0[..]).value.1;
    var (lossJb, lossJo) := cost.value;
    if lossJo.IntZero? {
      return Err(NoItem);
    }
    var gradNorm := num.gradNorm(x0[..]);
    AdamUpdate(num, learningRate, history, x0);
    var next := x0[..];
    var d' := Diagnostics4D(d.Jb + [lossJb], d.Jo + [lossJo.total], d.gradNorm + [gradNorm],
                            d.states + [Candidate4D(pr, next)]);
    Iterate4DStep(num, pr, maxIterations, learningRate, n, history, d, lossJb, ts, next, d');
    return Ok((history + [next], d'));
  }

  /** `apply_4DVar`; `logging` only decides whether a line is printed. */
  method Apply4DVar<A>(num: Numerics, pr: Problem4D<A>, maxIterations: int, learningRate: real, logging: bool)
    returns (r: Result<(Tensor, Diagnostics4D), VarError>)
    ensures r == Run4D(num, pr, maxIterations, learningRate)
  {
    // new_x0: an independent copy of xb, which the optimizer updates in place
    var x0 := new real[|pr.xb.data|](k requires 0 <= k < |pr.xb.data| => pr.xb.data[k]);
    if learningRate < 0.0 {
      Run4DOutcome(num, pr, maxIterations, learningRate);
      return Err(InvalidLearningRate);
    }
    assert x0[..] == pr.xb.data;
    var history := [x0[..]];
    ghost var spec := Iterate4D(num, pr, maxIterations, learningRate, 0, [pr.xb.data], Diagnostics4D([], [], [], []));
    var d := Diagnostics4D([], [], [], []);
    var latest: Option<Tensor> := None;
    var n := 0;
    while n < maxIterations
      invariant x0.Length == |pr.xb.data|
      invariant |history| >= 1 && history[|history| - 1] == x0[..]
      invariant spec == Iterate4D(num, pr, maxIterations, learningRate, n, history, d)
      invariant latest.None? <==> d.states == []
      invariant latest.Some? ==> latest.value == d.states[|d.states| - 1]
      decreases maxIterations - n
    {
      var step := Iteration4D(num, pr, maxIterations, learningRate, n, x0, history, d);
      if step.Err? {
        Run4DOutcome(num, pr, maxIterations, learningRate);
        return Err(step.error);
      }
      history, d := step.value.0, step.value.1;
      latest := Some(d.states[|d.states| - 1]);
      n := n + 1;
    }
    assert spec == Ok(d);
    Run4DOutcome(num, pr, maxIterations, learningRate);
    if latest.None? {
      return Err(UnboundLatest);
    }
    return Ok((latest.value, d));
  }
}
