/** Properties of the 3D-Var and 4D-Var specifications: diagnostics and
    snapshots, the failure when no iteration runs, the structure of the costs,
    and the bookkeeping of 4D-Var's segment loop. */
module VariationalProperties {
  import opened Wrappers
  import opened Tensors
  import opened Variational

  // ----------------------------------------------------------------- 3D-Var

  /** A list that extends `b + [x]` extends `b`, with `x` right after it. */
  lemma ExtendsStep<T>(a: seq<T>, b: seq<T>, x: T)
    requires |b| + 1 <= |a| && a[..|b| + 1] == b + [x]
    ensures a[..|b|] == b && a[|b|] == x
  {
    assert a[..|b|] == a[..|b| + 1][..|b|];
    assert a[|b|] == a[..|b| + 1][|b|];
  }

  /** A successful iteration `n` records the loss at the current candidate. */
  lemma Iterate3DNext(num: Numerics, pr: Problem3D, maxIterations: int, learningRate: real,
                      n: nat, history: seq<Vector>, d: Diagnostics3D) returns (j: real)
    requires |Batched(pr.xb).shape| >= 1
    requires |history| >= 1 && |history[|history| - 1]| == |pr.xb.data|
    requires n < maxIterations
    requires Iterate3D(num, pr, maxIterations, learningRate, n, history, d).Ok?
    ensures Loss3D(num, pr, Candidate3D(pr, history[|history| - 1]), 0, IntZero) == Ok(Sum(j))
    ensures var next := AdamStep(num, learningRate, history);
      Iterate3D(num, pr, maxIterations, learningRate, n, history, d) ==
      Iterate3D(num, pr, maxIterations, learningRate, n + 1, history + [next],
        Diagnostics3D(d.J + [j], d.gradNorm + [num.gradNorm(history[|history| - 1])],
                      d.states + [RawTensor(pr.xb.shape, next)]))
  {
    var loss := Loss3D(num, pr, Candidate3D(pr, history[|history| - 1]), 0, IntZero);
    assert loss.Ok? && loss.value.Sum?;
    j := loss.value.total;
    Iterate3DStep(num, pr, maxIterations, learningRate, n, history, d, j);
  }

  /** From iteration `n` to the end, every diagnostics list gains one entry per
      iteration, earlier entries stay, and every snapshot has `xb`'s shape. */
  lemma {:induction false} Iterate3DGrowth(num: Numerics, pr: Problem3D, maxIterations: int, learningRate: real,
                                           n: nat, history: seq<Vector>, d: Diagnostics3D)
    requires |Batched(pr.xb).shape| >= 1
    requires |history| >= 1 && |history[|history| - 1]| == |pr.xb.data|
    requires n <= maxIterations
    requires Iterate3D(num, pr, maxIterations, learningRate, n, history, d).Ok?
    ensures var e := Iterate3D(num, pr, maxIterations, learningRate, n, history, d).value;
      |e.J| == |d.J| + (maxIterations - n) &&
      |e.gradNorm| == |d.gradNorm| + (maxIterations - n) &&
      |e.states| == |d.states| + (maxIterations - n) &&
      e.J[..|d.J|] == d.J && e.gradNorm[..|d.gradNorm|] == d.gradNorm && e.states[..|d.states|] == d.states &&
      forall k :: |d.states| <= k < |e.states| ==> e.states[k].shape == pr.xb.shape
    decreases maxIterations - n
  {
    if n < maxIterations {
      var x := history[|history| - 1];
      var j := Iterate3DNext(num, pr, maxIterations, learningRate, n, history, d);
      var next := AdamStep(num, learningRate, history);
      var snapshot: Tensor := RawTensor(pr.xb.shape, next);
      var d' := Diagnostics3D(d.J + [j], d.gradNorm + [num.gradNorm(x)], d.states + [snapshot]);
      Iterate3DGrowth(num, pr, maxIterations, learningRate, n + 1, history + [next], d');
      var e := Iterate3D(num, pr, maxIterations, learningRate, n + 1, history + [next], d').value;
      ExtendsStep(e.J, d.J, j);
      ExtendsStep(e.gradNorm, d.gradNorm, num.gradNorm(x));
      ExtendsStep(e.states, d.states, snapshot);
      forall k | |d.states| <= k < |e.states|
        ensures e.states[k].shape == pr.xb.shape
      {
        if k > |d.states| {
          assert |d'.states| <= k;
        }
      }
    }
  }

  /** `apply_3DVar` returns after exactly `max_iterations` iterations: each list
      has that many entries, every snapshot has `xb`'s shape, and the returned
      state is the last snapshot. */
  lemma Run3DDiagnostics(num: Numerics, pr: Problem3D, maxIterations: int, learningRate: real)
    requires Run3D(num, pr, maxIterations, learningRate).Ok?
    ensures var (x, d) := Run3D(num, pr, maxIterations, learningRate).value;
      maxIterations >= 1 &&
      |d.J| == maxIterations && |d.gradNorm| == maxIterations && |d.states| == maxIterations &&
      x == d.states[maxIterations - 1] && x.shape == pr.xb.shape &&
      forall k :: 0 <= k < maxIterations ==> d.states[k].shape == pr.xb.shape
  {
    if maxIterations > 0 {
      Iterate3DGrowth(num, pr, maxIterations, learningRate, 0, [pr.xb.data], Diagnostics3D([], [], []));
    }
  }

  /** The batch loop raises only an index error, a failed broadcast or a
      `solve` on mismatched shapes. */
  lemma {:induction false} Loss3DRaises(num: Numerics, pr: Problem3D, x: Tensor, i: nat, loss: Acc)
    requires |Batched(pr.xb).shape| >= 1 && x.shape == Batched(pr.xb).shape
    ensures Loss3D(num, pr, x, i, loss).Err? ==> Loss3D(num, pr, x, i, loss).error in {IndexError, BroadcastError, SolveError}
    decreases x.shape[0] - i
  {
    if i < x.shape[0] && Term3D(num, pr, x, i).Ok? {
      Loss3DRaises(num, pr, x, i + 1, Add(loss, Term3D(num, pr, x, i).value));
    }
  }

  /** The iteration loop adds only the `backward` call on an integer loss. */
  lemma {:induction false} Iterate3DRaises(num: Numerics, pr: Problem3D, maxIterations: int, learningRate: real,
                                           n: nat, history: seq<Vector>, d: Diagnostics3D)
    requires |Batched(pr.xb).shape| >= 1
    requires |history| >= 1 && |history[|history| - 1]| == |pr.xb.data|
    ensures var it := Iterate3D(num, pr, maxIterations, learningRate, n, history, d);
      it.Err? ==> it.error in {IndexError, BroadcastError, SolveError, NoBackward}
    decreases maxIterations - n
  {
    if n < maxIterations {
      var x := history[|history| - 1];
      var loss := Loss3D(num, pr, Candidate3D(pr, x), 0, IntZero);
      Loss3DRaises(num, pr, Candidate3D(pr, x), 0, IntZero);
      if loss.Ok? && loss.value.Sum? {
        var next := AdamStep(num, learningRate, history);
        Iterate3DRaises(num, pr, maxIterations, learningRate, n + 1, history + [next],
          Diagnostics3D(d.J + [loss.value.total], d.gradNorm + [num.gradNorm(x)],
                        d.states + [RawTensor(pr.xb.shape, next)]));
      }
    }
  }

  /** With `max_iterations <= 0` the loop never binds `latest_x0`, so the
      return raises, unless Adam refused the learning rate or `xb` is a
      scalar first. */
  lemma Run3DNoIterations(num: Numerics, pr: Problem3D, maxIterations: int, learningRate: real)
    ensures Run3D(num, pr, maxIterations, learningRate) == Err(UnboundLatest) <==>
      learningRate >= 0.0 && |Batched(pr.xb).shape| >= 1 && maxIterations <= 0
  {
    var empty := Diagnostics3D([], [], []);
    if learningRate >= 0.0 && |Batched(pr.xb).shape| >= 1 && maxIterations > 0 {
      var it := Iterate3D(num, pr, maxIterations, learningRate, 0, [pr.xb.data], empty);
      if it.Ok? {
        Iterate3DGrowth(num, pr, maxIterations, learningRate, 0, [pr.xb.data], empty);
      } else {
        Iterate3DRaises(num, pr, maxIterations, learningRate, 0, [pr.xb.data], empty);
      }
    }
  }

  /** `apply_3DVar` reports Adam's ValueError exactly when the learning rate
      is negative: nothing later in the loop raises it. */
  lemma Run3DLearningRate(num: Numerics, pr: Problem3D, maxIterations: int, learningRate: real)
    ensures Run3D(num, pr, maxIterations, learningRate) == Err(InvalidLearningRate) <==> learningRate < 0.0
  {
    if learningRate >= 0.0 && |Batched(pr.xb).shape| >= 1 {
      Iterate3DRaises(num, pr, maxIterations, learningRate, 0, [pr.xb.data], Diagnostics3D([], [], []));
    }
  }

  /** The first recorded cost is the loss at the initial candidate, a copy of `xb`. */
  lemma Run3DFirstCost(num: Numerics, pr: Problem3D, maxIterations: int, learningRate: real)
    requires Run3D(num, pr, maxIterations, learningRate).Ok?
    ensures var d := Run3D(num, pr, maxIterations, learningRate).value.1;
      |d.J| >= 1 && |Batched(pr.xb).shape| >= 1 &&
      Loss3D(num, pr, Candidate3D(pr, pr.xb.data), 0, IntZero) == Ok(Sum(d.J[0]))
  {
    Run3DDiagnostics(num, pr, maxIterations, learningRate);
    var empty := Diagnostics3D([], [], []);
    var history := [pr.xb.data];
    Run3DOutcome(num, pr, maxIterations, learningRate);
    var j := Iterate3DNext(num, pr, maxIterations, learningRate, 0, history, empty);
    var next := AdamStep(num, learningRate, history);
    var d1 := Diagnostics3D(empty.J + [j], empty.gradNorm + [num.gradNorm(history[|history| - 1])],
                            empty.states + [RawTensor(pr.xb.shape, next)]);
    Iterate3DGrowth(num, pr, maxIterations, learningRate, 1, history + [next], d1);
    var e := Iterate3D(num, pr, maxIterations, learningRate, 1, history + [next], d1).value;
    ExtendsStep(e.J, [], j);
  }

  predicate IsZero(v: Vector)
  {
    forall k :: 0 <= k < |v| ==> v[k] == 0.0
  }

  /** At the background with `y == xb`, every remaining term is 0, and there
      is one whenever `B` and `R` fit the batch width. */
  lemma {:induction false} LossAtBackground(num: Numerics, pr: Problem3D, i: nat, loss: Acc)
    requires |Batched(pr.xb).shape| >= 1 && pr.y == pr.xb
    requires forall v :: num.H(v) == v
    requires forall v :: IsZero(v) ==> num.quad(pr.B, v) == 0.0 && num.quad(pr.R, v) == 0.0
    ensures var x := Candidate3D(pr, pr.xb.data);
      var l := Loss3D(num, pr, x, i, loss);
      (l.Ok? ==> AccValue(l.value) == AccValue(loss)) &&
      (SolveFits(pr.B, RowWidth(x)) && SolveFits(pr.R, RowWidth(x)) ==> l.Ok?)
    decreases Batched(pr.xb).shape[0] - i
  {
    var x := Candidate3D(pr, pr.xb.data);
    assert x == Batched(pr.xb);
    if i < x.shape[0] {
      var one := Row(x, i).data;
      var u := Sub(one, one).value;
      assert |u| == RowWidth(x) && IsZero(u);
      assert Row(Batched(pr.y), i).data == one;
      var term := Term3D(num, pr, x, i);
      assert term == Pair(num, pr.B, pr.R, u, one, one);
      if term.Ok? {
        assert term.value == 0.0;
        LossAtBackground(num, pr, i + 1, Add(loss, 0.0));
      }
    }
  }

  /** With `H` the identity and `y == xb`, the first recorded cost is 0: both
      residuals at the initial candidate are zero vectors, and `v @ solve(A, v)`
      is 0 for a zero vector. */
  lemma ZeroInitialCost3D(num: Numerics, pr: Problem3D, maxIterations: int, learningRate: real)
    requires pr.y == pr.xb
    requires forall v :: num.H(v) == v
    requires forall v :: IsZero(v) ==> num.quad(pr.B, v) == 0.0 && num.quad(pr.R, v) == 0.0
    requires Run3D(num, pr, maxIterations, learningRate).Ok?
    ensures |Run3D(num, pr, maxIterations, learningRate).value.1.J| >= 1
    ensures Run3D(num, pr, maxIterations, learningRate).value.1.J[0] == 0.0
  {
    Run3DFirstCost(num, pr, maxIterations, learningRate);
    LossAtBackground(num, pr, 0, IntZero);
  }

  /** A 1-D `xb` is a batch of one: the 3D-Var loss at a candidate is exactly
      4D-Var's `Jb` for that candidate with the observation `y`. */
  lemma SingleState3D(num: Numerics, pr: Problem3D, x: Vector)
    requires |pr.xb.shape| == 1 && |pr.y.shape| == 1 && |x| == |pr.xb.data|
    ensures Loss3D(num, pr, Candidate3D(pr, x), 0, IntZero) ==
      match Jb(num, pr.B, pr.R, x, pr.xb.data, pr.y.data)
      case Ok(v) => Ok(Sum(v))
      case Err(e) => Err(e)
  {
    var c := Candidate3D(pr, x);
    NumelCons(c.shape);
    NumelCons(c.shape[1..]);
    assert c.shape[1..][1..] == [];
    assert Row(c, 0).data == x;
    assert Row(Batched(pr.xb), 0) == pr.xb;
    assert Row(Batched(pr.y), 0) == pr.y;
  }

  /** Batch elements `0 .. m - 1` all have a term. */
  predicate TermsOk(num: Numerics, pr: Problem3D, x: Tensor, m: nat)
    requires |Batched(pr.xb).shape| >= 1 && x.shape == Batched(pr.xb).shape && m <= x.shape[0]
  {
    forall k :: 0 <= k < m ==> Term3D(num, pr, x, k).Ok?
  }

  /** Their terms, in batch order. */
  function Terms3D(num: Numerics, pr: Problem3D, x: Tensor, m: nat): (ts: seq<real>)
    requires |Batched(pr.xb).shape| >= 1 && x.shape == Batched(pr.xb).shape && m <= x.shape[0]
    requires TermsOk(num, pr, x, m)
    ensures |ts| == m
  {
    seq(m, i requires 0 <= i < m => Term3D(num, pr, x, i).value)
  }

  /** The batch loop at element `i` adds that element's term or stops with its error. */
  lemma Loss3DAt(num: Numerics, pr: Problem3D, x: Tensor, i: nat, loss: Acc)
    requires |Batched(pr.xb).shape| >= 1 && x.shape == Batched(pr.xb).shape && i < x.shape[0]
    ensures var term := Term3D(num, pr, x, i);
      Loss3D(num, pr, x, i, loss) ==
        if term.Err? then Err(term.error) else Loss3D(num, pr, x, i + 1, Add(loss, term.value))
  {
  }

  lemma Terms3DAppend(num: Numerics, pr: Problem3D, x: Tensor, i: nat)
    requires |Batched(pr.xb).shape| >= 1 && x.shape == Batched(pr.xb).shape && i < x.shape[0]
    requires TermsOk(num, pr, x, i + 1)
    ensures TermsOk(num, pr, x, i)
    ensures Terms3D(num, pr, x, i + 1) == Terms3D(num, pr, x, i) + [Term3D(num, pr, x, i).value]
  {
    var a, b := Terms3D(num, pr, x, i), Terms3D(num, pr, x, i + 1);
    assert forall k :: 0 <= k < i ==> b[k] == a[k];
    assert b[i] == Term3D(num, pr, x, i).value;
  }

  lemma {:induction false} Loss3DSumFrom(num: Numerics, pr: Problem3D, x: Tensor, i: nat)
    requires |Batched(pr.xb).shape| >= 1 && x.shape == Batched(pr.xb).shape && i <= x.shape[0]
    requires TermsOk(num, pr, x, i)
    ensures Loss3D(num, pr, x, i, Total(Terms3D(num, pr, x, i))).Ok? <==> TermsOk(num, pr, x, x.shape[0])
    ensures TermsOk(num, pr, x, x.shape[0]) ==>
      Loss3D(num, pr, x, i, Total(Terms3D(num, pr, x, i))) == Ok(Total(Terms3D(num, pr, x, x.shape[0])))
    decreases x.shape[0] - i
  {
    var ts := Terms3D(num, pr, x, i);
    if i < x.shape[0] {
      var term := Term3D(num, pr, x, i);
      Loss3DAt(num, pr, x, i, Total(ts));
      if term.Err? {
        assert !TermsOk(num, pr, x, x.shape[0]);
      } else {
        var t := term.value;
        assert TermsOk(num, pr, x, i + 1);
        Terms3DAppend(num, pr, x, i);
        TotalAppend(ts, t);
        Loss3DSumFrom(num, pr, x, i + 1);
      }
    }
  }

  /** The batch loss is defined exactly when every batch element's term is,
      and is then the sum of one background-plus-observation term per batch
      element. */
  lemma Loss3DIsSum(num: Numerics, pr: Problem3D, x: Tensor)
    requires |Batched(pr.xb).shape| >= 1 && x.shape == Batched(pr.xb).shape
    ensures Loss3D(num, pr, x, 0, IntZero).Ok? <==> TermsOk(num, pr, x, x.shape[0])
    ensures Loss3D(num, pr, x, 0, IntZero).Ok? ==>
      Loss3D(num, pr, x, 0, IntZero) == Ok(Total(Terms3D(num, pr, x, x.shape[0])))
  {
    assert Terms3D(num, pr, x, 0) == [];
    Loss3DSumFrom(num, pr, x, 0);
  }

  // ----------------------------------------------------------------- 4D-Var

  lemma {:induction false} SegmentTermsLength<A>(num: Numerics, pr: Problem4D<A>, k: nat, xp: Tensor,
                                                 count: nat, i: nat, terms: seq<real>)
    requires |xp.shape| >= 1 && i <= count
    requires SegmentTerms(num, pr, k, xp, count, i, terms).Ok?
    ensures var ts := SegmentTerms(num, pr, k, xp, count, i, terms).value;
      |ts| == |terms| + (count - i) && ts[..|terms|] == terms
    decreases count - i
  {
    if i < count {
      var t := Jo(num, pr.R, Row(xp, i).data, Row(Row(pr.y, k), i).data).value;
      SegmentTermsLength(num, pr, k, xp, count, i + 1, terms + [t]);
      var ts := SegmentTerms(num, pr, k, xp, count, i, terms).value;
      assert ts[..|terms|] == ts[..|terms| + 1][..|terms|];
    }
  }

  lemma {:induction false} SegmentTermsEntry<A>(num: Numerics, pr: Problem4D<A>, k: nat, xp: Tensor,
                                                count: nat, i: nat, terms: seq<real>, j: nat)
    requires |xp.shape| >= 1 && i <= j < count
    requires SegmentTerms(num, pr, k, xp, count, i, terms).Ok?
    ensures SegmentTermsEntryHolds(num, pr, k, xp, j, SegmentTerms(num, pr, k, xp, count, i, terms).value, |terms| - i)
    decreases count - i
  {
    var t := Jo(num, pr.R, Row(xp, i).data, Row(Row(pr.y, k), i).data).value;
    if j == i {
      SegmentTermsLength(num, pr, k, xp, count, i + 1, terms + [t]);
      var ts := SegmentTerms(num, pr, k, xp, count, i + 1, terms + [t]).value;
      assert ts[|terms|] == ts[..|terms| + 1][|terms|];
    } else {
      SegmentTermsEntry(num, pr, k, xp, count, i + 1, terms + [t], j);
    }
  }

  /** Term `offset + j` of `ts` is the misfit of kept row `j` against `y[k, j]`. */
  predicate SegmentTermsEntryHolds<A>(num: Numerics, pr: Problem4D<A>, k: nat, xp: Tensor, j: nat, ts: seq<real>, offset: int)
    requires |xp.shape| >= 1
  {
    j < xp.shape[0] && |pr.y.shape| >= 2 && k < pr.y.shape[0] && j < pr.y.shape[1] && 0 <= offset + j < |ts| &&
    Jo(num, pr.R, Row(xp, j).data, Row(Row(pr.y, k), j).data) == Ok(ts[offset + j])
  }

  /** Segment `k` adds one `Jo` term per kept row `j < count`: the misfit of
      `xp[j]` against `y[k, j]`, in row order, after the terms so far. */
  lemma SegmentTermsValues<A>(num: Numerics, pr: Problem4D<A>, k: nat, xp: Tensor, count: nat, terms: seq<real>)
    requires |xp.shape| >= 1
    requires SegmentTerms(num, pr, k, xp, count, 0, terms).Ok?
    ensures var ts := SegmentTerms(num, pr, k, xp, count, 0, terms).value;
      |ts| == |terms| + count && ts[..|terms|] == terms &&
      forall j :: 0 <= j < count ==> SegmentTermsEntryHolds(num, pr, k, xp, j, ts, |terms|)
  {
    SegmentTermsLength(num, pr, k, xp, count, 0, terms);
    forall j | 0 <= j < count
      ensures SegmentTermsEntryHolds(num, pr, k, xp, j, SegmentTerms(num, pr, k, xp, count, 0, terms).value, |terms|)
    {
      SegmentTermsEntry(num, pr, k, xp, count, 0, terms, j);
    }
  }

  /** One segment of the loop: `M`'s output `xf`, its last `xf.size(1)` rows,
      and the `xf.size(1)` terms they add. */
  lemma SegmentsStep<A>(num: Numerics, pr: Problem4D<A>, k: nat, current: real, xp: Tensor, terms: seq<real>)
      returns (kept: Tensor, ts: seq<real>)
    requires k < |pr.timeObs|
    requires Segments(num, pr, k, current, xp, terms).Ok?
    ensures pr.gap + 1 >= 0
    ensures var xf := pr.M(xp, SegmentGrid(pr, current, k), pr.args);
      |xf.shape| >= 2 && kept == TakeLast(xf, xf.shape[1]) &&
      SegmentTerms(num, pr, k, kept, xf.shape[1], 0, terms) == Ok(ts) &&
      |ts| == |terms| + xf.shape[1]
    ensures Segments(num, pr, k + 1, pr.timeObs[k], kept, ts) == Segments(num, pr, k, current, xp, terms)
  {
    var xf := pr.M(xp, SegmentGrid(pr, current, k), pr.args);
    kept := TakeLast(xf, xf.shape[1]);
    ts := SegmentTerms(num, pr, k, kept, xf.shape[1], 0, terms).value;
    SegmentTermsLength(num, pr, k, kept, xf.shape[1], 0, terms);
  }

  /** An inner loop over `count` rows that succeeds had at least `count` rows to read. */
  lemma {:induction false} SegmentTermsCovers<A>(num: Numerics, pr: Problem4D<A>, k: nat, xp: Tensor,
                                                 count: nat, i: nat, terms: seq<real>)
    requires |xp.shape| >= 1 && i < count
    requires SegmentTerms(num, pr, k, xp, count, i, terms).Ok?
    ensures xp.shape[0] >= count
    decreases count - i
  {
    if i + 1 < count {
      var t := Jo(num, pr.R, Row(xp, i).data, Row(Row(pr.y, k), i).data).value;
      SegmentTermsCovers(num, pr, k, xp, count, i + 1, terms + [t]);
    }
  }

  /** `M` turns a state with `c` rows into an output with `c` entries along
      its second axis, so every kept slice again has `c` rows. */
  ghost predicate KeepsRows<A>(pr: Problem4D<A>, c: nat)
  {
    forall x: Tensor, g: Vector :: |x.shape| >= 1 && x.shape[0] == c ==>
      |pr.M(x, g, pr.args).shape| >= 2 && pr.M(x, g, pr.args).shape[1] == c
  }

  /** A segment started from `c` rows continues from `c` rows, with `c` more terms. */
  lemma SegmentsChain<A>(num: Numerics, pr: Problem4D<A>, c: nat, k: nat, current: real, xp: Tensor, terms: seq<real>)
      returns (kept: Tensor, ts: seq<real>)
    requires c >= 1 && KeepsRows(pr, c) && |xp.shape| >= 1 && xp.shape[0] == c
    requires k < |pr.timeObs|
    requires Segments(num, pr, k, current, xp, terms).Ok?
    ensures |kept.shape| >= 1 && kept.shape[0] == c && |ts| == |terms| + c
    ensures Segments(num, pr, k + 1, pr.timeObs[k], kept, ts) == Segments(num, pr, k, current, xp, terms)
  {
    kept, ts := SegmentsStep(num, pr, k, current, xp, terms);
    var xf := pr.M(xp, SegmentGrid(pr, current, k), pr.args);
    assert xf.shape[1] == c;
    SegmentTermsCovers(num, pr, k, kept, c, 0, terms);
  }

  lemma CountStep(total: int, later: int, earlier: int, left: nat, c: nat)
    requires left >= 1 && total == later + (left - 1) * c && later == earlier + c
    ensures total == earlier + left * c
  {
  }

  /** When `M` keeps `c >= 1` rows and the chained state starts with `c` rows,
      a successful segment loop with `left` segments to go adds `c` terms per
      segment. */
  lemma {:induction false} SegmentsCount<A>(num: Numerics, pr: Problem4D<A>, c: nat, k: nat, left: nat,
                                            current: real, xp: Tensor, terms: seq<real>)
    requires c >= 1 && KeepsRows(pr, c) && |xp.shape| >= 1 && xp.shape[0] == c
    requires k + left == |pr.timeObs|
    requires Segments(num, pr, k, current, xp, terms).Ok?
    ensures |Segments(num, pr, k, current, xp, terms).value| == |terms| + left * c
    decreases left
  {
    if left > 0 {
      var kept, ts := SegmentsChain(num, pr, c, k, current, xp, terms);
      SegmentsCount(num, pr, c, k + 1, left - 1, pr.timeObs[k], kept, ts);
      CountStep(|Segments(num, pr, k, current, xp, terms).value|, |ts|, |terms|, left, c);
    }
  }

  /** So `Jo` sums `(len(time_obs) - 1) * c` terms when `xb` has `c` rows and
      `M` keeps them. */
  lemma JoTermCount<A>(num: Numerics, pr: Problem4D<A>, c: nat, x: Vector)
    requires c >= 1 && KeepsRows(pr, c) && |pr.xb.shape| >= 1 && pr.xb.shape[0] == c
    requires |x| == |pr.xb.data| && Cost4D(num, pr, x).Ok?
    ensures |Cost4D(num, pr, x).value.1| == (|pr.timeObs| - 1) * c
  {
    SegmentsCount(num, pr, c, 1, |pr.timeObs| - 1, pr.timeObs[0], Candidate4D(pr, x), []);
  }

  /** `Jb` is the background term plus the observation term for `y[0]`. */
  lemma Cost4DBackground<A>(num: Numerics, pr: Problem4D<A>, x: Vector)
    requires |x| == |pr.xb.data| && Cost4D(num, pr, x).Ok?
    ensures |pr.y.shape| >= 1 && pr.y.shape[0] >= 1
    ensures Misfit(num, pr.B, x, pr.xb.data).Ok? && Misfit(num, pr.R, Row(pr.y, 0).data, num.H(x)).Ok?
    ensures Cost4D(num, pr, x).value.0 ==
      Misfit(num, pr.B, x, pr.xb.data).value + Misfit(num, pr.R, Row(pr.y, 0).data, num.H(x)).value
  {
  }

  lemma {:induction false} Iterate4DGrowth<A>(num: Numerics, pr: Problem4D<A>, maxIterations: int, learningRate: real,
                                              n: nat, history: seq<Vector>, d: Diagnostics4D)
    requires |history| >= 1 && |history[|history| - 1]| == |pr.xb.data|
    requires n <= maxIterations
    requires Iterate4D(num, pr, maxIterations, learningRate, n, history, d).Ok?
    ensures var e := Iterate4D(num, pr, maxIterations, learningRate, n, history, d).value;
      |e.Jb| == |d.Jb| + (maxIterations - n) && |e.Jo| == |d.Jo| + (maxIterations - n) &&
      |e.gradNorm| == |d.gradNorm| + (maxIterations - n) && |e.states| == |d.states| + (maxIterations - n) &&
      e.Jb[..|d.Jb|] == d.Jb && e.Jo[..|d.Jo|] == d.Jo && e.gradNorm[..|d.gradNorm|] == d.gradNorm &&
      e.states[..|d.states|] == d.states &&
      forall k :: |d.states| <= k < |e.states| ==> e.states[k].shape == pr.xb.shape
    decreases maxIterations - n
  {
    if n < maxIterations {
      var x := history[|history| - 1];
      var cost := Cost4D(num, pr, x);
      assert cost.Ok? && cost.value.1 != [];
      var (jb, ts) := cost.value;
      var next := AdamStep(num, learningRate, history);
      var d' := Diagnostics4D(d.Jb + [jb], d.Jo + [SumOf(ts)], d.gradNorm + [num.gradNorm(x)],
                              d.states + [Candidate4D(pr, next)]);
      Iterate4DStep(num, pr, maxIterations, learningRate, n, history, d, jb, ts, next, d');
      Iterate4DGrowth(num, pr, maxIterations, learningRate, n + 1, history + [next], d');
      var e := Iterate4D(num, pr, maxIterations, learningRate, n + 1, history + [next], d').value;
      ExtendsStep(e.Jb, d.Jb, jb);
      ExtendsStep(e.Jo, d.Jo, SumOf(ts));
      ExtendsStep(e.gradNorm, d.gradNorm, num.gradNorm(x));
      ExtendsStep(e.states, d.states, Candidate4D(pr, next));
      forall k | |d.states| <= k < |e.states|
        ensures e.states[k].shape == pr.xb.shape
      {
        if k > |d.states| {
          assert |d'.states| <= k;
        }
      }
    }
  }

  /** `apply_4DVar` records one `Jb`, `Jo`, gradient norm and snapshot per
      iteration, and returns the last snapshot, which has `xb`'s shape. */
  lemma Run4DDiagnostics<A>(num: Numerics, pr: Problem4D<A>, maxIterations: int, learningRate: real)
    requires Run4D(num, pr, maxIterations, learningRate).Ok?
    ensures var (x, d) := Run4D(num, pr, maxIterations, learningRate).value;
      maxIterations >= 1 &&
      |d.Jb| == maxIterations && |d.Jo| == maxIterations &&
      |d.gradNorm| == maxIterations && |d.states| == maxIterations &&
      x == d.states[maxIterations - 1] && x.shape == pr.xb.shape &&
      forall k :: 0 <= k < maxIterations ==> d.states[k].shape == pr.xb.shape
  {
    if maxIterations > 0 {
      Iterate4DGrowth(num, pr, maxIterations, learningRate, 0, [pr.xb.data], Diagnostics4D([], [], [], []));
    }
  }

  /** Segment row loops raise only an index error, a failed broadcast or a
      `solve` on mismatched shapes. */
  lemma {:induction false} SegmentTermsRaises<A>(num: Numerics, pr: Problem4D<A>, k: nat, xp: Tensor,
                                                 count: nat, i: nat, terms: seq<real>)
    requires |xp.shape| >= 1
    ensures var st := SegmentTerms(num, pr, k, xp, count, i, terms);
      st.Err? ==> st.error in {IndexError, BroadcastError, SolveError}
    decreases count - i
  {
    if i < count && i < xp.shape[0] && |pr.y.shape| >= 2 && k < pr.y.shape[0] && i < pr.y.shape[1] {
      var t := Jo(num, pr.R, Row(xp, i).data, Row(Row(pr.y, k), i).data);
      if t.Ok? {
        SegmentTermsRaises(num, pr, k, xp, count, i + 1, terms + [t.value]);
      }
    }
  }

  /** The segment loop adds only `linspace`'s refusal of a negative count. */
  lemma {:induction false} SegmentsRaises<A>(num: Numerics, pr: Problem4D<A>, k: nat, current: real, xp: Tensor,
                                             terms: seq<real>)
    ensures var sg := Segments(num, pr, k, current, xp, terms);
      sg.Err? ==> sg.error in {IndexError, BroadcastError, SolveError, NegativeSteps}
    decreases |pr.timeObs| - k
  {
    if k < |pr.timeObs| && pr.gap + 1 >= 0 {
      var xf := pr.M(xp, SegmentGrid(pr, current, k), pr.args);
      if |xf.shape| >= 2 {
        var kept := TakeLast(xf, xf.shape[1]);
        var st := SegmentTerms(num, pr, k, kept, xf.shape[1], 0, terms);
        SegmentTermsRaises(num, pr, k, kept, xf.shape[1], 0, terms);
        if st.Ok? {
          SegmentsRaises(num, pr, k + 1, pr.timeObs[k], kept, st.value);
        }
      }
    }
  }

  /** The 4D-Var iteration loop adds only the `item` call on an integer `loss_Jo`. */
  lemma {:induction false} Iterate4DRaises<A>(num: Numerics, pr: Problem4D<A>, maxIterations: int, learningRate: real,
                                              n: nat, history: seq<Vector>, d: Diagnostics4D)
    requires |history| >= 1 && |history[|history| - 1]| == |pr.xb.data|
    ensures var it := Iterate4D(num, pr, maxIterations, learningRate, n, history, d);
      it.Err? ==> it.error in {IndexError, BroadcastError, SolveError, NegativeSteps, NoItem}
    decreases maxIterations - n
  {
    if n < maxIterations {
      var x := history[|history| - 1];
      var cost := Cost4D(num, pr, x);
      if |pr.timeObs| > 0 {
        SegmentsRaises(num, pr, 1, pr.timeObs[0], Candidate4D(pr, x), []);
      }
      if cost.Ok? && cost.value.1 != [] {
        var (jb, ts) := cost.value;
        var next := AdamStep(num, learningRate, history);
        Iterate4DRaises(num, pr, maxIterations, learningRate, n + 1, history + [next],
          Diagnostics4D(d.Jb + [jb], d.Jo + [SumOf(ts)], d.gradNorm + [num.gradNorm(x)],
                        d.states + [Candidate4D(pr, next)]));
      }
    }
  }

  /** With `max_iterations <= 0`, `apply_4DVar` raises at its return, unless
      Adam refused the learning rate first. */
  lemma Run4DNoIterations<A>(num: Numerics, pr: Problem4D<A>, maxIterations: int, learningRate: real)
    ensures Run4D(num, pr, maxIterations, learningRate) == Err(UnboundLatest) <==>
      learningRate >= 0.0 && maxIterations <= 0
  {
    var empty := Diagnostics4D([], [], [], []);
    var it := Iterate4D(num, pr, maxIterations, learningRate, 0, [pr.xb.data], empty);
    if learningRate >= 0.0 && maxIterations > 0 {
      if it.Ok? {
        Iterate4DGrowth(num, pr, maxIterations, learningRate, 0, [pr.xb.data], empty);
      } else {
        Iterate4DRaises(num, pr, maxIterations, learningRate, 0, [pr.xb.data], empty);
      }
    }
  }

  /** `apply_4DVar` reports Adam's ValueError exactly when the learning rate
      is negative. */
  lemma Run4DLearningRate<A>(num: Numerics, pr: Problem4D<A>, maxIterations: int, learningRate: real)
    ensures Run4D(num, pr, maxIterations, learningRate) == Err(InvalidLearningRate) <==> learningRate < 0.0
  {
    if learningRate >= 0.0 {
      Iterate4DRaises(num, pr, maxIterations, learningRate, 0, [pr.xb.data], Diagnostics4D([], [], [], []));
    }
  }

  /** The entries an iteration appends are the cost at its candidate. */
  lemma Iterate4DFirst<A>(num: Numerics, pr: Problem4D<A>, maxIterations: int, learningRate: real,
                          n: nat, history: seq<Vector>, d: Diagnostics4D)
    requires |history| >= 1 && |history[|history| - 1]| == |pr.xb.data|
    requires n < maxIterations
    requires Iterate4D(num, pr, maxIterations, learningRate, n, history, d).Ok?
    ensures var e := Iterate4D(num, pr, maxIterations, learningRate, n, history, d).value;
      var cost := Cost4D(num, pr, history[|history| - 1]);
      cost.Ok? && |e.Jb| > |d.Jb| && |e.Jo| > |d.Jo| &&
      e.Jb[|d.Jb|] == cost.value.0 && e.Jo[|d.Jo|] == SumOf(cost.value.1)
  {
    var x := history[|history| - 1];
    var cost := Cost4D(num, pr, x);
    assert cost.Ok? && cost.value.1 != [];
    var (jb, ts) := cost.value;
    var next := AdamStep(num, learningRate, history);
    var d' := Diagnostics4D(d.Jb + [jb], d.Jo + [SumOf(ts)], d.gradNorm + [num.gradNorm(x)],
                            d.states + [Candidate4D(pr, next)]);
    Iterate4DStep(num, pr, maxIterations, learningRate, n, history, d, jb, ts, next, d');
    Iterate4DGrowth(num, pr, maxIterations, learningRate, n + 1, history + [next], d');
    var e := Iterate4D(num, pr, maxIterations, learningRate, n + 1, history + [next], d').value;
    assert e.Jb[|d.Jb|] == e.Jb[..|d'.Jb|][|d.Jb|];
    assert e.Jo[|d.Jo|] == e.Jo[..|d'.Jo|][|d.Jo|];
  }

  /** The first recorded `Jb` and `Jo` are the cost at the initial candidate, a copy of `xb`. */
  lemma Run4DFirstCost<A>(num: Numerics, pr: Problem4D<A>, maxIterations: int, learningRate: real)
    requires Run4D(num, pr, maxIterations, learningRate).Ok?
    ensures var d := Run4D(num, pr, maxIterations, learningRate).value.1;
      |d.Jb| >= 1 && |d.Jo| >= 1 && Cost4D(num, pr, pr.xb.data).Ok? &&
      Cost4D(num, pr, pr.xb.data).value.0 == d.Jb[0] && SumOf(Cost4D(num, pr, pr.xb.data).value.1) == d.Jo[0]
  {
    Run4DDiagnostics(num, pr, maxIterations, learningRate);
    Iterate4DFirst(num, pr, maxIterations, learningRate, 0, [pr.xb.data], Diagnostics4D([], [], [], []));
  }

  /** A window with a single observation time never adds to `loss_Jo`, so the
      first iteration raises (at `loss_Jo.item()` unless Adam or `Jb` raised first). */
  lemma SingleTimeWindow<A>(num: Numerics, pr: Problem4D<A>, maxIterations: int, learningRate: real)
    requires |pr.timeObs| == 1 && maxIterations >= 1
    ensures Run4D(num, pr, maxIterations, learningRate).Err?
    ensures learningRate >= 0.0 && Cost4D(num, pr, pr.xb.data).Ok? ==>
      Run4D(num, pr, maxIterations, learningRate) == Err(NoItem)
  {
  }

  // ------------------------------------------------- a hand-worked 4D-Var case

  function RepeatData(d: Vector, n: nat): (r: Vector)
    ensures |r| == n * |d|
  {
    if n == 0 then [] else RepeatData(d, n - 1) + d
  }

  lemma MulSucc(a: nat, b: nat)
    ensures (a + 1) * b == a * b + b
  {
  }

  /** Element `m` of copy `j` is `d[m]`. */
  lemma {:induction false} RepeatDataAt(d: Vector, n: nat, j: nat, m: nat)
    requires j < n && m < |d|
    ensures j * |d| + m < n * |d| && RepeatData(d, n)[j * |d| + m] == d[m]
    decreases n
  {
    MulSucc(n - 1, |d|);
    if j < n - 1 {
      RepeatDataAt(d, n - 1, j, m);
    }
  }

  /** A forward model that holds the state still: one copy per grid point. */
  function IdentityPropagator(x: Tensor, grid: Vector, args: ()): (r: Tensor)
    ensures r.shape == [|grid|] + x.shape
    ensures forall j :: 0 <= j < |grid| ==> Row(r, j) == x
  {
    var s := [|grid|] + x.shape;
    NumelCons(s);
    assert s[1..] == x.shape;
    var r: Tensor := RawTensor(s, RepeatData(x.data, |grid|));
    forall j | 0 <= j < |grid|
      ensures Row(r, j) == x
    {
      var row := Row(r, j);
      assert |row.data| == |x.data|;
      forall m | 0 <= m < |x.data|
        ensures row.data[m] == x.data[m]
      {
        RepeatDataAt(x.data, |grid|, j, m);
      }
    }
    r
  }

  /** The identity model keeps the row count of every state. */
  lemma IdentityKeepsRows(c: nat)
    ensures forall pr: Problem4D<()> :: pr.M == IdentityPropagator ==> KeepsRows(pr, c)
  {
  }

  /** A scalar state over the window [0, 1, 2] with gap 1, `xb = 0` and
      `y = [0, 1, 1]`. */
  function ToyProblem(): Problem4D<()>
  {
    Problem4D([0.0, 1.0, 2.0], 1, IdentityPropagator, (),
      RawTensor([1, 1], [1.0]), RawTensor([1, 1], [1.0]),
      RawTensor([1], [0.0]), RawTensor([3, 1], [0.0, 1.0, 1.0]))
  }

  lemma SubSingle(a: real, b: real)
    ensures Sub([a], [b]) == Some([a - b])
  {
    var r := Sub([a], [b]);
    assert r.Some? && |r.value| == 1 && r.value[0] == a - b;
    assert r.value == [a - b];
  }

  lemma ToyObservation(num: Numerics, c: real)
    requires forall v :: num.H(v) == v
    requires forall v :: |v| == 1 ==> num.quad(RawTensor([1, 1], [1.0]), v) == v[0] * v[0]
    ensures Jb(num, ToyProblem().B, ToyProblem().R, [c], [0.0], [0.0]) == Ok(c * c + c * c)
    ensures Jo(num, ToyProblem().R, [c], [1.0]) == Ok((1.0 - c) * (1.0 - c))
  {
    var pr := ToyProblem();
    assert num.H([c]) == [c];
    SubSingle(c, 0.0);
    SubSingle(0.0, c);
    SubSingle(1.0, c);
    assert num.quad(pr.B, [c - 0.0]) == c * c;
    assert num.quad(pr.R, [0.0 - c]) == (0.0 - c) * (0.0 - c) == c * c;
    assert Misfit(num, pr.B, [c], [0.0]) == Ok(c * c);
    assert Misfit(num, pr.R, [0.0], num.H([c])) == Ok(c * c);
    assert num.quad(pr.R, [1.0 - c]) == (1.0 - c) * (1.0 - c);
    assert Misfit(num, pr.R, [1.0], num.H([c])) == Ok((1.0 - c) * (1.0 - c));
  }

  lemma ToyObservationRows()
    ensures |ToyProblem().y.shape| == 2 && ToyProblem().y.shape == [3, 1]
    ensures Row(ToyProblem().y, 0).data == [0.0]
    ensures Row(Row(ToyProblem().y, 1), 0).data == [1.0]
    ensures Row(Row(ToyProblem().y, 2), 0).data == [1.0]
  {
    var y := ToyProblem().y;
    assert RowWidth(y) == 1;
    assert Row(y, 1) == RawTensor([1], [1.0]);
    assert Row(y, 2) == RawTensor([1], [1.0]);
  }

  /** The identity propagator's output over two grid points, of which the
      last copy is kept. */
  lemma ToyPropagate(x: Tensor, grid: Vector, c: real)
    requires x.data == [c] && |grid| == 2
    ensures TakeLast(IdentityPropagator(x, grid, ()), 1) == RawTensor([1] + x.shape, [c])
  {
    assert RepeatData([c], 2) == [c, c] by {
      assert RepeatData([c], 1) == [c];
    }
    var xf := IdentityPropagator(x, grid, ());
    assert xf.data == [c, c] && xf.shape == [2] + x.shape;
    assert RowWidth(xf) == 1 by {
      assert xf.shape[1..] == x.shape;
    }
  }

  lemma ToyKeptRow(kept: Tensor, c: real)
    requires |kept.shape| >= 1 && kept.shape[0] == 1 && kept.data == [c]
    ensures Row(kept, 0).data == [c]
  {
    NumelCons(kept.shape);
  }

  /** The last segment, from time 1 to time 2, against `y[2] = 1`. */
  lemma ToySecondSegment(num: Numerics, c: real)
    requires forall v :: num.H(v) == v
    requires forall v :: |v| == 1 ==> num.quad(RawTensor([1, 1], [1.0]), v) == v[0] * v[0]
    ensures var t := (1.0 - c) * (1.0 - c);
      Segments(num, ToyProblem(), 2, 1.0, RawTensor([1, 1], [c]), [t]) == Ok([t, t])
  {
    var pr := ToyProblem();
    var t := (1.0 - c) * (1.0 - c);
    ToyObservation(num, c);
    ToyObservationRows();
    var grid := SegmentGrid(pr, 1.0, 2);
    ToyPropagate(RawTensor([1, 1], [c]), grid, c);
    var kept: Tensor := RawTensor([1, 1, 1], [c]);
    ToyKeptRow(kept, c);
    assert Jo(num, pr.R, Row(kept, 0).data, Row(Row(pr.y, 2), 0).data) == Ok(t);
    assert [t] + [t] == [t, t];
    assert SegmentTerms(num, pr, 2, kept, 1, 1, [t, t]) == Ok([t, t]);
    assert SegmentTerms(num, pr, 2, kept, 1, 0, [t]) == Ok([t, t]);
    assert Segments(num, pr, 3, 2.0, kept, [t, t]) == Ok([t, t]);
  }

  /** The first segment, from time 0 to time 1, against `y[1] = 1`. */
  lemma ToyFirstSegment(num: Numerics, c: real)
    requires forall v :: num.H(v) == v
    requires forall v :: |v| == 1 ==> num.quad(RawTensor([1, 1], [1.0]), v) == v[0] * v[0]
    ensures var t := (1.0 - c) * (1.0 - c);
      Segments(num, ToyProblem(), 1, 0.0, RawTensor([1], [c]), []) == Ok([t, t])
  {
    var pr := ToyProblem();
    var t := (1.0 - c) * (1.0 - c);
    ToyObservation(num, c);
    ToyObservationRows();
    ToySecondSegment(num, c);
    var grid := SegmentGrid(pr, 0.0, 1);
    ToyPropagate(RawTensor([1], [c]), grid, c);
    var kept: Tensor := RawTensor([1, 1], [c]);
    ToyKeptRow(kept, c);
    assert Jo(num, pr.R, Row(kept, 0).data, Row(Row(pr.y, 1), 0).data) == Ok(t);
    assert [] + [t] == [t];
    assert SegmentTerms(num, pr, 1, kept, 1, 1, [t]) == Ok([t]);
    assert SegmentTerms(num, pr, 1, kept, 1, 0, []) == Ok([t]);
  }

  /** The toy meets the row-count hypothesis with `c = 1`, so any successful
      cost evaluation has two `Jo` terms, one per later observation time. */
  lemma ToyCount(num: Numerics, c: real)
    requires Cost4D(num, ToyProblem(), [c]).Ok?
    ensures |Cost4D(num, ToyProblem(), [c]).value.1| == 2
  {
    IdentityKeepsRows(1);
    JoTermCount(num, ToyProblem(), 1, [c]);
  }

  /** With `H` the identity and `B = R = 1`, the 4D-Var cost at a candidate `c`
      is the background cost `c^2 + c^2` (against `xb = 0` and `y[0] = 0`) plus
      one misfit `(1 - c)^2` for each later observation time. */
  lemma ToyWindow(num: Numerics, c: real)
    requires forall v :: num.H(v) == v
    requires forall v :: |v| == 1 ==> num.quad(RawTensor([1, 1], [1.0]), v) == v[0] * v[0]
    ensures Cost4D(num, ToyProblem(), [c]) == Ok((c * c + c * c, [(1.0 - c) * (1.0 - c), (1.0 - c) * (1.0 - c)]))
  {
    var pr := ToyProblem();
    ToyObservation(num, c);
    ToyFirstSegment(num, c);
    ToyObservationRows();
    assert Candidate4D(pr, [c]) == RawTensor([1], [c]);
  }
}
