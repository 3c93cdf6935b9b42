/** An exact model of the few tensor operations the solvers use: a tensor is a
    shape and its elements in row-major order; indexing, slicing and
    broadcasting follow torch's rules, with exact reals in place of floats. */
module Tensors {
  import opened Wrappers

  type Vector = seq<real>
  type Matrix = seq<seq<real>>

  /** Number of elements of a tensor of the given shape (1 for a 0-dim tensor). */
  function Numel(shape: seq<nat>): nat
  {
    if shape == [] then 1 else shape[0] * Numel(shape[1..])
  }

  datatype RawTensor = RawTensor(shape: seq<nat>, data: Vector)

  /** A tensor holds exactly as many elements as its shape calls for. */
  type Tensor = t: RawTensor | |t.data| == Numel(t.shape) witness RawTensor([], [0.0])

  lemma NumelCons(shape: seq<nat>)
    requires |shape| >= 1
    ensures Numel(shape) == shape[0] * Numel(shape[1..])
  {
  }

  lemma RowBounds(rows: nat, w: nat, i: nat)
    requires i < rows
    ensures 0 <= i * w && i * w + w <= rows * w
  {
    var k := rows - i - 1;
    assert rows == i + 1 + k;
    assert rows * w == (i + 1 + k) * w == i * w + w + k * w;
  }

  lemma Distribute(a: nat, b: nat, w: nat)
    ensures (a + b) * w == a * w + b * w
  {
  }

  /** Width of one entry along the first axis: the element count of `t[i]`. */
  function RowWidth(t: Tensor): nat
    requires |t.shape| >= 1
  {
    Numel(t.shape[1..])
  }

  lemma RowInside(t: Tensor, i: nat)
    requires |t.shape| >= 1 && i < t.shape[0]
    ensures i * RowWidth(t) + RowWidth(t) <= |t.data|
  {
    NumelCons(t.shape);
    RowBounds(t.shape[0], RowWidth(t), i);
  }

  /** `t[i]` for a non-negative index inside the first axis. */
  function Row(t: Tensor, i: nat): (r: Tensor)
    requires |t.shape| >= 1 && i < t.shape[0]
    ensures r.shape == t.shape[1..]
    ensures |r.data| == RowWidth(t) && i * |r.data| + |r.data| <= |t.data|
    ensures forall j :: 0 <= j < |r.data| ==> r.data[j] == t.data[i * |r.data| + j]
  {
    RowInside(t, i);
    RawTensor(t.shape[1..], t.data[i * RowWidth(t) .. i * RowWidth(t) + RowWidth(t)])
  }

  /** `t.unsqueeze(0)`: a leading axis of size 1 in front of the same elements. */
  function Unsqueeze(t: Tensor): (r: Tensor)
    ensures r.shape == [1] + t.shape && r.data == t.data
    ensures Row(r, 0) == t
  {
    var r: Tensor := RawTensor([1] + t.shape, t.data);
    assert r.shape[1..] == t.shape;
    r
  }

  /** First row kept by `t[-n:]`: Python reads `-0` as `0`, so `n == 0` keeps every
      row, and a count beyond the first axis is clamped to the whole axis. */
  function KeepFrom(rows: nat, n: nat): (s: nat)
    ensures s <= rows
  {
    if n == 0 || n >= rows then 0 else rows - n
  }

  /** `t[-n:]`, the trailing rows of `t` along its first axis. */
  function TakeLast(t: Tensor, n: nat): (r: Tensor)
    requires |t.shape| >= 1
    ensures |r.shape| == |t.shape| && r.shape[1..] == t.shape[1..]
    ensures r.shape[0] == t.shape[0] - KeepFrom(t.shape[0], n)
    ensures r.shape[0] == if n == 0 || n >= t.shape[0] then t.shape[0] else n
  {
    var rows, w := t.shape[0], RowWidth(t);
    var s := KeepFrom(rows, n);
    NumelCons(t.shape);
    NumelCons([rows - s] + t.shape[1..]);
    assert ([rows - s] + t.shape[1..])[1..] == t.shape[1..];
    Distribute(s, rows - s, w);
    RawTensor([rows - s] + t.shape[1..], t.data[s * w ..])
  }

  lemma TakeLastRow(t: Tensor, n: nat, j: nat)
    requires |t.shape| >= 1 && j < TakeLast(t, n).shape[0]
    ensures Row(TakeLast(t, n), j) == Row(t, KeepFrom(t.shape[0], n) + j)
  {
    var r, s, w := TakeLast(t, n), KeepFrom(t.shape[0], n), RowWidth(t);
    assert RowWidth(r) == w;
    Distribute(s, j, w);
    RowBounds(t.shape[0], w, s + j);
    var lo := (s + j) * w;
    assert 0 <= lo && lo + w <= |t.data|;
    assert Row(r, j).data == t.data[lo .. lo + w];
  }

  /** `torch.linspace(start, end, steps)` over exact reals: `steps` evenly spaced
      points from `start` to `end` (a single point is `start`). */
  function Linspace(start: real, end: real, steps: nat): (g: Vector)
    ensures |g| == steps
    ensures steps >= 1 ==> g[0] == start
    ensures steps >= 2 ==> g[steps - 1] == end
    ensures steps >= 2 ==> forall k :: 0 <= k < steps - 1 ==>
      g[k + 1] - g[k] == (end - start) / (steps - 1) as real
  {
    if steps <= 1 then seq(steps, k => start)
    else
      var d := (end - start) / (steps - 1) as real;
      seq(steps, k => start + k as real * d)
  }

  /** Whether two 1-D shapes broadcast against each other. */
  predicate Broadcastable(u: Vector, v: Vector)
  {
    |u| == |v| || |u| == 1 || |v| == 1
  }

  /** `u - v` for 1-D tensors under broadcasting; `None` is torch's RuntimeError. */
  function Sub(u: Vector, v: Vector): (r: Option<Vector>)
    ensures r.Some? <==> Broadcastable(u, v)
    ensures r.Some? ==> |r.value| == (if |u| == 1 then |v| else |u|)
    ensures r.Some? && |u| == |v| ==> forall i :: 0 <= i < |u| ==> r.value[i] == u[i] - v[i]
    ensures r.Some? && |u| == 1 ==> forall i :: 0 <= i < |v| ==> r.value[i] == u[0] - v[i]
    ensures r.Some? && |v| == 1 ==> forall i :: 0 <= i < |u| ==> r.value[i] == u[i] - v[0]
  {
    if !Broadcastable(u, v) then None
    else
      var n := if |u| == 1 then |v| else |u|;
      Some(seq(n, i requires 0 <= i < n =>
        (if |u| == 1 then u[0] else u[i]) - (if |v| == 1 then v[0] else v[i])))
  }

  /** The elements of a 2-D tensor as rows. */
  function Rows(t: Tensor): (m: Matrix)
    requires |t.shape| == 2
    ensures |m| == t.shape[0] && forall i :: 0 <= i < |m| ==> |m[i]| == t.shape[1]
  {
    assert Numel(t.shape[1..]) == t.shape[1] by {
      NumelCons(t.shape[1..]);
      assert t.shape[1..][1..] == [];
    }
    seq(t.shape[0], i requires 0 <= i < t.shape[0] => Row(t, i).data)
  }

  /** Whether `m` is an n-by-n matrix. */
  predicate IsSquare(m: Matrix, n: nat)
  {
    |m| == n && forall i :: 0 <= i < n ==> |m[i]| == n
  }

  /** `m.T` for an n-by-n matrix. */
  function Transpose(m: Matrix, n: nat): (r: Matrix)
    requires IsSquare(m, n)
    ensures IsSquare(r, n)
    ensures forall i, j :: 0 <= i < n && 0 <= j < n ==> r[i][j] == m[j][i]
  {
    seq(n, i requires 0 <= i < n => seq(n, j requires 0 <= j < n => m[j][i]))
  }

  /** Transposing twice gives back the matrix. */
  lemma TransposeInvolution(m: Matrix, n: nat)
    requires IsSquare(m, n)
    ensures Transpose(Transpose(m, n), n) == m
  {
    var t := Transpose(Transpose(m, n), n);
    forall i | 0 <= i < n
      ensures t[i] == m[i]
    {
      assert |t[i]| == |m[i]| == n;
      forall j | 0 <= j < n
        ensures t[i][j] == m[i][j]
      {
        assert t[i][j] == Transpose(m, n)[j][i];
      }
    }
  }
}
