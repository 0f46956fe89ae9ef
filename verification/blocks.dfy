/** Slice and rectangular-block writes on the engine's pre-allocated buffers:
    the `a[lo:hi] = v` and `m[r0:r1, c0:c1] = b` assignments of the source. */
module Blocks {
  import opened Distance

  /** `m` has `rows` rows of `cols` entries each. */
  predicate IsShape(m: Matrix, rows: nat, cols: nat)
  {
    |m| == rows && forall i :: 0 <= i < |m| ==> |m[i]| == cols
  }

  /** `v[lo:lo+|vals|] = vals`. */
  function Splice<T>(v: seq<T>, lo: nat, vals: seq<T>): (r: seq<T>)
    requires lo + |vals| <= |v|
    ensures |r| == |v|
    ensures forall i :: 0 <= i < |v| ==>
              r[i] == if lo <= i < lo + |vals| then vals[i - lo] else v[i]
  {
    seq(|v|, i requires 0 <= i < |v| => if lo <= i < lo + |vals| then vals[i - lo] else v[i])
  }

  /** `m[r0:r0+|b|, c0:c0+w] = b` for a block `b` of width `w`. */
  function WriteBlock(m: Matrix, r0: nat, c0: nat, b: Matrix, w: nat): (r: Matrix)
    requires IsShape(b, |b|, w)
    requires r0 + |b| <= |m|
    requires forall i :: 0 <= i < |m| ==> c0 + w <= |m[i]|
    ensures |r| == |m|
    ensures forall i :: 0 <= i < |m| ==> |r[i]| == |m[i]|
    ensures forall i, j :: 0 <= i < |m| && 0 <= j < |m[i]| ==>
              r[i][j] == if r0 <= i < r0 + |b| && c0 <= j < c0 + w then b[i - r0][j - c0] else m[i][j]
  {
    seq(|m|, i requires 0 <= i < |m| =>
      if r0 <= i < r0 + |b| then Splice(m[i], c0, b[i - r0]) else m[i])
  }

  /** `m[:rows, :cols]`. */
  function SubBlock(m: Matrix, rows: nat, cols: nat): (r: Matrix)
    requires rows <= |m|
    requires forall i :: 0 <= i < rows ==> cols <= |m[i]|
    ensures IsShape(r, rows, cols)
    ensures forall i, j :: 0 <= i < rows && 0 <= j < cols ==> r[i][j] == m[i][j]
  {
    seq(rows, i requires 0 <= i < rows => m[i][..cols])
  }

  /** Column `j` of `m`. */
  function Column(m: Matrix, j: nat): (r: seq<real>)
    requires forall i :: 0 <= i < |m| ==> j < |m[i]|
    ensures |r| == |m|
    ensures forall i :: 0 <= i < |m| ==> r[i] == m[i][j]
  {
    seq(|m|, i requires 0 <= i < |m| => m[i][j])
  }

  /** The transpose of a `rows` by `cols` matrix. */
  function Transpose(m: Matrix, cols: nat): (r: Matrix)
    requires IsShape(m, |m|, cols)
    ensures IsShape(r, cols, |m|)
    ensures forall i, j :: 0 <= i < |m| && 0 <= j < cols ==> r[j][i] == m[i][j]
  {
    seq(cols, j requires 0 <= j < cols => Column(m, j))
  }

  lemma TransposeInvolutive(m: Matrix, cols: nat)
    requires IsShape(m, |m|, cols)
    ensures Transpose(Transpose(m, cols), |m|) == m
  {
    var t := Transpose(Transpose(m, cols), |m|);
    assert |t| == |m|;
    forall i | 0 <= i < |m|
      ensures t[i] == m[i]
    {
      assert |t[i]| == |m[i]|;
    }
  }
}
