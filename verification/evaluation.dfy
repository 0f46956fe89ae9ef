/** Read-only evaluation of the engine: the dual potentials at arbitrary query
    points (`evaluate_potential`) and the Sinkhorn objective estimate
    (`compute_ot`). Both read only the absorbed prefix of the buffers, of the
    potentials and of the cache. */
module Evaluation {
  import opened Outcomes
  import opened LogDomain
  import opened Distance
  import opened Blocks
  import opened OTStore

  /** `pot - dist`, entrywise: the argument of one soft-min. */
  function Offset(pot: seq<ExtReal>, dist: seq<real>): (r: seq<ExtReal>)
    requires |dist| == |pot|
    ensures |r| == |pot|
    ensures forall k :: 0 <= k < |pot| ==> r[k] == Shift(pot[k], -dist[k])
  {
    seq(|pot|, k requires 0 <= k < |pot| => Shift(pot[k], -dist[k]))
  }

  /** `-logsumexp(q - d, axis=1)`: one soft-min per row of `d`. */
  function RowDual(ops: LogOps, q: seq<ExtReal>, d: Matrix): (f: seq<ExtReal>)
    requires forall i :: 0 <= i < |d| ==> |d[i]| == |q|
    ensures |f| == |d|
    ensures forall i :: 0 <= i < |d| ==> f[i] == ops.negLogSumExp(Offset(q, d[i]))
  {
    seq(|d|, i requires 0 <= i < |d| => ops.negLogSumExp(Offset(q, d[i])))
  }

  /** `-logsumexp(p - d, axis=0)`: one soft-min per column of the `|p|` by `w` matrix `d`. */
  function ColDual(ops: LogOps, p: seq<ExtReal>, d: Matrix, w: nat): (g: seq<ExtReal>)
    requires IsShape(d, |p|, w)
    ensures |g| == w
    ensures forall j :: 0 <= j < w ==> g[j] == ops.negLogSumExp(Offset(p, Column(d, j)))
  {
    seq(w, j requires 0 <= j < w => ops.negLogSumExp(Offset(p, Column(d, j))))
  }

  /** A column soft-min is the row soft-min of the transpose. */
  lemma ColDualIsRowDualOfTranspose(ops: LogOps, p: seq<ExtReal>, d: Matrix, w: nat)
    requires IsShape(d, |p|, w)
    ensures ColDual(ops, p, d, w) == RowDual(ops, p, Transpose(d, w))
  {
  }

  /** The soft-min argument for query point `pt`: `pot_j - |pt - opp_j|^2` for
      every point `opp_j` of the opposite side. */
  function Kernel(pot: seq<ExtReal>, opp: seq<Point>, pt: Point): (r: seq<ExtReal>)
    requires |pot| == |opp|
  {
    seq(|opp|, j requires 0 <= j < |opp| => Shift(pot[j], -SqDiffSum(pt, opp[j])))
  }

  /** The soft-min value at query point `pt` against the points `opp` carrying
      the potential `pot`: zero when `opp` is empty (the source's "init" case),
      otherwise `-logsumexp_j(pot_j - |pt - opp_j|^2)`. */
  function SoftMin(ops: LogOps, pot: seq<ExtReal>, opp: seq<Point>, pt: Point): ExtReal
    requires |pot| == |opp|
  {
    if |opp| == 0 then Fin(0.0) else ops.negLogSumExp(Kernel(pot, opp, pt))
  }

  /** The row of distances from `pt` to each of `opp`, read back as the kernel argument. */
  lemma OffsetOfDistanceRow(pot: seq<ExtReal>, x: seq<Point>, opp: seq<Point>, i: nat)
    requires SameWidth(x, opp) && |pot| == |opp| && i < |x|
    ensures Offset(pot, ComputeDistance(x, opp)[i]) == Kernel(pot, opp, x[i])
  {
  }

  /** The same through a column of distances, using the symmetry of the distance. */
  lemma OffsetOfDistanceColumn(pot: seq<ExtReal>, opp: seq<Point>, y: seq<Point>, j: nat)
    requires SameWidth(opp, y) && |pot| == |opp| && j < |y|
    ensures Offset(pot, Column(ComputeDistance(opp, y), j)) == Kernel(pot, opp, y[j])
  {
    var d := ComputeDistance(opp, y);
    forall i | 0 <= i < |opp|
      ensures Offset(pot, Column(d, j))[i] == Kernel(pot, opp, y[j])[i]
    {
      SqDiffSumSymmetric(opp[i], y[j]);
    }
  }

  /** The source-side potentials evaluation reads: the averages when averaging is on. */
  function SourcePotential(s: State): (r: seq<ExtReal>)
    requires Valid(s)
    ensures |r| == s.cfg.maxSize
  {
    if s.cfg.averaging then s.avgP else s.p
  }

  /** The target-side potentials evaluation reads. */
  function TargetPotential(s: State): (r: seq<ExtReal>)
    requires Valid(s)
    ensures |r| == s.cfg.maxSize
  {
    if s.cfg.averaging then s.avgQ else s.q
  }

  /** The potential `f` at each of `pts`, against the absorbed target buffer and
      potential `pot`: zero while nothing is absorbed on that side, otherwise the
      soft-min of `pot_j - |pt - y_j|^2`. */
  function SourceDual(ops: LogOps, pot: seq<ExtReal>, ys: seq<Point>, pts: seq<Point>): (f: seq<ExtReal>)
    requires |pot| == |ys| && SameWidth(pts, ys)
    ensures |f| == |pts|
    ensures forall k :: 0 <= k < |pts| ==>
              f[k] == SoftMin(ops, pot, ys, pts[k])
  {
    if |ys| == 0 then Zeros(|pts|)
    else
      var d := ComputeDistance(pts, ys);
      assert forall k :: 0 <= k < |pts| ==> Offset(pot, d[k]) == Kernel(pot, ys, pts[k]);
      RowDual(ops, pot, d)
  }

  /** The potential `g` at each of `pts`, against the absorbed source buffer and
      potential `pot`, computed column-wise from `compute_distance(xs, pts)`. */
  function TargetDual(ops: LogOps, pot: seq<ExtReal>, xs: seq<Point>, pts: seq<Point>): (g: seq<ExtReal>)
    requires |pot| == |xs| && SameWidth(xs, pts)
    ensures |g| == |pts|
    ensures forall k :: 0 <= k < |pts| ==>
              g[k] == SoftMin(ops, pot, xs, pts[k])
  {
    if |xs| == 0 then Zeros(|pts|)
    else
      var d := ComputeDistance(xs, pts);
      assert forall k :: 0 <= k < |pts| ==> Offset(pot, Column(d, k)) == Kernel(pot, xs, pts[k]) by {
        forall k | 0 <= k < |pts| ensures Offset(pot, Column(d, k)) == Kernel(pot, xs, pts[k]) {
          OffsetOfDistanceColumn(pot, xs, pts, k);
        }
      }
      ColDual(ops, pot, d, |pts|)
  }

  /** The two sides are evaluated alike: the column-wise target update equals the
      row-wise source update with the roles of the point sets exchanged. */
  lemma {:induction false} TargetDualMirrorsSourceDual(ops: LogOps, pot: seq<ExtReal>, xs: seq<Point>, pts: seq<Point>)
    requires |pot| == |xs| && SameWidth(xs, pts)
    ensures SameWidth(pts, xs)
    ensures TargetDual(ops, pot, xs, pts) == SourceDual(ops, pot, xs, pts)
  {
  }

  /** The points of a batch have the engine's dimension. */
  predicate BatchFits(s: State, b: Option<seq<Point>>)
  {
    b.Some? ==> HasDim(b.value, s.cfg.dimension)
  }

  /** The result of `evaluate_potential`: `f` when `x` was given, `g` when `y` was. */
  datatype Evaluated = Evaluated(f: Option<seq<ExtReal>>, g: Option<seq<ExtReal>>)

  /** `evaluate_potential(x, y)`: the dual potentials at query points, against
      the absorbed opposite buffer and (averaged) potential. */
  function EvaluatePotential(ops: LogOps, s: State, x: Option<seq<Point>>, y: Option<seq<Point>>): (r: Result<Evaluated>)
    requires Valid(s) && BatchFits(s, x) && BatchFits(s, y)
    ensures r.Err? <==> x.None? && y.None?
    ensures r.Err? ==> r.error == MissingData
    ensures r.Ok? ==> (r.value.f.Some? <==> x.Some?) && (r.value.g.Some? <==> y.Some?)
    ensures r.Ok? && x.Some? ==>
              var f := r.value.f.value;
              && |f| == |x.value|
              && forall k :: 0 <= k < |f| ==>
                   f[k] == SoftMin(ops, TargetPotential(s)[..s.yCursor], s.y[..s.yCursor], x.value[k])
    ensures r.Ok? && y.Some? ==>
              var g := r.value.g.value;
              && |g| == |y.value|
              && forall k :: 0 <= k < |g| ==>
                   g[k] == SoftMin(ops, SourcePotential(s)[..s.xCursor], s.x[..s.xCursor], y.value[k])
  {
    if x.None? && y.None? then Err(MissingData)
    else
      var f := if x.Some? then
                 HasDimSameWidth(x.value, s.y[..s.yCursor], s.cfg.dimension);
                 Some(SourceDual(ops, TargetPotential(s)[..s.yCursor], s.y[..s.yCursor], x.value))
               else None;
      var g := if y.Some? then
                 HasDimSameWidth(s.x[..s.xCursor], y.value, s.cfg.dimension);
                 Some(TargetDual(ops, SourcePotential(s)[..s.xCursor], s.x[..s.xCursor], y.value))
               else None;
      Ok(Evaluated(f, g))
  }

  /** Evaluation reads only the absorbed prefix: two engines that agree on the
      absorbed points and potentials evaluate identically, whatever else they hold. */
  lemma EvaluateReadsOnlyAbsorbed(ops: LogOps, s: State, t: State, x: Option<seq<Point>>, y: Option<seq<Point>>)
    requires Valid(s) && Valid(t) && BatchFits(s, x) && BatchFits(s, y)
    requires s.cfg.dimension == t.cfg.dimension && s.cfg.averaging == t.cfg.averaging
    requires s.xCursor == t.xCursor && s.yCursor == t.yCursor
    requires s.x[..s.xCursor] == t.x[..t.xCursor] && s.y[..s.yCursor] == t.y[..t.yCursor]
    requires SourcePotential(s)[..s.xCursor] == SourcePotential(t)[..t.xCursor]
    requires TargetPotential(s)[..s.yCursor] == TargetPotential(t)[..t.yCursor]
    ensures BatchFits(t, x) && BatchFits(t, y)
    ensures EvaluatePotential(ops, s, x, y) == EvaluatePotential(ops, t, x, y)
  {
  }

  /** Evaluating the target potential equals evaluating the source potential of
      the engine with the two sides exchanged. */
  lemma EvaluateMirrors(ops: LogOps, s: State, pts: seq<Point>)
    requires Valid(s) && HasDim(pts, s.cfg.dimension)
    ensures EvaluatePotential(ops, Swap(s), Some(pts), None).value.f
         == EvaluatePotential(ops, s, None, Some(pts)).value.g
  {
    var t := Swap(s);
    var f := EvaluatePotential(ops, t, Some(pts), None).value.f.value;
    var g := EvaluatePotential(ops, s, None, Some(pts)).value.g.value;
    assert TargetPotential(t) == SourcePotential(s);
    assert t.y[..t.yCursor] == s.x[..s.xCursor];
    assert f == g;
  }

  /** Half of a log-domain value. */
  function Half(e: ExtReal): ExtReal
  {
    match e
    case NegInf => NegInf
    case Fin(v) => Fin(v / 2.0)
  }

  /** `v + log(count)` entrywise: a normalisation added back. */
  function Denormalize(ops: LogOps, v: seq<ExtReal>, count: nat): (r: seq<ExtReal>)
    ensures |r| == |v|
    ensures forall i :: 0 <= i < |v| ==> r[i] == Shift(v[i], ops.log(count as real))
  {
    seq(|v|, i requires 0 <= i < |v| => Shift(v[i], ops.log(count as real)))
  }

  /** The symmetrised estimate from soft-min potentials `f` (rows) and `g`
      (columns) over the non-empty distance block `d`: half the sum of the
      means of f, g and of the two soft-mins ff, gg taken back through the
      block, with their normalisation added back. */
  function Estimate(ops: LogOps, f: seq<ExtReal>, g: seq<ExtReal>, d: Matrix): ExtReal
    requires |f| > 0 && |g| > 0 && IsShape(d, |f|, |g|)
  {
    var ff := Denormalize(ops, RowDual(ops, g, d), |g|);
    var gg := Denormalize(ops, ColDual(ops, f, d, |g|), |f|);
    Half(Plus(Plus(Mean(f), Mean(ff)), Plus(Mean(g), Mean(gg))))
  }

  /** The dual objective of potentials `p` (rows) and `q` (columns) over the
      non-empty distance block `d`: the estimate from the soft-min of each
      side against the other. */
  function DualObjective(ops: LogOps, p: seq<ExtReal>, q: seq<ExtReal>, d: Matrix): ExtReal
    requires |p| > 0 && |q| > 0 && IsShape(d, |p|, |q|)
  {
    Estimate(ops, RowDual(ops, q, d), ColDual(ops, p, d, |q|), d)
  }

  /** Exchanging the roles of the two sides (and transposing the block) leaves
      the objective unchanged. */
  lemma DualObjectiveSymmetric(ops: LogOps, p: seq<ExtReal>, q: seq<ExtReal>, d: Matrix)
    requires |p| > 0 && |q| > 0 && IsShape(d, |p|, |q|)
    ensures DualObjective(ops, q, p, Transpose(d, |q|)) == DualObjective(ops, p, q, d)
  {
    var dt := Transpose(d, |q|);
    TransposeInvolutive(d, |q|);
    ColDualIsRowDualOfTranspose(ops, p, d, |q|);
    ColDualIsRowDualOfTranspose(ops, q, dt, |p|);
    var f := RowDual(ops, q, d);
    var g := ColDual(ops, p, d, |q|);
    ColDualIsRowDualOfTranspose(ops, f, d, |q|);
    ColDualIsRowDualOfTranspose(ops, g, dt, |p|);
    var a, b, c, e := Mean(f), Mean(Denormalize(ops, RowDual(ops, g, d), |q|)),
                      Mean(g), Mean(Denormalize(ops, ColDual(ops, f, d, |q|), |p|));
    PlusCommutes(Plus(a, b), Plus(c, e));
    PlusCommutes(a, b);
    PlusCommutes(c, e);
  }

  /** The distance block `compute_ot` reads: the cache, or a fresh computation
      from the buffers in no-memory mode. */
  function AbsorbedDistances(s: State): (d: Matrix)
    requires Valid(s)
    ensures IsShape(d, s.xCursor, s.yCursor)
  {
    if s.cfg.noMemory then
      HasDimSameWidth(s.x[..s.xCursor], s.y[..s.yCursor], s.cfg.dimension);
      ComputeDistance(s.x[..s.xCursor], s.y[..s.yCursor])
    else SubBlock(s.distance, s.xCursor, s.yCursor)
  }

  /** `compute_ot`: the Sinkhorn objective estimate from the current (averaged)
      potentials. With an empty side the reductions run over an empty axis and
      no estimate exists. */
  function ComputeOt(ops: LogOps, s: State): (r: Result<ExtReal>)
    requires Valid(s)
    ensures r.Err? <==> s.xCursor == 0 || s.yCursor == 0
    ensures r.Err? ==> r.error == EmptyReduction
  {
    if s.xCursor == 0 || s.yCursor == 0 then Err(EmptyReduction)
    else Ok(DualObjective(ops, SourcePotential(s)[..s.xCursor], TargetPotential(s)[..s.yCursor], AbsorbedDistances(s)))
  }

  /** With a consistent cache, reading distances from the cache and recomputing
      them from the buffers (no-memory mode) give the same estimate. */
  lemma ComputeOtCacheMatchesRecompute(ops: LogOps, s: State)
    requires Valid(s) && CacheConsistent(s)
    ensures ComputeOt(ops, s.(cfg := s.cfg.(noMemory := true)))
         == ComputeOt(ops, s.(cfg := s.cfg.(noMemory := false)))
  {
    var a := s.(cfg := s.cfg.(noMemory := true));
    var b := s.(cfg := s.cfg.(noMemory := false));
    var da, db := AbsorbedDistances(a), AbsorbedDistances(b);
    forall i | 0 <= i < s.xCursor
      ensures da[i] == db[i]
    {
      assert |da[i]| == |db[i]|;
    }
    assert da == db;
  }

  /** The estimate reads only the absorbed prefix of the potentials and the
      valid block of the cache. */
  lemma ComputeOtReadsOnlyAbsorbed(ops: LogOps, s: State, t: State)
    requires Valid(s) && Valid(t) && !s.cfg.noMemory && !t.cfg.noMemory
    requires s.cfg.averaging == t.cfg.averaging
    requires s.xCursor == t.xCursor && s.yCursor == t.yCursor
    requires SourcePotential(s)[..s.xCursor] == SourcePotential(t)[..t.xCursor]
    requires TargetPotential(s)[..s.yCursor] == TargetPotential(t)[..t.yCursor]
    requires forall i, j :: 0 <= i < s.xCursor && 0 <= j < s.yCursor ==> s.distance[i][j] == t.distance[i][j]
    ensures ComputeOt(ops, s) == ComputeOt(ops, t)
  {
    var ds, dt := AbsorbedDistances(s), AbsorbedDistances(t);
    forall i | 0 <= i < s.xCursor
      ensures ds[i] == dt[i]
    {
      assert |ds[i]| == |dt[i]|;
    }
    assert ds == dt;
  }

  /** The estimate does not depend on which distribution is called the source. */
  lemma ComputeOtSymmetric(ops: LogOps, s: State)
    requires Valid(s)
    ensures ComputeOt(ops, Swap(s)) == ComputeOt(ops, s)
  {
    var t := Swap(s);
    if s.xCursor > 0 && s.yCursor > 0 {
      var d := AbsorbedDistances(s);
      var dt := AbsorbedDistances(t);
      assert dt == Transpose(d, s.yCursor) by {
        if s.cfg.noMemory {
          HasDimSameWidth(s.x[..s.xCursor], s.y[..s.yCursor], s.cfg.dimension);
          ComputeDistanceTransposes(s.x[..s.xCursor], s.y[..s.yCursor]);
        }
        forall j | 0 <= j < s.yCursor
          ensures dt[j] == Transpose(d, s.yCursor)[j]
        {
          assert |dt[j]| == s.xCursor;
        }
      }
      DualObjectiveSymmetric(ops, SourcePotential(s)[..s.xCursor], TargetPotential(s)[..s.yCursor], d);
    }
  }
}
