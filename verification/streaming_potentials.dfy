/** What partial_fit does to the dual potentials: which slices it rewrites,
    with what, and which it leaves alone. The fresh values are stated against
    a reference definition (the soft-min of `pot_j - |pt - opp_j|^2` over the
    pre-call opposite side), independent of how the cache or the distance
    oracle produced them. */
module StreamingPotentials {
  import opened Outcomes
  import opened LogDomain
  import opened Distance
  import opened Blocks
  import opened OTStore
  import opened Evaluation
  import opened Streaming

  /** The fresh `f` value partial_fit computes for a source point `pt`: zero
      while no target is absorbed, otherwise the soft-min against the
      pre-call target buffer and potential. */
  function FreshF(ops: LogOps, s: State, pt: Point): ExtReal
    requires Valid(s)
  {
    SoftMin(ops, s.q[..s.yCursor], s.y[..s.yCursor], pt)
  }

  /** The fresh `g` value for a target point `pt`, against the pre-call source side. */
  function FreshG(ops: LogOps, s: State, pt: Point): ExtReal
    requires Valid(s)
  {
    SoftMin(ops, s.p[..s.xCursor], s.x[..s.xCursor], pt)
  }

  /** The soft-min rows partial_fit solves on the source side are the
      reference values at the points they stand for: the new batch in the
      streaming update, every absorbed point (read through the cache) in the
      full one. */
  lemma SourceFreshValues(ops: LogOps, s: State, xb: seq<Point>, d1: Matrix, full: bool, pts: seq<Point>)
    requires Valid(s) && HasDim(xb, s.cfg.dimension) && s.xCursor + |xb| <= s.cfg.maxSize
    requires IsShape(d1, s.cfg.maxSize, s.cfg.maxSize)
    requires !full ==> pts == xb
    requires full ==> |pts| >= s.xCursor + |xb|
    requires full ==> forall i, j :: 0 <= i < s.xCursor + |xb| && 0 <= j < s.yCursor ==> d1[i][j] == SqDiffSum(pts[i], s.y[j])
    ensures forall k :: 0 <= k < |SourceFresh(ops, s, xb, d1, full)| ==> SourceFresh(ops, s, xb, d1, full)[k] == FreshF(ops, s, pts[k])
  {
    var yc := s.yCursor;
    if yc > 0 {
      var q, ys := s.q[..yc], s.y[..yc];
      HasDimSameWidth(xb, ys, s.cfg.dimension);
      forall k | 0 <= k < |SourceFresh(ops, s, xb, d1, full)|
        ensures SourceFresh(ops, s, xb, d1, full)[k] == FreshF(ops, s, pts[k])
      {
        if full {
          var row := SubBlock(d1, s.xCursor + |xb|, yc)[k];
          assert Offset(q, row) == Kernel(q, ys, pts[k]);
        } else {
          OffsetOfDistanceRow(q, xb, ys, k);
        }
      }
    }
  }

  /** A cache column read by the full target update, offset by the source
      potential, is the kernel row of the point it stands for. */
  lemma CachedColumnKernel(s: State, d2: Matrix, cols: nat, pts: seq<Point>, k: nat)
    requires Valid(s) && IsShape(d2, s.cfg.maxSize, s.cfg.maxSize) && cols <= s.cfg.maxSize
    requires HasDim(pts, s.cfg.dimension) && k < cols <= |pts|
    requires forall i, j :: 0 <= i < s.xCursor && 0 <= j < cols ==> d2[i][j] == SqDiffSum(s.x[i], pts[j])
    ensures Offset(s.p[..s.xCursor], Column(SubBlock(d2, s.xCursor, cols), k))
            == Kernel(s.p[..s.xCursor], s.x[..s.xCursor], pts[k])
  {
    var xc := s.xCursor;
    var col := Column(SubBlock(d2, xc, cols), k);
    forall i | 0 <= i < xc
      ensures Offset(s.p[..xc], col)[i] == Kernel(s.p[..xc], s.x[..xc], pts[k])[i]
    {
      SqDiffSumSymmetric(s.x[i], pts[k]);
    }
  }

  /** The target-side mirror of `SourceFreshValues`, column by column. */
  lemma TargetFreshValues(ops: LogOps, s: State, yb: seq<Point>, d2: Matrix, full: bool, pts: seq<Point>)
    requires Valid(s) && HasDim(yb, s.cfg.dimension) && s.yCursor + |yb| <= s.cfg.maxSize
    requires IsShape(d2, s.cfg.maxSize, s.cfg.maxSize)
    requires HasDim(pts, s.cfg.dimension)
    requires !full ==> pts == yb
    requires full ==> |pts| >= s.yCursor + |yb|
    requires full ==> forall i, j :: 0 <= i < s.xCursor && 0 <= j < s.yCursor + |yb| ==> d2[i][j] == SqDiffSum(s.x[i], pts[j])
    ensures forall k :: 0 <= k < |TargetFresh(ops, s, yb, d2, full)| ==> TargetFresh(ops, s, yb, d2, full)[k] == FreshG(ops, s, pts[k])
  {
    var xc := s.xCursor;
    if xc > 0 {
      var p, xs := s.p[..xc], s.x[..xc];
      HasDimSameWidth(xs, yb, s.cfg.dimension);
      forall k | 0 <= k < |TargetFresh(ops, s, yb, d2, full)|
        ensures TargetFresh(ops, s, yb, d2, full)[k] == FreshG(ops, s, pts[k])
      {
        if full {
          CachedColumnKernel(s, d2, s.yCursor + |yb|, pts, k);
        } else {
          OffsetOfDistanceColumn(p, xs, yb, k);
        }
      }
    }
  }

  /** After the first cache write, the rows a full source update reads hold
      the distances of the grown source buffer to the absorbed targets. */
  lemma SourceRowsConsistent(s: State, xb: seq<Point>, yb: seq<Point>)
    requires Valid(s) && HasDim(xb, s.cfg.dimension) && HasDim(yb, s.cfg.dimension)
    requires s.xCursor + |xb| <= s.cfg.maxSize && s.yCursor + |yb| <= s.cfg.maxSize
    requires CacheConsistent(s)
    ensures var d1 := SourceRowsCache(s, xb);
            var xs := Grown(s, xb, yb).0;
            forall i, j :: 0 <= i < s.xCursor + |xb| && 0 <= j < s.yCursor ==> d1[i][j] == SqDiffSum(xs[i], s.y[j])
  {
  }

  /** After the second cache write, the columns a full target update reads
      hold the distances of the absorbed sources to the grown target buffer,
      provided the first write left the absorbed source rows alone. */
  lemma TargetColsConsistent(s: State, xb: seq<Point>, yb: seq<Point>, d1: Matrix)
    requires Valid(s) && HasDim(xb, s.cfg.dimension) && HasDim(yb, s.cfg.dimension)
    requires s.xCursor + |xb| <= s.cfg.maxSize && s.yCursor + |yb| <= s.cfg.maxSize
    requires CacheConsistent(s) && IsShape(d1, s.cfg.maxSize, s.cfg.maxSize)
    requires forall i, j :: 0 <= i < s.xCursor && 0 <= j < s.yCursor ==> d1[i][j] == s.distance[i][j]
    ensures var d2 := TargetColsCache(s, d1, yb);
            var ys := Grown(s, xb, yb).1;
            forall i, j :: 0 <= i < s.xCursor && 0 <= j < s.yCursor + |yb| ==> d2[i][j] == SqDiffSum(s.x[i], ys[j])
  {
  }

  /** The streaming update of the source potential, entry by entry, for the
      grown source buffer `tx`. */
  lemma SourceStreamed(ops: LogOps, s: State, xb: seq<Point>, step: real, avgStep: real,
                       tp: seq<ExtReal>, ta: seq<ExtReal>, tx: seq<Point>, tc: nat)
    requires Valid(s) && HasDim(xb, s.cfg.dimension) && s.xCursor + |xb| <= s.cfg.maxSize
    requires 0.0 <= step <= 1.0 && 0.0 <= avgStep <= 1.0 && |xb| > 0 && tc == s.xCursor + |xb|
    requires (tp, ta) == SourceBlend(ops, s, xb, SourceRowsCache(s, xb), false, step, avgStep)
    requires tx == Splice(s.x, s.xCursor, xb)
    ensures forall i :: 0 <= i < s.cfg.maxSize ==>
              tp[i] == if i < s.xCursor then Discounted(ops, s.p[i], step)
                       else if i < tc then Shift(Plus(LogWeight(ops, step), FreshF(ops, s, tx[i])), -ops.log((tc - s.xCursor) as real))
                       else s.p[i]
  {
    SourceFreshValues(ops, s, xb, SourceRowsCache(s, xb), false, xb);
  }

  /** The streaming update of the target potential, entry by entry. */
  lemma TargetStreamed(ops: LogOps, s: State, xb: seq<Point>, yb: seq<Point>, step: real, avgStep: real,
                       tq: seq<ExtReal>, ta: seq<ExtReal>, ty: seq<Point>, tc: nat)
    requires Valid(s) && HasDim(xb, s.cfg.dimension) && s.xCursor + |xb| <= s.cfg.maxSize
    requires HasDim(yb, s.cfg.dimension) && s.yCursor + |yb| <= s.cfg.maxSize
    requires 0.0 <= step <= 1.0 && 0.0 <= avgStep <= 1.0 && |yb| > 0 && tc == s.yCursor + |yb|
    requires (tq, ta) == TargetBlend(ops, s, yb, TargetColsCache(s, SourceRowsCache(s, xb), yb), false, step, avgStep)
    requires ty == Splice(s.y, s.yCursor, yb)
    ensures forall j :: 0 <= j < s.cfg.maxSize ==>
              tq[j] == if j < s.yCursor then Discounted(ops, s.q[j], step)
                       else if j < tc then Shift(Plus(LogWeight(ops, step), FreshG(ops, s, ty[j])), -ops.log((tc - s.yCursor) as real))
                       else s.q[j]
  {
    TargetFreshValues(ops, s, yb, TargetColsCache(s, SourceRowsCache(s, xb), yb), false, yb);
  }

  /** The full update of the source potential, entry by entry, for a
      consistent cache. */
  lemma SourceRewritten(ops: LogOps, s: State, xb: seq<Point>, yb: seq<Point>, step: real, avgStep: real,
                        tp: seq<ExtReal>, ta: seq<ExtReal>, tx: seq<Point>, tc: nat)
    requires Valid(s) && HasDim(xb, s.cfg.dimension) && HasDim(yb, s.cfg.dimension)
    requires s.xCursor + |xb| <= s.cfg.maxSize && s.yCursor + |yb| <= s.cfg.maxSize
    requires 0.0 <= step <= 1.0 && 0.0 <= avgStep <= 1.0 && |xb| > 0 && CacheConsistent(s)
    requires tc == s.xCursor + |xb|
    requires (tp, ta) == SourceBlend(ops, s, xb, SourceRowsCache(s, xb), true, step, avgStep)
    requires tx == Grown(s, xb, yb).0
    ensures forall i :: 0 <= i < s.cfg.maxSize ==>
              tp[i] == if i < tc then Shift(FreshF(ops, s, tx[i]), -ops.log(tc as real)) else s.p[i]
  {
    var d1 := SourceRowsCache(s, xb);
    var f := SourceFresh(ops, s, xb, d1, true);
    assert tp == FullRewrite(ops, s.p, f);
    SourceRowsConsistent(s, xb, yb);
    SourceFreshValues(ops, s, xb, d1, true, tx);
    forall i | 0 <= i < s.cfg.maxSize
      ensures tp[i] == if i < tc then Shift(FreshF(ops, s, tx[i]), -ops.log(tc as real)) else s.p[i]
    {
      if i < tc {
        assert tp[i] == Shift(f[i], -ops.log(|f| as real));
      }
    }
  }

  /** The full update of the target potential, entry by entry. */
  lemma TargetRewritten(ops: LogOps, s: State, xb: seq<Point>, yb: seq<Point>, step: real, avgStep: real,
                        tq: seq<ExtReal>, ta: seq<ExtReal>, ty: seq<Point>, tc: nat)
    requires Valid(s) && HasDim(xb, s.cfg.dimension) && HasDim(yb, s.cfg.dimension)
    requires s.xCursor + |xb| <= s.cfg.maxSize && s.yCursor + |yb| <= s.cfg.maxSize
    requires 0.0 <= step <= 1.0 && 0.0 <= avgStep <= 1.0 && |yb| > 0 && CacheConsistent(s)
    requires tc == s.yCursor + |yb|
    requires (tq, ta) == TargetBlend(ops, s, yb, TargetColsCache(s, SourceRowsCache(s, xb), yb), true, step, avgStep)
    requires ty == Grown(s, xb, yb).1
    ensures forall j :: 0 <= j < s.cfg.maxSize ==>
              tq[j] == if j < tc then Shift(FreshG(ops, s, ty[j]), -ops.log(tc as real)) else s.q[j]
  {
    var d1 := SourceRowsCache(s, xb);
    var d2 := TargetColsCache(s, d1, yb);
    var g := TargetFresh(ops, s, yb, d2, true);
    assert tq == FullRewrite(ops, s.q, g);
    TargetColsConsistent(s, xb, yb, d1);
    TargetFreshValues(ops, s, yb, d2, true, ty);
    forall j | 0 <= j < s.cfg.maxSize
      ensures tq[j] == if j < tc then Shift(FreshG(ops, s, ty[j]), -ops.log(tc as real)) else s.q[j]
    {
      if j < tc {
        assert tq[j] == Shift(g[j], -ops.log(|g| as real));
      }
    }
  }

  /** Absorption's fields, side by side: the grown buffers and each side's
      blended potential and average. */
  lemma AbsorbFields(ops: LogOps, s: State, xb: seq<Point>, yb: seq<Point>, full: bool, step: real, avgStep: real)
    requires Valid(s) && HasDim(xb, s.cfg.dimension) && HasDim(yb, s.cfg.dimension)
    requires s.xCursor + |xb| <= s.cfg.maxSize && s.yCursor + |yb| <= s.cfg.maxSize
    requires 0.0 <= step <= 1.0 && 0.0 <= avgStep <= 1.0
    ensures var t := Absorb(ops, s, xb, yb, full, step, avgStep);
            var d1 := SourceRowsCache(s, xb);
            && (t.x, t.y) == Grown(s, xb, yb)
            && (t.p, t.avgP) == SourceBlend(ops, s, xb, d1, full, step, avgStep)
            && (t.q, t.avgQ) == TargetBlend(ops, s, yb, TargetColsCache(s, d1, yb), full, step, avgStep)
  {
  }

  /** The streaming update of `p` from `s` to `t`: the entries absorbed
      before the call are discounted by `1 - step` (dropped when `step == 1`),
      the new entries get `log(step) + f - log(n)` with `f` the soft-min
      against the pre-call targets and `n` the number of new points, and the
      entries beyond the new cursor are untouched. */
  predicate StreamsSource(ops: LogOps, s: State, t: State, step: real)
    requires Valid(s) && Valid(t) && t.cfg == s.cfg && 0.0 <= step <= 1.0
  {
    forall i :: 0 <= i < s.cfg.maxSize ==>
      t.p[i] == if i < s.xCursor then Discounted(ops, s.p[i], step)
                else if i < t.xCursor then Shift(Plus(LogWeight(ops, step), FreshF(ops, s, t.x[i])), -ops.log((t.xCursor - s.xCursor) as real))
                else s.p[i]
  }

  /** The streaming update of `q` from `s` to `t`, the mirror of `StreamsSource`. */
  predicate StreamsTarget(ops: LogOps, s: State, t: State, step: real)
    requires Valid(s) && Valid(t) && t.cfg == s.cfg && 0.0 <= step <= 1.0
  {
    forall j :: 0 <= j < s.cfg.maxSize ==>
      t.q[j] == if j < s.yCursor then Discounted(ops, s.q[j], step)
                else if j < t.yCursor then Shift(Plus(LogWeight(ops, step), FreshG(ops, s, t.y[j])), -ops.log((t.yCursor - s.yCursor) as real))
                else s.q[j]
  }

  /** The streaming (non-full) update of the source potential, for a
      non-empty clipped batch. */
  lemma AbsorbStreamsSource(ops: LogOps, s: State, xb: seq<Point>, yb: seq<Point>,
                            step: real, avgStep: real)
    requires Valid(s) && HasDim(xb, s.cfg.dimension) && HasDim(yb, s.cfg.dimension)
    requires s.xCursor + |xb| <= s.cfg.maxSize && s.yCursor + |yb| <= s.cfg.maxSize
    requires 0.0 <= step <= 1.0 && 0.0 <= avgStep <= 1.0
    requires |xb| > 0
    ensures StreamsSource(ops, s, Absorb(ops, s, xb, yb, false, step, avgStep), step)
  {
    AbsorbFields(ops, s, xb, yb, false, step, avgStep);
    var t := Absorb(ops, s, xb, yb, false, step, avgStep);
    SourceStreamed(ops, s, xb, step, avgStep, t.p, t.avgP, t.x, t.xCursor);
  }

  /** The target-side mirror of `AbsorbStreamsSource`. */
  lemma AbsorbStreamsTarget(ops: LogOps, s: State, xb: seq<Point>, yb: seq<Point>,
                            step: real, avgStep: real)
    requires Valid(s) && HasDim(xb, s.cfg.dimension) && HasDim(yb, s.cfg.dimension)
    requires s.xCursor + |xb| <= s.cfg.maxSize && s.yCursor + |yb| <= s.cfg.maxSize
    requires 0.0 <= step <= 1.0 && 0.0 <= avgStep <= 1.0
    requires |yb| > 0
    ensures StreamsTarget(ops, s, Absorb(ops, s, xb, yb, false, step, avgStep), step)
  {
    AbsorbFields(ops, s, xb, yb, false, step, avgStep);
    var t := Absorb(ops, s, xb, yb, false, step, avgStep);
    TargetStreamed(ops, s, xb, yb, step, avgStep, t.q, t.avgQ, t.y, t.yCursor);
  }

  /** With averaging on, the streaming update folds the new source potential
      into the running average over `[0, new cursor)` and nowhere else. */
  lemma AbsorbAveragesSource(ops: LogOps, s: State, xb: seq<Point>, yb: seq<Point>,
                             step: real, avgStep: real)
    requires Valid(s) && HasDim(xb, s.cfg.dimension) && HasDim(yb, s.cfg.dimension)
    requires s.xCursor + |xb| <= s.cfg.maxSize && s.yCursor + |yb| <= s.cfg.maxSize
    requires 0.0 <= step <= 1.0 && 0.0 <= avgStep <= 1.0
    requires |xb| > 0 && s.cfg.averaging
    ensures var t := Absorb(ops, s, xb, yb, false, step, avgStep);
            forall i :: 0 <= i < s.cfg.maxSize ==>
              t.avgP[i] == if i < t.xCursor then Averaged(ops, s.avgP[i], t.p[i], avgStep) else s.avgP[i]
  {
  }

  /** The target-side mirror of `AbsorbAveragesSource`. */
  lemma AbsorbAveragesTarget(ops: LogOps, s: State, xb: seq<Point>, yb: seq<Point>,
                             step: real, avgStep: real)
    requires Valid(s) && HasDim(xb, s.cfg.dimension) && HasDim(yb, s.cfg.dimension)
    requires s.xCursor + |xb| <= s.cfg.maxSize && s.yCursor + |yb| <= s.cfg.maxSize
    requires 0.0 <= step <= 1.0 && 0.0 <= avgStep <= 1.0
    requires |yb| > 0 && s.cfg.averaging
    ensures var t := Absorb(ops, s, xb, yb, false, step, avgStep);
            forall j :: 0 <= j < s.cfg.maxSize ==>
              t.avgQ[j] == if j < t.yCursor then Averaged(ops, s.avgQ[j], t.q[j], avgStep) else s.avgQ[j]
  {
  }

  /** The full update recomputes the source potential at every absorbed point
      (through the cache, which must be consistent), normalised by the new
      cursor; it leaves the entries beyond alone. */
  lemma AbsorbFullSource(ops: LogOps, s: State, xb: seq<Point>, yb: seq<Point>,
                         step: real, avgStep: real)
    requires Valid(s) && HasDim(xb, s.cfg.dimension) && HasDim(yb, s.cfg.dimension)
    requires s.xCursor + |xb| <= s.cfg.maxSize && s.yCursor + |yb| <= s.cfg.maxSize
    requires 0.0 <= step <= 1.0 && 0.0 <= avgStep <= 1.0
    requires |xb| > 0 && CacheConsistent(s)
    ensures var t := Absorb(ops, s, xb, yb, true, step, avgStep);
            forall i :: 0 <= i < s.cfg.maxSize ==>
                 t.p[i] == if i < t.xCursor then Shift(FreshF(ops, s, t.x[i]), -ops.log(t.xCursor as real)) else s.p[i]
  {
    AbsorbFields(ops, s, xb, yb, true, step, avgStep);
    var t := Absorb(ops, s, xb, yb, true, step, avgStep);
    SourceRewritten(ops, s, xb, yb, step, avgStep, t.p, t.avgP, t.x, t.xCursor);
  }

  /** The target-side mirror of `AbsorbFullSource`. */
  lemma AbsorbFullTarget(ops: LogOps, s: State, xb: seq<Point>, yb: seq<Point>,
                         step: real, avgStep: real)
    requires Valid(s) && HasDim(xb, s.cfg.dimension) && HasDim(yb, s.cfg.dimension)
    requires s.xCursor + |xb| <= s.cfg.maxSize && s.yCursor + |yb| <= s.cfg.maxSize
    requires 0.0 <= step <= 1.0 && 0.0 <= avgStep <= 1.0
    requires |yb| > 0 && CacheConsistent(s)
    ensures var t := Absorb(ops, s, xb, yb, true, step, avgStep);
            forall j :: 0 <= j < s.cfg.maxSize ==>
                 t.q[j] == if j < t.yCursor then Shift(FreshG(ops, s, t.y[j]), -ops.log(t.yCursor as real)) else s.q[j]
  {
    AbsorbFields(ops, s, xb, yb, true, step, avgStep);
    var t := Absorb(ops, s, xb, yb, true, step, avgStep);
    TargetRewritten(ops, s, xb, yb, step, avgStep, t.q, t.avgQ, t.y, t.yCursor);
  }

  /** The full update never touches the running averages. */
  lemma AbsorbFullKeepsAverages(ops: LogOps, s: State, xb: seq<Point>, yb: seq<Point>,
                                step: real, avgStep: real)
    requires Valid(s) && HasDim(xb, s.cfg.dimension) && HasDim(yb, s.cfg.dimension)
    requires s.xCursor + |xb| <= s.cfg.maxSize && s.yCursor + |yb| <= s.cfg.maxSize
    requires 0.0 <= step <= 1.0 && 0.0 <= avgStep <= 1.0
    ensures var t := Absorb(ops, s, xb, yb, true, step, avgStep);
            t.avgP == s.avgP && t.avgQ == s.avgQ
  {
  }

  /** A side that absorbs nothing keeps its potential and its average. */
  lemma AbsorbSkipsEmptySides(ops: LogOps, s: State, xb: seq<Point>, yb: seq<Point>,
                              full: bool, step: real, avgStep: real)
    requires Valid(s) && HasDim(xb, s.cfg.dimension) && HasDim(yb, s.cfg.dimension)
    requires s.xCursor + |xb| <= s.cfg.maxSize && s.yCursor + |yb| <= s.cfg.maxSize
    requires 0.0 <= step <= 1.0 && 0.0 <= avgStep <= 1.0
    ensures var t := Absorb(ops, s, xb, yb, full, step, avgStep);
            && (|xb| == 0 ==> t.p == s.p && t.avgP == s.avgP)
            && (|yb| == 0 ==> t.q == s.q && t.avgQ == s.avgQ)
  {
  }

  /** The streaming update of `p` (partial_fit without `full_update`) when the
      call absorbs source points: the absorbed entries are discounted by
      `1 - step` (dropped when `step == 1`), the new entries get
      `log(step) + f - log(n)` with `f` the soft-min against the pre-call
      targets, and the entries beyond the new cursor are untouched. */
  lemma PartialFitStreamsSource(ops: LogOps, s: State, x: Option<seq<Point>>, y: Option<seq<Point>>,
                                step: real, avgStep: real)
    requires FitArgs(s, x, y, step, avgStep) && (x.Some? || y.Some?)
    ensures var t := PartialFit(ops, s, x, y, step, false, avgStep).value;
            t.xCursor > s.xCursor ==> StreamsSource(ops, s, t, step)
  {
    var xb, yb := Clip(x, s.cfg.maxSize - s.xCursor), Clip(y, s.cfg.maxSize - s.yCursor);
    PartialFitIsAbsorb(ops, s, x, y, step, false, avgStep);
    if |xb| > 0 {
      AbsorbStreamsSource(ops, s, xb, yb, step, avgStep);
    }
  }

  /** The target-side mirror of `PartialFitStreamsSource`, for `q`. */
  lemma PartialFitStreamsTarget(ops: LogOps, s: State, x: Option<seq<Point>>, y: Option<seq<Point>>,
                                step: real, avgStep: real)
    requires FitArgs(s, x, y, step, avgStep) && (x.Some? || y.Some?)
    ensures var t := PartialFit(ops, s, x, y, step, false, avgStep).value;
            t.yCursor > s.yCursor ==> StreamsTarget(ops, s, t, step)
  {
    var xb, yb := Clip(x, s.cfg.maxSize - s.xCursor), Clip(y, s.cfg.maxSize - s.yCursor);
    PartialFitIsAbsorb(ops, s, x, y, step, false, avgStep);
    if |yb| > 0 {
      AbsorbStreamsTarget(ops, s, xb, yb, step, avgStep);
    }
  }

  /** With averaging on, the streaming update blends the new `p` into the
      running average over the absorbed prefix, and leaves the rest. */
  lemma PartialFitAveragesSource(ops: LogOps, s: State, x: Option<seq<Point>>, y: Option<seq<Point>>,
                                 step: real, avgStep: real)
    requires FitArgs(s, x, y, step, avgStep) && (x.Some? || y.Some?) && s.cfg.averaging
    ensures var t := PartialFit(ops, s, x, y, step, false, avgStep).value;
            t.xCursor > s.xCursor ==>
              forall i :: 0 <= i < s.cfg.maxSize ==>
                t.avgP[i] == if i < t.xCursor then Averaged(ops, s.avgP[i], t.p[i], avgStep) else s.avgP[i]
  {
    var xb, yb := Clip(x, s.cfg.maxSize - s.xCursor), Clip(y, s.cfg.maxSize - s.yCursor);
    PartialFitIsAbsorb(ops, s, x, y, step, false, avgStep);
    if |xb| > 0 {
      AbsorbAveragesSource(ops, s, xb, yb, step, avgStep);
    }
  }

  /** The target-side mirror of `PartialFitAveragesSource`, for `avg_q`. */
  lemma PartialFitAveragesTarget(ops: LogOps, s: State, x: Option<seq<Point>>, y: Option<seq<Point>>,
                                 step: real, avgStep: real)
    requires FitArgs(s, x, y, step, avgStep) && (x.Some? || y.Some?) && s.cfg.averaging
    ensures var t := PartialFit(ops, s, x, y, step, false, avgStep).value;
            t.yCursor > s.yCursor ==>
              forall j :: 0 <= j < s.cfg.maxSize ==>
                t.avgQ[j] == if j < t.yCursor then Averaged(ops, s.avgQ[j], t.q[j], avgStep) else s.avgQ[j]
  {
    var xb, yb := Clip(x, s.cfg.maxSize - s.xCursor), Clip(y, s.cfg.maxSize - s.yCursor);
    PartialFitIsAbsorb(ops, s, x, y, step, false, avgStep);
    if |yb| > 0 {
      AbsorbAveragesTarget(ops, s, xb, yb, step, avgStep);
    }
  }

  /** The full update (`full_update=True`) on a consistent cache: every
      absorbed source point, old and new, gets the soft-min against the
      pre-call targets, normalised by the new cursor; entries beyond are
      untouched. */
  lemma PartialFitFullSource(ops: LogOps, s: State, x: Option<seq<Point>>, y: Option<seq<Point>>,
                             step: real, avgStep: real)
    requires FitArgs(s, x, y, step, avgStep) && (x.Some? || y.Some?) && CacheConsistent(s)
    ensures var t := PartialFit(ops, s, x, y, step, true, avgStep).value;
            t.xCursor > s.xCursor ==>
              forall i :: 0 <= i < s.cfg.maxSize ==>
                t.p[i] == if i < t.xCursor then Shift(FreshF(ops, s, t.x[i]), -ops.log(t.xCursor as real)) else s.p[i]
  {
    var xb, yb := Clip(x, s.cfg.maxSize - s.xCursor), Clip(y, s.cfg.maxSize - s.yCursor);
    PartialFitIsAbsorb(ops, s, x, y, step, true, avgStep);
    if |xb| > 0 {
      AbsorbFullSource(ops, s, xb, yb, step, avgStep);
    }
  }

  /** The target-side mirror of `PartialFitFullSource`, for `q`. */
  lemma PartialFitFullTarget(ops: LogOps, s: State, x: Option<seq<Point>>, y: Option<seq<Point>>,
                             step: real, avgStep: real)
    requires FitArgs(s, x, y, step, avgStep) && (x.Some? || y.Some?) && CacheConsistent(s)
    ensures var t := PartialFit(ops, s, x, y, step, true, avgStep).value;
            t.yCursor > s.yCursor ==>
              forall j :: 0 <= j < s.cfg.maxSize ==>
                t.q[j] == if j < t.yCursor then Shift(FreshG(ops, s, t.y[j]), -ops.log(t.yCursor as real)) else s.q[j]
  {
    var xb, yb := Clip(x, s.cfg.maxSize - s.xCursor), Clip(y, s.cfg.maxSize - s.yCursor);
    PartialFitIsAbsorb(ops, s, x, y, step, true, avgStep);
    if |yb| > 0 {
      AbsorbFullTarget(ops, s, xb, yb, step, avgStep);
    }
  }

  /** The full update leaves both running averages alone. */
  lemma PartialFitFullKeepsAverages(ops: LogOps, s: State, x: Option<seq<Point>>, y: Option<seq<Point>>,
                                    step: real, avgStep: real)
    requires FitArgs(s, x, y, step, avgStep) && (x.Some? || y.Some?)
    ensures var t := PartialFit(ops, s, x, y, step, true, avgStep).value;
            t.avgP == s.avgP && t.avgQ == s.avgQ
  {
    var xb, yb := Clip(x, s.cfg.maxSize - s.xCursor), Clip(y, s.cfg.maxSize - s.yCursor);
    PartialFitIsAbsorb(ops, s, x, y, step, true, avgStep);
    AbsorbFullKeepsAverages(ops, s, xb, yb, step, avgStep);
  }

  /** A side that absorbs nothing (absent, or offered at a full buffer) keeps
      its potential and its running average. */
  lemma PartialFitSkipsEmptySides(ops: LogOps, s: State, x: Option<seq<Point>>, y: Option<seq<Point>>,
                                  step: real, full: bool, avgStep: real)
    requires FitArgs(s, x, y, step, avgStep) && (x.Some? || y.Some?)
    ensures var t := PartialFit(ops, s, x, y, step, full, avgStep).value;
            && (t.xCursor == s.xCursor ==> t.p == s.p && t.avgP == s.avgP)
            && (t.yCursor == s.yCursor ==> t.q == s.q && t.avgQ == s.avgQ)
  {
    var xb, yb := Clip(x, s.cfg.maxSize - s.xCursor), Clip(y, s.cfg.maxSize - s.yCursor);
    PartialFitIsAbsorb(ops, s, x, y, step, full, avgStep);
    AbsorbSkipsEmptySides(ops, s, xb, yb, full, step, avgStep);
  }
}
