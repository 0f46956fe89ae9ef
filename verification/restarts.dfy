/** `OT.reset` and `OT.random_fit`: the two operations that replace the
    absorbed samples wholesale instead of appending to them. Both compute the
    new potentials against the pre-call state; `reset` also refills the cache
    for the new pairs, `random_fit` leaves the cache alone. */
module Restarts {
  import opened Outcomes
  import opened LogDomain
  import opened Distance
  import opened Blocks
  import opened OTStore
  import opened Evaluation
  import opened Streaming
  import opened StreamingPotentials

  /** `reset(x, y)`: both potentials are evaluated at the new points against
      the old absorbed state (through the averages when averaging), then the
      buffers are overwritten from the front, the cache block of the new pairs
      is recomputed, the potentials are normalised by the new counts and the
      update counter restarts. A batch larger than the capacity does not fit
      its buffer slice. */
  function Reset(ops: LogOps, s: State, x: seq<Point>, y: seq<Point>): (r: Result<State>)
    requires Valid(s) && HasDim(x, s.cfg.dimension) && HasDim(y, s.cfg.dimension)
    ensures r.Err? <==> |x| > s.cfg.maxSize || |y| > s.cfg.maxSize
    ensures r.Err? ==> r.error == BroadcastMismatch
    ensures r.Ok? ==> var t := r.value;
              && Valid(t) && t.cfg == s.cfg
              && t.xCursor == |x| && t.yCursor == |y| && t.nUpdates == 0
              && t.computations == s.computations + s.xCursor * |y| + s.yCursor * |x| + |x| * |y|
  {
    var cap := s.cfg.maxSize;
    if |x| > cap || |y| > cap then Err(BroadcastMismatch)
    else
      var e := EvaluatePotential(ops, s, Some(x), Some(y)).value;
      var n, m := |x|, |y|;
      HasDimSameWidth(x, y, s.cfg.dimension);
      var p := Splice(s.p, 0, Normalize(ops, e.f.value, n));
      var q := Splice(s.q, 0, Normalize(ops, e.g.value, m));
      Ok(s.(x := Splice(s.x, 0, x), y := Splice(s.y, 0, y),
            distance := WriteBlock(s.distance, 0, 0, ComputeDistance(x, y), m),
            p := p, q := q,
            avgP := if s.cfg.averaging then Splice(s.avgP, 0, p[..n]) else s.avgP,
            avgQ := if s.cfg.averaging then Splice(s.avgQ, 0, q[..m]) else s.avgQ,
            xCursor := n, yCursor := m,
            computations := s.computations + s.xCursor * m + s.yCursor * n + n * m,
            nUpdates := 0))
  }

  /** A reset overwrites the leading buffer rows with the new points and
      keeps the rows past them. */
  lemma ResetOverwritesBuffers(ops: LogOps, s: State, x: seq<Point>, y: seq<Point>)
    requires Valid(s) && HasDim(x, s.cfg.dimension) && HasDim(y, s.cfg.dimension)
    requires |x| <= s.cfg.maxSize && |y| <= s.cfg.maxSize
    ensures var t := Reset(ops, s, x, y).value;
            && t.x[..|x|] == x && t.x[|x|..] == s.x[|x|..]
            && t.y[..|y|] == y && t.y[|y|..] == s.y[|y|..]
  {
    var t := Reset(ops, s, x, y).value;
    assert t.x[..|x|] == x && t.x[|x|..] == s.x[|x|..];
    assert t.y[..|y|] == y && t.y[|y|..] == s.y[|y|..];
  }

  /** After a reset every cache entry of the new rectangle holds the distance
      of its buffered pair, whatever the cache held before, and the rest of
      the cache is untouched. */
  lemma ResetEstablishesCacheConsistency(ops: LogOps, s: State, x: seq<Point>, y: seq<Point>)
    requires Valid(s) && HasDim(x, s.cfg.dimension) && HasDim(y, s.cfg.dimension)
    requires |x| <= s.cfg.maxSize && |y| <= s.cfg.maxSize
    ensures var t := Reset(ops, s, x, y).value;
            && CacheConsistent(t)
            && forall i, j :: 0 <= i < s.cfg.maxSize && 0 <= j < s.cfg.maxSize && (i >= |x| || j >= |y|) ==>
                 t.distance[i][j] == s.distance[i][j]
  {
    var t := Reset(ops, s, x, y).value;
    ResetOverwritesBuffers(ops, s, x, y);
    forall i, j | 0 <= i < t.xCursor && 0 <= j < t.yCursor
      ensures t.distance[i][j] == SqDiffSum(t.x[i], t.y[j])
    {
      assert t.x[i] == t.x[..|x|][i] && t.y[j] == t.y[..|y|][j];
    }
  }

  /** The potentials a reset writes: each new source point gets the soft-min of
      the old (averaged) target potential against the old target buffer,
      normalised by the new source count, and symmetrically for the targets;
      the entries past the new cursors are untouched. */
  lemma ResetPotentials(ops: LogOps, s: State, x: seq<Point>, y: seq<Point>)
    requires Valid(s) && HasDim(x, s.cfg.dimension) && HasDim(y, s.cfg.dimension)
    requires |x| <= s.cfg.maxSize && |y| <= s.cfg.maxSize
    ensures var t := Reset(ops, s, x, y).value;
            && (forall i :: 0 <= i < s.cfg.maxSize ==>
                  t.p[i] == if i < |x| then Shift(SoftMin(ops, TargetPotential(s)[..s.yCursor], s.y[..s.yCursor], x[i]), -ops.log(|x| as real))
                            else s.p[i])
            && (forall j :: 0 <= j < s.cfg.maxSize ==>
                  t.q[j] == if j < |y| then Shift(SoftMin(ops, SourcePotential(s)[..s.xCursor], s.x[..s.xCursor], y[j]), -ops.log(|y| as real))
                            else s.q[j])
  {
  }

  /** With averaging on, a reset restarts the averages at the new potentials
      over the new samples and leaves the entries past the cursors alone;
      without averaging there are no averages to touch. */
  lemma ResetRestartsAverages(ops: LogOps, s: State, x: seq<Point>, y: seq<Point>)
    requires Valid(s) && HasDim(x, s.cfg.dimension) && HasDim(y, s.cfg.dimension)
    requires |x| <= s.cfg.maxSize && |y| <= s.cfg.maxSize
    ensures var t := Reset(ops, s, x, y).value;
            if s.cfg.averaging then
              && t.avgP[..|x|] == t.p[..|x|] && t.avgP[|x|..] == s.avgP[|x|..]
              && t.avgQ[..|y|] == t.q[..|y|] && t.avgQ[|y|..] == s.avgQ[|y|..]
            else t.avgP == s.avgP && t.avgQ == s.avgQ
  {
  }

  /** The new potentials are exactly the normalised result of evaluating the
      old engine at the new points. */
  lemma ResetUsesEvaluation(ops: LogOps, s: State, x: seq<Point>, y: seq<Point>)
    requires Valid(s) && HasDim(x, s.cfg.dimension) && HasDim(y, s.cfg.dimension)
    requires |x| <= s.cfg.maxSize && |y| <= s.cfg.maxSize
    ensures var t := Reset(ops, s, x, y).value;
            var e := EvaluatePotential(ops, s, Some(x), Some(y)).value;
            && t.p[..|x|] == Normalize(ops, e.f.value, |x|)
            && t.q[..|y|] == Normalize(ops, e.g.value, |y|)
  {
    var t := Reset(ops, s, x, y).value;
    var e := EvaluatePotential(ops, s, Some(x), Some(y)).value;
    ResetPotentials(ops, s, x, y);
    assert t.p[..|x|] == Normalize(ops, e.f.value, |x|);
    assert t.q[..|y|] == Normalize(ops, e.g.value, |y|);
  }

  /** On an empty engine a full-update partial_fit and a reset with the same
      (fitting) batches build the same buffers, cache, potentials, cursors and
      work count; they differ only in the update counter and, when averaging,
      in the averages, which only the reset touches. */
  lemma PartialFitOnEmptyMatchesReset(ops: LogOps, s: State, x: seq<Point>, y: seq<Point>, step: real, avgStep: real)
    requires FitArgs(s, Some(x), Some(y), step, avgStep)
    requires s.xCursor == 0 && s.yCursor == 0
    requires |x| <= s.cfg.maxSize && |y| <= s.cfg.maxSize
    ensures var t := PartialFit(ops, s, Some(x), Some(y), step, true, avgStep).value;
            var r := Reset(ops, s, x, y).value;
            && t.x == r.x && t.y == r.y && t.distance == r.distance
            && t.p == r.p && t.q == r.q
            && t.xCursor == r.xCursor && t.yCursor == r.yCursor
            && t.computations == r.computations
  {
    EmptyFitMatchesResetLayout(ops, s, x, y, step, avgStep);
    EmptyFitMatchesResetPotentials(ops, s, x, y, step, avgStep);
  }

  /** The default streaming update (`full_update=False`) at step 1 on an empty
      engine writes the potentials a reset writes: with `log 1 = 0` the weight
      `log(step)` vanishes, there are no absorbed entries to discount, and each
      new entry is normalised by its batch size, which is the new count. */
  lemma StreamingFitOnEmptyMatchesReset(ops: LogOps, s: State, x: seq<Point>, y: seq<Point>, avgStep: real)
    requires FitArgs(s, Some(x), Some(y), 1.0, avgStep)
    requires s.xCursor == 0 && s.yCursor == 0
    requires |x| <= s.cfg.maxSize && |y| <= s.cfg.maxSize
    requires ops.log(1.0) == 0.0
    ensures var t := PartialFit(ops, s, Some(x), Some(y), 1.0, false, avgStep).value;
            var r := Reset(ops, s, x, y).value;
            t.p == r.p && t.q == r.q
  {
    StreamingEmptySourceLikeReset(ops, s, x, y, avgStep);
    StreamingEmptyTargetLikeReset(ops, s, x, y, avgStep);
  }

  lemma StreamingEmptySourceLikeReset(ops: LogOps, s: State, x: seq<Point>, y: seq<Point>, avgStep: real)
    requires FitArgs(s, Some(x), Some(y), 1.0, avgStep)
    requires s.xCursor == 0 && s.yCursor == 0
    requires |x| <= s.cfg.maxSize && |y| <= s.cfg.maxSize
    requires ops.log(1.0) == 0.0
    ensures PartialFit(ops, s, Some(x), Some(y), 1.0, false, avgStep).value.p == Reset(ops, s, x, y).value.p
  {
    var t := PartialFit(ops, s, Some(x), Some(y), 1.0, false, avgStep).value;
    var r := Reset(ops, s, x, y).value;
    PartialFitAppendsSource(ops, s, Some(x), Some(y), 1.0, false, avgStep);
    PartialFitStreamsSource(ops, s, Some(x), Some(y), 1.0, avgStep);
    PartialFitSkipsEmptySides(ops, s, Some(x), Some(y), 1.0, false, avgStep);
    ResetPotentials(ops, s, x, y);
    StreamedEmptySource(ops, s, x, t, r);
  }

  lemma StreamingEmptyTargetLikeReset(ops: LogOps, s: State, x: seq<Point>, y: seq<Point>, avgStep: real)
    requires FitArgs(s, Some(x), Some(y), 1.0, avgStep)
    requires s.xCursor == 0 && s.yCursor == 0
    requires |x| <= s.cfg.maxSize && |y| <= s.cfg.maxSize
    requires ops.log(1.0) == 0.0
    ensures PartialFit(ops, s, Some(x), Some(y), 1.0, false, avgStep).value.q == Reset(ops, s, x, y).value.q
  {
    var t := PartialFit(ops, s, Some(x), Some(y), 1.0, false, avgStep).value;
    var r := Reset(ops, s, x, y).value;
    PartialFitAppendsTarget(ops, s, Some(x), Some(y), 1.0, false, avgStep);
    PartialFitStreamsTarget(ops, s, Some(x), Some(y), 1.0, avgStep);
    PartialFitSkipsEmptySides(ops, s, Some(x), Some(y), 1.0, false, avgStep);
    ResetPotentials(ops, s, x, y);
    StreamedEmptyTarget(ops, s, y, t, r);
  }

  /** The source half of the pointwise step of `StreamingFitOnEmptyMatchesReset`. */
  lemma StreamedEmptySource(ops: LogOps, s: State, x: seq<Point>, t: State, r: State)
    requires Valid(s) && Valid(t) && s.cfg == t.cfg && |r.p| == s.cfg.maxSize
    requires s.xCursor == 0 && s.yCursor == 0 && ops.log(1.0) == 0.0
    requires t.xCursor == |x|
    requires forall i :: 0 <= i < s.cfg.maxSize ==> t.x[i] == if s.xCursor <= i < t.xCursor then Rows(Some(x))[i - s.xCursor] else s.x[i]
    requires t.xCursor > s.xCursor ==> StreamsSource(ops, s, t, 1.0)
    requires t.xCursor == s.xCursor ==> t.p == s.p && t.avgP == s.avgP
    requires forall i :: 0 <= i < s.cfg.maxSize ==>
               r.p[i] == if i < |x| then Shift(SoftMin(ops, TargetPotential(s)[..s.yCursor], s.y[..s.yCursor], x[i]), -ops.log(|x| as real))
                         else s.p[i]
    ensures t.p == r.p
  {
    assert forall i :: 0 <= i < |x| ==> t.x[i] == x[i] by {
      forall i | 0 <= i < |x| ensures t.x[i] == x[i] { }
    }
    if |x| > 0 {
      StreamedEmptySourceNew(ops, s, x, t, r);
    }
    assert forall i :: 0 <= i < s.cfg.maxSize ==> t.p[i] == r.p[i] by {
      forall i | 0 <= i < s.cfg.maxSize ensures t.p[i] == r.p[i] {
        if i >= |x| { assert r.p[i] == s.p[i]; }
      }
    }
  }

  /** The new source entries of the step-1 streaming update on an empty
      engine are the batch-normalised soft-min against no targets, as a reset
      writes them. */
  lemma StreamedEmptySourceNew(ops: LogOps, s: State, x: seq<Point>, t: State, r: State)
    requires Valid(s) && Valid(t) && s.cfg == t.cfg && |r.p| == s.cfg.maxSize
    requires s.xCursor == 0 && s.yCursor == 0 && ops.log(1.0) == 0.0
    requires 0 < t.xCursor == |x|
    requires forall i :: 0 <= i < |x| ==> t.x[i] == x[i]
    requires StreamsSource(ops, s, t, 1.0)
    requires forall i :: 0 <= i < |x| ==>
               r.p[i] == Shift(SoftMin(ops, TargetPotential(s)[..s.yCursor], s.y[..s.yCursor], x[i]), -ops.log(|x| as real))
    ensures forall i :: 0 <= i < |x| ==> t.p[i] == r.p[i]
  {
    forall i | 0 <= i < |x| ensures t.p[i] == r.p[i] {
      StreamedEmptySourceEntry(ops, s, t, x[i], i);
    }
  }

  /** One new source entry of the step-1 streaming update on an empty engine. */
  lemma StreamedEmptySourceEntry(ops: LogOps, s: State, t: State, pt: Point, i: nat)
    requires Valid(s) && Valid(t) && s.cfg == t.cfg
    requires s.xCursor == 0 && s.yCursor == 0 && ops.log(1.0) == 0.0
    requires i < t.xCursor && t.x[i] == pt
    requires StreamsSource(ops, s, t, 1.0)
    ensures t.p[i] == Shift(SoftMin(ops, TargetPotential(s)[..s.yCursor], s.y[..s.yCursor], pt), -ops.log(t.xCursor as real))
  {
    var e := FreshF(ops, s, pt);
    assert t.p[i] == Shift(Plus(LogWeight(ops, 1.0), e), -ops.log((t.xCursor - s.xCursor) as real));
    assert LogWeight(ops, 1.0) == Fin(0.0);
    assert Plus(Fin(0.0), e) == e;
    assert TargetPotential(s)[..s.yCursor] == [] == s.q[..s.yCursor];
  }

  /** The target half of the pointwise step of `StreamingFitOnEmptyMatchesReset`. */
  lemma StreamedEmptyTarget(ops: LogOps, s: State, y: seq<Point>, t: State, r: State)
    requires Valid(s) && Valid(t) && s.cfg == t.cfg && |r.q| == s.cfg.maxSize
    requires s.xCursor == 0 && s.yCursor == 0 && ops.log(1.0) == 0.0
    requires t.yCursor == |y|
    requires forall j :: 0 <= j < s.cfg.maxSize ==> t.y[j] == if s.yCursor <= j < t.yCursor then Rows(Some(y))[j - s.yCursor] else s.y[j]
    requires t.yCursor > s.yCursor ==> StreamsTarget(ops, s, t, 1.0)
    requires t.yCursor == s.yCursor ==> t.q == s.q && t.avgQ == s.avgQ
    requires forall j :: 0 <= j < s.cfg.maxSize ==>
               r.q[j] == if j < |y| then Shift(SoftMin(ops, SourcePotential(s)[..s.xCursor], s.x[..s.xCursor], y[j]), -ops.log(|y| as real))
                         else s.q[j]
    ensures t.q == r.q
  {
    assert forall j :: 0 <= j < |y| ==> t.y[j] == y[j] by {
      forall j | 0 <= j < |y| ensures t.y[j] == y[j] { }
    }
    if |y| > 0 {
      StreamedEmptyTargetNew(ops, s, y, t, r);
    }
    assert forall j :: 0 <= j < s.cfg.maxSize ==> t.q[j] == r.q[j] by {
      forall j | 0 <= j < s.cfg.maxSize ensures t.q[j] == r.q[j] {
        if j >= |y| { assert r.q[j] == s.q[j]; }
      }
    }
  }

  /** The new target entries of the step-1 streaming update on an empty engine. */
  lemma StreamedEmptyTargetNew(ops: LogOps, s: State, y: seq<Point>, t: State, r: State)
    requires Valid(s) && Valid(t) && s.cfg == t.cfg && |r.q| == s.cfg.maxSize
    requires s.xCursor == 0 && s.yCursor == 0 && ops.log(1.0) == 0.0
    requires 0 < t.yCursor == |y|
    requires forall j :: 0 <= j < |y| ==> t.y[j] == y[j]
    requires StreamsTarget(ops, s, t, 1.0)
    requires forall j :: 0 <= j < |y| ==>
               r.q[j] == Shift(SoftMin(ops, SourcePotential(s)[..s.xCursor], s.x[..s.xCursor], y[j]), -ops.log(|y| as real))
    ensures forall j :: 0 <= j < |y| ==> t.q[j] == r.q[j]
  {
    forall j | 0 <= j < |y| ensures t.q[j] == r.q[j] {
      StreamedEmptyTargetEntry(ops, s, t, y[j], j);
    }
  }

  /** One new target entry of the step-1 streaming update on an empty engine. */
  lemma StreamedEmptyTargetEntry(ops: LogOps, s: State, t: State, pt: Point, j: nat)
    requires Valid(s) && Valid(t) && s.cfg == t.cfg
    requires s.xCursor == 0 && s.yCursor == 0 && ops.log(1.0) == 0.0
    requires j < t.yCursor && t.y[j] == pt
    requires StreamsTarget(ops, s, t, 1.0)
    ensures t.q[j] == Shift(SoftMin(ops, SourcePotential(s)[..s.xCursor], s.x[..s.xCursor], pt), -ops.log(t.yCursor as real))
  {
    var e := FreshG(ops, s, pt);
    assert t.q[j] == Shift(Plus(LogWeight(ops, 1.0), e), -ops.log((t.yCursor - s.yCursor) as real));
    assert LogWeight(ops, 1.0) == Fin(0.0);
    assert Plus(Fin(0.0), e) == e;
    assert SourcePotential(s)[..s.xCursor] == [] == s.p[..s.xCursor];
  }

  lemma EmptyFitMatchesResetLayout(ops: LogOps, s: State, x: seq<Point>, y: seq<Point>, step: real, avgStep: real)
    requires FitArgs(s, Some(x), Some(y), step, avgStep)
    requires s.xCursor == 0 && s.yCursor == 0
    requires |x| <= s.cfg.maxSize && |y| <= s.cfg.maxSize
    ensures var t := PartialFit(ops, s, Some(x), Some(y), step, true, avgStep).value;
            var r := Reset(ops, s, x, y).value;
            && t.x == r.x && t.y == r.y && t.distance == r.distance
            && t.xCursor == r.xCursor && t.yCursor == r.yCursor
            && t.computations == r.computations
  {
    var t := PartialFit(ops, s, Some(x), Some(y), step, true, avgStep).value;
    var r := Reset(ops, s, x, y).value;
    PartialFitAppendsSource(ops, s, Some(x), Some(y), step, true, avgStep);
    PartialFitAppendsTarget(ops, s, Some(x), Some(y), step, true, avgStep);
    ResetOverwritesBuffers(ops, s, x, y);
    EmptyFitBuffers(s, x, y, t, r);
    PartialFitCacheFrame(ops, s, Some(x), Some(y), step, true, avgStep);
    PartialFitKeepsCacheConsistent(ops, s, Some(x), Some(y), step, true, avgStep);
    ResetEstablishesCacheConsistency(ops, s, x, y);
    EmptyFitCache(s, x, y, t, r);
    PartialFitCountsWork(ops, s, Some(x), Some(y), step, true, avgStep);
  }

  lemma EmptyFitMatchesResetPotentials(ops: LogOps, s: State, x: seq<Point>, y: seq<Point>, step: real, avgStep: real)
    requires FitArgs(s, Some(x), Some(y), step, avgStep)
    requires s.xCursor == 0 && s.yCursor == 0
    requires |x| <= s.cfg.maxSize && |y| <= s.cfg.maxSize
    ensures var t := PartialFit(ops, s, Some(x), Some(y), step, true, avgStep).value;
            var r := Reset(ops, s, x, y).value;
            t.p == r.p && t.q == r.q
  {
    var t := PartialFit(ops, s, Some(x), Some(y), step, true, avgStep).value;
    var r := Reset(ops, s, x, y).value;
    EmptyFitMatchesResetLayout(ops, s, x, y, step, avgStep);
    ResetOverwritesBuffers(ops, s, x, y);
    PartialFitFullSource(ops, s, Some(x), Some(y), step, avgStep);
    PartialFitFullTarget(ops, s, Some(x), Some(y), step, avgStep);
    PartialFitSkipsEmptySides(ops, s, Some(x), Some(y), step, true, avgStep);
    ResetPotentials(ops, s, x, y);
    EmptyFitPotentials(ops, s, x, y, t, r);
  }

  lemma EmptyFitBuffers(s: State, x: seq<Point>, y: seq<Point>, t: State, r: State)
    requires Valid(s) && Valid(t) && Valid(r) && s.cfg == t.cfg == r.cfg
    requires t.xCursor == r.xCursor == |x| && t.yCursor == r.yCursor == |y|
    requires s.xCursor == 0 && s.yCursor == 0
    requires forall i :: 0 <= i < s.cfg.maxSize ==> t.x[i] == if s.xCursor <= i < t.xCursor then x[i - s.xCursor] else s.x[i]
    requires forall j :: 0 <= j < s.cfg.maxSize ==> t.y[j] == if s.yCursor <= j < t.yCursor then y[j - s.yCursor] else s.y[j]
    requires r.x[..|x|] == x && r.x[|x|..] == s.x[|x|..]
    requires r.y[..|y|] == y && r.y[|y|..] == s.y[|y|..]
    ensures t.x == r.x && t.y == r.y
  {
    forall i | 0 <= i < s.cfg.maxSize ensures t.x[i] == r.x[i] {
      if i < |x| { assert r.x[i] == r.x[..|x|][i]; } else { assert r.x[i] == r.x[|x|..][i - |x|]; }
    }
    forall j | 0 <= j < s.cfg.maxSize ensures t.y[j] == r.y[j] {
      if j < |y| { assert r.y[j] == r.y[..|y|][j]; } else { assert r.y[j] == r.y[|y|..][j - |y|]; }
    }
  }

  lemma EmptyFitCache(s: State, x: seq<Point>, y: seq<Point>, t: State, r: State)
    requires Valid(s) && Valid(t) && Valid(r) && s.cfg == t.cfg == r.cfg
    requires t.xCursor == r.xCursor == |x| && t.yCursor == r.yCursor == |y|
    requires t.x == r.x && t.y == r.y
    requires CacheConsistent(t) && CacheConsistent(r)
    requires forall i, j :: 0 <= i < s.cfg.maxSize && 0 <= j < s.cfg.maxSize &&
                            ((i < s.xCursor && j < s.yCursor) || i >= t.xCursor || j >= t.yCursor)
               ==> t.distance[i][j] == s.distance[i][j]
    requires forall i, j :: 0 <= i < s.cfg.maxSize && 0 <= j < s.cfg.maxSize && (i >= |x| || j >= |y|) ==>
               r.distance[i][j] == s.distance[i][j]
    ensures t.distance == r.distance
  {
    var cap := s.cfg.maxSize;
    forall i | 0 <= i < cap ensures t.distance[i] == r.distance[i] {
      forall j | 0 <= j < cap ensures t.distance[i][j] == r.distance[i][j] {
        if i < |x| && j < |y| {
          assert t.distance[i][j] == SqDiffSum(t.x[i], t.y[j]);
          assert r.distance[i][j] == SqDiffSum(r.x[i], r.y[j]);
        }
      }
    }
  }

  lemma EmptyFitPotentials(ops: LogOps, s: State, x: seq<Point>, y: seq<Point>, t: State, r: State)
    requires Valid(s) && Valid(t) && Valid(r) && s.cfg == t.cfg == r.cfg
    requires s.xCursor == 0 && s.yCursor == 0
    requires t.xCursor == r.xCursor == |x| && t.yCursor == r.yCursor == |y|
    requires t.x == r.x && t.x[..|x|] == x && t.y == r.y && t.y[..|y|] == y
    requires t.xCursor > s.xCursor ==> forall i :: 0 <= i < s.cfg.maxSize ==>
               t.p[i] == if i < t.xCursor then Shift(FreshF(ops, s, t.x[i]), -ops.log(t.xCursor as real)) else s.p[i]
    requires t.yCursor > s.yCursor ==> forall j :: 0 <= j < s.cfg.maxSize ==>
               t.q[j] == if j < t.yCursor then Shift(FreshG(ops, s, t.y[j]), -ops.log(t.yCursor as real)) else s.q[j]
    requires t.xCursor == s.xCursor ==> t.p == s.p
    requires t.yCursor == s.yCursor ==> t.q == s.q
    requires forall i :: 0 <= i < s.cfg.maxSize ==>
               r.p[i] == if i < |x| then Shift(SoftMin(ops, TargetPotential(s)[..s.yCursor], s.y[..s.yCursor], x[i]), -ops.log(|x| as real))
                         else s.p[i]
    requires forall j :: 0 <= j < s.cfg.maxSize ==>
               r.q[j] == if j < |y| then Shift(SoftMin(ops, SourcePotential(s)[..s.xCursor], s.x[..s.xCursor], y[j]), -ops.log(|y| as real))
                         else s.q[j]
    ensures t.p == r.p && t.q == r.q
  {
    forall i | 0 <= i < s.cfg.maxSize ensures t.p[i] == r.p[i] {
      if i < |x| { assert t.x[i] == x[i] by { assert t.x[..|x|][i] == x[i]; } }
    }
    forall j | 0 <= j < s.cfg.maxSize ensures t.q[j] == r.q[j] {
      if j < |y| { assert t.y[j] == y[j] by { assert t.y[..|y|][j] == y[j]; } }
    }
  }

  /** The `f` that `random_fit` solves at new source points: against the old
      target buffer and potential (not the averages). */
  function SampledSource(ops: LogOps, s: State, x: seq<Point>): (f: seq<ExtReal>)
    requires Valid(s) && HasDim(x, s.cfg.dimension)
    ensures |f| == |x|
    ensures forall i :: 0 <= i < |x| ==> f[i] == SoftMin(ops, s.q[..s.yCursor], s.y[..s.yCursor], x[i])
  {
    HasDimSameWidth(x, s.y[..s.yCursor], s.cfg.dimension);
    SourceDual(ops, s.q[..s.yCursor], s.y[..s.yCursor], x)
  }

  /** The `g` that `random_fit` solves at new target points: against the
      first `xc` points of the source buffer `xs` as the source side left it,
      with the old source potential. */
  function SampledTarget(ops: LogOps, s: State, xs: seq<Point>, xc: nat, y: seq<Point>): (g: seq<ExtReal>)
    requires Valid(s) && |xs| == s.cfg.maxSize && HasDim(xs, s.cfg.dimension)
    requires xc <= s.cfg.maxSize && HasDim(y, s.cfg.dimension)
    ensures |g| == |y|
    ensures forall j :: 0 <= j < |y| ==> g[j] == SoftMin(ops, s.p[..xc], xs[..xc], y[j])
  {
    HasDimSameWidth(xs[..xc], y, s.cfg.dimension);
    TargetDual(ops, s.p[..xc], xs[..xc], y)
  }

  /** The source cursor once `random_fit`'s source side has run. */
  function SourceCursorAfter(s: State, x: Option<seq<Point>>): nat
  {
    if x.Some? then |x.value| else s.xCursor
  }

  /** The state `random_fit` builds from the sides it is given, with each
      solved potential stored normalised over its new prefix. Counters other
      than the update count, the cache and the averages are left alone. */
  function Resampled(ops: LogOps, s: State, x: Option<seq<Point>>, y: Option<seq<Point>>): (t: State)
    requires Valid(s) && BatchFits(s, x) && BatchFits(s, y)
    requires x.Some? ==> |x.value| <= s.cfg.maxSize
    requires y.Some? ==> |y.value| <= s.cfg.maxSize
    ensures Valid(t) && t.cfg == s.cfg && t.nUpdates == s.nUpdates + 1
    ensures t.computations == s.computations && t.distance == s.distance
    ensures t.avgP == s.avgP && t.avgQ == s.avgQ
    ensures t.xCursor == SourceCursorAfter(s, x)
    ensures t.yCursor == if y.Some? then |y.value| else s.yCursor
  {
    var xc := SourceCursorAfter(s, x);
    var xs := if x.Some? then Splice(s.x, 0, x.value) else s.x;
    var yc := if y.Some? then |y.value| else s.yCursor;
    var ys := if y.Some? then Splice(s.y, 0, y.value) else s.y;
    var p := if x.Some? then Splice(s.p, 0, Normalize(ops, SampledSource(ops, s, x.value), xc)) else s.p;
    var q := if y.Some? then Splice(s.q, 0, Normalize(ops, SampledTarget(ops, s, xs, xc, y.value), yc)) else s.q;
    s.(x := xs, y := ys, p := p, q := q, xCursor := xc, yCursor := yc, nUpdates := s.nUpdates + 1)
  }

  /** `random_fit(x, y)` as written. The source side replaces the source
      buffer from the front and solves `f` against the old target side; the
      target side replaces the target buffer and solves `g` against the
      (possibly new) source buffer with the old source potential. `f` is
      stored normalised over the new source prefix, but `g` is stored at the
      single column `x_cursor_`, which fails past the capacity and for any
      target batch of other than one point. A batch larger than the capacity
      does not fit its buffer slice, and a soft-min over an empty opposite
      side fails. The cache is never written. */
  function RandomFitAsWritten(ops: LogOps, s: State, x: Option<seq<Point>>, y: Option<seq<Point>>): (r: Result<State>)
    requires Valid(s) && BatchFits(s, x) && BatchFits(s, y)
    ensures r.Ok? ==> Valid(r.value) && r.value.cfg == s.cfg
  {
    var cap := s.cfg.maxSize;
    var xc := SourceCursorAfter(s, x);
    if x.None? && y.None? then Err(MissingData)
    else if x.Some? && |x.value| > cap then Err(BroadcastMismatch)
    else if x.Some? && s.yCursor == 0 then Err(EmptyReduction)
    else if y.Some? && |y.value| > cap then Err(BroadcastMismatch)
    else if y.Some? && xc == 0 then Err(EmptyReduction)
    else if y.Some? && xc >= cap then Err(IndexOutOfBounds)
    else if y.Some? && |y.value| != 1 then Err(BroadcastMismatch)
    else
      var t := Resampled(ops, s, x, y);
      if y.None? then Ok(t)
      else
        var g := SampledTarget(ops, s, t.x, xc, y.value);
        Ok(t.(q := s.q[xc := Shift(g[0], -ops.log(|y.value| as real))]))
  }

  /** `random_fit` with `g` stored over the new target prefix, as the source
      side stores `f` (and as `reset` stores both). Everything else is as
      written: it fails exactly when no side is given, when a batch exceeds
      the capacity, or when a side is solved against an empty opposite side. */
  function RandomFit(ops: LogOps, s: State, x: Option<seq<Point>>, y: Option<seq<Point>>): (r: Result<State>)
    requires Valid(s) && BatchFits(s, x) && BatchFits(s, y)
    ensures r.Err? <==>
              || (x.None? && y.None?)
              || (x.Some? && (|x.value| > s.cfg.maxSize || s.yCursor == 0))
              || (y.Some? && (|y.value| > s.cfg.maxSize || SourceCursorAfter(s, x) == 0))
    ensures r.Err? && x.None? && y.None? ==> r.error == MissingData
    ensures r.Ok? ==> var t := r.value;
              && Valid(t) && t.cfg == s.cfg && t.nUpdates == s.nUpdates + 1
              && t.computations == s.computations && t.distance == s.distance
              && t.avgP == s.avgP && t.avgQ == s.avgQ
              && t.xCursor == SourceCursorAfter(s, x)
              && t.yCursor == (if y.Some? then |y.value| else s.yCursor)
  {
    var cap := s.cfg.maxSize;
    if x.None? && y.None? then Err(MissingData)
    else if x.Some? && |x.value| > cap then Err(BroadcastMismatch)
    else if x.Some? && s.yCursor == 0 then Err(EmptyReduction)
    else if y.Some? && |y.value| > cap then Err(BroadcastMismatch)
    else if y.Some? && SourceCursorAfter(s, x) == 0 then Err(EmptyReduction)
    else Ok(Resampled(ops, s, x, y))
  }

  /** Where `random_fit` puts its points: each given batch overwrites its
      buffer from the front; a side not given keeps its buffer and potential. */
  lemma RandomFitBuffers(ops: LogOps, s: State, x: Option<seq<Point>>, y: Option<seq<Point>>)
    requires Valid(s) && BatchFits(s, x) && BatchFits(s, y)
    requires RandomFit(ops, s, x, y).Ok?
    ensures var t := RandomFit(ops, s, x, y).value;
            && (x.Some? ==> t.x[..|x.value|] == x.value && t.x[|x.value|..] == s.x[|x.value|..])
            && (x.None? ==> t.x == s.x && t.p == s.p)
            && (y.Some? ==> t.y[..|y.value|] == y.value && t.y[|y.value|..] == s.y[|y.value|..])
            && (y.None? ==> t.y == s.y && t.q == s.q)
  {
    var t := RandomFit(ops, s, x, y).value;
    if x.Some? { assert t.x[..|x.value|] == x.value && t.x[|x.value|..] == s.x[|x.value|..]; }
    if y.Some? { assert t.y[..|y.value|] == y.value && t.y[|y.value|..] == s.y[|y.value|..]; }
  }

  /** The potentials `random_fit` stores: each new source point gets the
      soft-min of the old target potential against the old target buffer,
      normalised by the new source count; each new target point gets the
      soft-min of the old source potential against the source buffer as the
      source side left it, normalised by the new target count. Entries past
      the new batches keep their values. */
  lemma RandomFitPotentials(ops: LogOps, s: State, x: Option<seq<Point>>, y: Option<seq<Point>>)
    requires Valid(s) && BatchFits(s, x) && BatchFits(s, y)
    requires RandomFit(ops, s, x, y).Ok?
    ensures var t := RandomFit(ops, s, x, y).value;
            && (x.Some? ==> forall i :: 0 <= i < s.cfg.maxSize ==>
                  t.p[i] == if i < |x.value| then Shift(SoftMin(ops, s.q[..s.yCursor], s.y[..s.yCursor], x.value[i]), -ops.log(|x.value| as real))
                            else s.p[i])
            && (y.Some? ==> forall j :: 0 <= j < s.cfg.maxSize ==>
                  t.q[j] == if j < |y.value| then Shift(SoftMin(ops, s.p[..t.xCursor], t.x[..t.xCursor], y.value[j]), -ops.log(|y.value| as real))
                            else s.q[j])
  {
    var t := RandomFit(ops, s, x, y).value;
    assert t == Resampled(ops, s, x, y);
    if x.Some? { ResampledSource(ops, s, x, y); }
    if y.Some? { ResampledTarget(ops, s, x, y); }
  }

  /** A splice of a normalised vector over the front of a buffer. */
  lemma SpliceNormalized(ops: LogOps, base: seq<ExtReal>, v: seq<ExtReal>, count: nat)
    requires |v| <= |base|
    ensures forall i :: 0 <= i < |base| ==>
              Splice(base, 0, Normalize(ops, v, count))[i] == if i < |v| then Shift(v[i], -ops.log(count as real)) else base[i]
  {
  }

  /** The source potential `random_fit` stores, entry by entry. */
  lemma ResampledSource(ops: LogOps, s: State, x: Option<seq<Point>>, y: Option<seq<Point>>)
    requires Valid(s) && BatchFits(s, x) && BatchFits(s, y) && x.Some?
    requires |x.value| <= s.cfg.maxSize && (y.Some? ==> |y.value| <= s.cfg.maxSize)
    ensures var t := Resampled(ops, s, x, y);
            forall i :: 0 <= i < s.cfg.maxSize ==>
              t.p[i] == if i < |x.value| then Shift(SoftMin(ops, s.q[..s.yCursor], s.y[..s.yCursor], x.value[i]), -ops.log(|x.value| as real))
                        else s.p[i]
  {
    SpliceNormalized(ops, s.p, SampledSource(ops, s, x.value), |x.value|);
  }

  /** The target potential `random_fit` stores, entry by entry. */
  lemma ResampledTarget(ops: LogOps, s: State, x: Option<seq<Point>>, y: Option<seq<Point>>)
    requires Valid(s) && BatchFits(s, x) && BatchFits(s, y) && y.Some?
    requires (x.Some? ==> |x.value| <= s.cfg.maxSize) && |y.value| <= s.cfg.maxSize
    ensures var t := Resampled(ops, s, x, y);
            forall j :: 0 <= j < s.cfg.maxSize ==>
              t.q[j] == if j < |y.value| then Shift(SoftMin(ops, s.p[..t.xCursor], t.x[..t.xCursor], y.value[j]), -ops.log(|y.value| as real))
                        else s.q[j]
  {
    var t := Resampled(ops, s, x, y);
    SpliceNormalized(ops, s.q, SampledTarget(ops, s, t.x, t.xCursor, y.value), |y.value|);
  }

  /** Given only source points, the call as written is the corrected one: the
      defective line is not reached. */
  lemma RandomFitAsWrittenAgreesOnSource(ops: LogOps, s: State, x: seq<Point>)
    requires Valid(s) && HasDim(x, s.cfg.dimension)
    ensures RandomFitAsWritten(ops, s, Some(x), None) == RandomFit(ops, s, Some(x), None)
  {
  }

  /** Whenever `random_fit` as written is given target points and succeeds,
      the target batch is a single point and the new source cursor lies in
      [1, capacity): the target potential lands at column `x_cursor_`, at or
      past the new target cursor, while the one absorbed target keeps its
      stale potential. Apart from that column the result is the corrected
      one. */
  lemma RandomFitAsWrittenMisplacesTarget(ops: LogOps, s: State, x: Option<seq<Point>>, y: Option<seq<Point>>)
    requires Valid(s) && BatchFits(s, x) && BatchFits(s, y) && y.Some?
    requires RandomFitAsWritten(ops, s, x, y).Ok?
    ensures |y.value| == 1 && 1 <= SourceCursorAfter(s, x) < s.cfg.maxSize
    ensures RandomFit(ops, s, x, y).Ok?
    ensures var w := RandomFitAsWritten(ops, s, x, y).value;
            var c := RandomFit(ops, s, x, y).value;
            && w.yCursor == 1 <= w.xCursor
            && w.q[0] == s.q[0]
            && w == c.(q := s.q[SourceCursorAfter(s, x) := c.q[0]])
  {
  }

  /** A call that the written guard lets through: one absorbed pair in a
      two-slot engine of zero-dimensional points, refreshed with one source
      and one target. The potential for the single absorbed target goes to
      column 1, past the new target cursor. */
  lemma RandomFitAsWrittenWritesPastCursor(ops: LogOps)
    ensures var s := State(Config(2, 0, false, false, false), [[], []], [[], []], [[0.0, 0.0], [0.0, 0.0]],
                           [NegInf, NegInf], [NegInf, NegInf], [], [], 1, 1, 0, 0);
            && Valid(s)
            && RandomFitAsWritten(ops, s, Some([[]]), Some([[]])).Ok?
            && RandomFitAsWritten(ops, s, Some([[]]), Some([[]])).value.yCursor == 1
            && RandomFitAsWritten(ops, s, Some([[]]), Some([[]])).value.q[0] == NegInf
  {
  }

  /** A consistent two-slot engine on the line with one absorbed pair, both
      points at `c`. */
  function PairAt(c: real): (s: State)
    ensures Valid(s) && CacheConsistent(s)
    ensures s.xCursor == 1 && s.yCursor == 1 && s.cfg.dimension == 1 && s.cfg.maxSize == 2
    ensures s.distance[0][0] == 0.0
  {
    SqDiffSumSelf([c]);
    State(Config(2, 1, false, false, false), [[c], [c]], [[c], [c]], [[0.0, 0.0], [0.0, 0.0]],
          [NegInf, NegInf], [NegInf, NegInf], [], [], 1, 1, 0, 0)
  }

  /** The absorbed source points once `random_fit` has run: the new batch when
      one is given, otherwise the points already absorbed. */
  function SourcesAfter(s: State, x: Option<seq<Point>>): (pts: seq<Point>)
    requires Valid(s)
    ensures |pts| == SourceCursorAfter(s, x)
  {
    if x.Some? then x.value else s.x[..s.xCursor]
  }

  /** The absorbed target points once `random_fit` has run. */
  function TargetsAfter(s: State, y: Option<seq<Point>>): (pts: seq<Point>)
    requires Valid(s)
    ensures |pts| == if y.Some? then |y.value| else s.yCursor
  {
    if y.Some? then y.value else s.y[..s.yCursor]
  }

  /** `random_fit` leaves the cache as it was, so the result is consistent
      exactly when the old cache already held the distances of the pairs it
      absorbs: the new batch on each given side against the new batch or the
      kept points on the other. */
  lemma RandomFitCacheIsStale(ops: LogOps, s: State, x: Option<seq<Point>>, y: Option<seq<Point>>)
    requires Valid(s) && BatchFits(s, x) && BatchFits(s, y)
    requires RandomFit(ops, s, x, y).Ok?
    ensures CacheConsistent(RandomFit(ops, s, x, y).value) <==>
            forall i, j :: 0 <= i < |SourcesAfter(s, x)| && 0 <= j < |TargetsAfter(s, y)| ==>
              s.distance[i][j] == SqDiffSum(SourcesAfter(s, x)[i], TargetsAfter(s, y)[j])
  {
    var t := RandomFit(ops, s, x, y).value;
    RandomFitBuffers(ops, s, x, y);
    assert forall i :: 0 <= i < t.xCursor ==> t.x[i] == SourcesAfter(s, x)[i] by {
      forall i | 0 <= i < t.xCursor ensures t.x[i] == SourcesAfter(s, x)[i] {
        if x.Some? { assert t.x[..|x.value|][i] == x.value[i]; }
      }
    }
    assert forall j :: 0 <= j < t.yCursor ==> t.y[j] == TargetsAfter(s, y)[j] by {
      forall j | 0 <= j < t.yCursor ensures t.y[j] == TargetsAfter(s, y)[j] {
        if y.Some? { assert t.y[..|y.value|][j] == y.value[j]; }
      }
    }
  }

  /** An instance: moving the source of `PairAt(c)` one unit to the right
      leaves the cached distance 0 for a pair at distance 1. */
  lemma RandomFitBreaksCache(ops: LogOps, c: real)
    ensures RandomFit(ops, PairAt(c), Some([[c + 1.0]]), Some([[c]])).Ok?
    ensures !CacheConsistent(RandomFit(ops, PairAt(c), Some([[c + 1.0]]), Some([[c]])).value)
  {
    var s := PairAt(c);
    var x, y: seq<Point> := [[c + 1.0]], [[c]];
    assert HasDim(x, 1) && HasDim(y, 1);
    RandomFitCacheIsStale(ops, s, Some(x), Some(y));
    UnitApart(c);
    assert s.distance[0][0] != SqDiffSum(x[0], y[0]);
  }

  /** Two points of the line one unit apart. */
  lemma UnitApart(c: real)
    ensures SqDiffSum([c + 1.0], [c]) == 1.0
  {
    assert [c + 1.0][1..] == [] && [c][1..] == [];
  }
}
