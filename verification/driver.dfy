/** `online_sinkhorn_loop`: streaming updates until either buffer is full. The
    samplers and the step-size schedules enter as functions of the update
    count, so the k-th update draws `xs(k)` and `ys(k)` and uses the step
    sizes `stepAt(k)` and `avgStepAt(k)`. */
module Driver {
  import opened Outcomes
  import opened LogDomain
  import opened Distance
  import opened OTStore
  import opened Streaming

  /** Every draw is a non-empty batch of points of the engine's dimension and
      every step size is a weight in [0, 1]. */
  ghost predicate Schedule(dim: nat, xs: nat -> seq<Point>, ys: nat -> seq<Point>,
                     stepAt: nat -> real, avgStepAt: nat -> real)
  {
    && (forall k: nat :: |xs(k)| > 0 && HasDim(xs(k), dim))
    && (forall k: nat :: |ys(k)| > 0 && HasDim(ys(k), dim))
    && (forall k: nat :: 0.0 <= stepAt(k) <= 1.0)
    && (forall k: nat :: 0.0 <= avgStepAt(k) <= 1.0)
  }

  /** The loop stops, and when it does a buffer is full. Each round absorbs at
      least one point on each side, so it runs at most as many rounds as the
      fuller buffer has free slots, and none at all on a full engine. The
      update counter counts the rounds, the points absorbed before the loop
      stay where they were, and a consistent cache stays consistent. */
  method OnlineSinkhornLoop(ops: LogOps, s0: State, xs: nat -> seq<Point>, ys: nat -> seq<Point>,
                            stepAt: nat -> real, avgStepAt: nat -> real)
    returns (s: State, rounds: nat)
    requires Valid(s0) && Schedule(s0.cfg.dimension, xs, ys, stepAt, avgStepAt)
    ensures Valid(s) && s.cfg == s0.cfg && IsFull(s)
    ensures rounds <= s0.cfg.maxSize - s0.xCursor && rounds <= s0.cfg.maxSize - s0.yCursor
    ensures rounds == 0 <==> IsFull(s0)
    ensures rounds == 0 ==> s == s0
    ensures s.nUpdates == s0.nUpdates + rounds
    ensures s0.xCursor + rounds <= s.xCursor && s0.yCursor + rounds <= s.yCursor
    ensures s.x[..s0.xCursor] == s0.x[..s0.xCursor] && s.y[..s0.yCursor] == s0.y[..s0.yCursor]
    ensures CacheConsistent(s0) ==> CacheConsistent(s)
  {
    s, rounds := s0, 0;
    while !IsFull(s)
      invariant Valid(s) && s.cfg == s0.cfg
      invariant s.nUpdates == s0.nUpdates + rounds
      invariant s0.xCursor + rounds <= s.xCursor && s0.yCursor + rounds <= s.yCursor
      invariant rounds == 0 ==> s == s0
      invariant s.x[..s0.xCursor] == s0.x[..s0.xCursor] && s.y[..s0.yCursor] == s0.y[..s0.yCursor]
      invariant CacheConsistent(s0) ==> CacheConsistent(s)
      decreases s0.cfg.maxSize - s.xCursor
    {
      var k := s.nUpdates;
      var x, y := Some(xs(k)), Some(ys(k));
      var r := PartialFit(ops, s, x, y, stepAt(k), s.cfg.fullUpdate, avgStepAt(k));
      var t := r.value;
      RoundAdvances(ops, s0, s, xs(k), ys(k), stepAt(k), avgStepAt(k));
      s, rounds := t, rounds + 1;
    }
  }

  /** One round on an engine that is not full absorbs at least one point on
      each side, counts one update, keeps the points absorbed before the loop
      and keeps a consistent cache consistent. */
  lemma RoundAdvances(ops: LogOps, s0: State, s: State, xb: seq<Point>, yb: seq<Point>, step: real, avgStep: real)
    requires FitArgs(s, Some(xb), Some(yb), step, avgStep) && |xb| > 0 && |yb| > 0 && !IsFull(s)
    requires s0.xCursor <= s.xCursor && s0.yCursor <= s.yCursor && |s0.x| == |s.x| && |s0.y| == |s.y|
    requires s.x[..s0.xCursor] == s0.x[..s0.xCursor] && s.y[..s0.yCursor] == s0.y[..s0.yCursor]
    ensures var t := PartialFit(ops, s, Some(xb), Some(yb), step, s.cfg.fullUpdate, avgStep).value;
            && Valid(t) && t.cfg == s.cfg && t.nUpdates == s.nUpdates + 1
            && s.xCursor < t.xCursor && s.yCursor < t.yCursor
            && t.x[..s0.xCursor] == s0.x[..s0.xCursor] && t.y[..s0.yCursor] == s0.y[..s0.yCursor]
            && (CacheConsistent(s) ==> CacheConsistent(t))
  {
    var x, y := Some(xb), Some(yb);
    var full := s.cfg.fullUpdate;
    var t := PartialFit(ops, s, x, y, step, full, avgStep).value;
    PartialFitAppendsSource(ops, s, x, y, step, full, avgStep);
    PartialFitAppendsTarget(ops, s, x, y, step, full, avgStep);
    PrefixKept(s0.x, s.x, t.x, s0.xCursor, s.xCursor);
    PrefixKept(s0.y, s.y, t.y, s0.yCursor, s.yCursor);
    if CacheConsistent(s) {
      PartialFitKeepsCacheConsistent(ops, s, x, y, step, full, avgStep);
    }
  }

  /** Why the loop needs non-empty draws: a round whose samplers return empty
      batches absorbs nothing, so an engine that is not full stays not full
      with its cursors where they were, and the loop would never stop. */
  lemma EmptyDrawsStall(ops: LogOps, s: State, step: real, full: bool, avgStep: real)
    requires FitArgs(s, Some([]), Some([]), step, avgStep) && !IsFull(s)
    ensures var t := PartialFit(ops, s, Some([]), Some([]), step, full, avgStep).value;
            && !IsFull(t) && t.xCursor == s.xCursor && t.yCursor == s.yCursor
            && t.nUpdates == s.nUpdates + 1
  {
    PartialFitFullness(ops, s, Some([]), Some([]), step, full, avgStep);
  }

  /** Rows below `hi` that a step kept are still the original ones. */
  lemma PrefixKept(a: seq<Point>, b: seq<Point>, c: seq<Point>, lo: nat, hi: nat)
    requires lo <= hi <= |b| == |c| && lo <= |a|
    requires b[..lo] == a[..lo]
    requires forall i :: 0 <= i < hi ==> c[i] == b[i]
    ensures c[..lo] == a[..lo]
  {
    assert c[..lo] == b[..lo];
  }
}
