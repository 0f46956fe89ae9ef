/** `OT.refit`: a Sinkhorn sweep over the absorbed data. Each chosen potential
    is recomputed from the cached distance block against the other side's
    whole potential, normalised, and relaxed towards its previous value. */
module Refitting {
  import opened Outcomes
  import opened LogDomain
  import opened Distance
  import opened Blocks
  import opened OTStore
  import opened Evaluation
  import opened StreamingPotentials

  /** The absorbed block of the cache: absorbed sources by absorbed targets. */
  function CachedBlock(s: State): (d: Matrix)
    requires Valid(s)
    ensures IsShape(d, s.xCursor, s.yCursor)
  {
    SubBlock(s.distance, s.xCursor, s.yCursor)
  }

  /** refit's fresh `f`: the row soft-min of the cached block against `q`. */
  function RefitF(ops: LogOps, s: State): (f: seq<ExtReal>)
    requires Valid(s)
    ensures |f| == s.xCursor
  {
    RowDual(ops, s.q[..s.yCursor], CachedBlock(s))
  }

  /** refit's fresh `g`: the column soft-min of the cached block against `p`. */
  function RefitG(ops: LogOps, s: State): (g: seq<ExtReal>)
    requires Valid(s)
    ensures |g| == s.yCursor
  {
    ColDual(ops, s.p[..s.xCursor], CachedBlock(s), s.yCursor)
  }

  /** One refitted entry: the fresh value normalised by `count` replaces the
      old one when `step == 1`; otherwise the two are blended,
      `logaddexp(fresh - log count + log step, old + log(1 - step))`. */
  function Relaxed(ops: LogOps, val: ExtReal, count: nat, prev: ExtReal, step: real): ExtReal
    requires 0.0 <= step <= 1.0
  {
    var v := Shift(val, -ops.log(count as real));
    if step == 1.0 then v
    else ops.logAddExp(Plus(v, LogWeight(ops, step)), Plus(prev, LogWeight(ops, 1.0 - step)))
  }

  /** The leading `|vals|` entries of `pot` relaxed towards `vals`. */
  function RelaxPrefix(ops: LogOps, pot: seq<ExtReal>, vals: seq<ExtReal>, count: nat, step: real): (r: seq<ExtReal>)
    requires |vals| <= |pot| && 0.0 <= step <= 1.0
    ensures |r| == |pot|
    ensures forall i :: 0 <= i < |pot| ==>
              r[i] == if i < |vals| then Relaxed(ops, vals[i], count, pot[i], step) else pot[i]
  {
    seq(|pot|, i requires 0 <= i < |pot| => if i < |vals| then Relaxed(ops, vals[i], count, pot[i], step) else pot[i])
  }

  /** What a refit may change: the potentials and the two counters. */
  predicate RefitFrame(s: State, t: State)
  {
    t == s.(p := t.p, q := t.q, computations := t.computations, nUpdates := t.nUpdates)
  }

  /** `refit` as the source writes it. Its blended `g` line normalises by the
      source count `x_cursor_` and reads `q_[:x_cursor_]`, which (rows of the
      one-row `q_`) is the whole row: the assignment only broadcasts when the
      target buffer is full. */
  function RefitAsWritten(ops: LogOps, s: State, refitF: bool, refitG: bool, step: real): (r: Result<State>)
    requires Valid(s) && 0.0 <= step <= 1.0
    ensures r.Err? <==> s.xCursor > 0 && s.yCursor > 0 && refitG && step != 1.0 && s.yCursor != s.cfg.maxSize
    ensures r.Err? ==> r.error == BroadcastMismatch
    ensures s.xCursor == 0 || s.yCursor == 0 ==> r == Ok(s)
    ensures r.Ok? ==> Valid(r.value) && RefitFrame(s, r.value)
  {
    var xc, yc := s.xCursor, s.yCursor;
    if xc == 0 || yc == 0 then Ok(s)
    else if refitG && step != 1.0 && yc != s.cfg.maxSize then Err(BroadcastMismatch)
    else
      var p := if refitF then RelaxPrefix(ops, s.p, RefitF(ops, s), xc, step) else s.p;
      var q := if refitG then RelaxPrefix(ops, s.q, RefitG(ops, s), if step == 1.0 then yc else xc, step) else s.q;
      var work := (if refitF then xc * yc else 0) + (if refitG then xc * yc else 0);
      Ok(s.(p := p, q := q, computations := s.computations + work, nUpdates := s.nUpdates + 1))
  }

  /** `refit` as evidently intended: the blended `g` line normalises by the
      target count `y_cursor_` and blends the absorbed prefix of `q`, exactly
      mirroring the `f` line. It never fails. */
  function Refit(ops: LogOps, s: State, refitF: bool, refitG: bool, step: real): (t: State)
    requires Valid(s) && 0.0 <= step <= 1.0
    ensures Valid(t) && RefitFrame(s, t)
    ensures s.xCursor == 0 || s.yCursor == 0 ==> t == s
    ensures s.xCursor > 0 && s.yCursor > 0 ==>
              && t.nUpdates == s.nUpdates + 1
              && t.computations == s.computations + (if refitF then s.xCursor * s.yCursor else 0)
                                                  + (if refitG then s.xCursor * s.yCursor else 0)
    ensures !refitF ==> t.p == s.p
    ensures !refitG ==> t.q == s.q
    ensures forall i :: s.xCursor <= i < s.cfg.maxSize ==> t.p[i] == s.p[i]
    ensures forall j :: s.yCursor <= j < s.cfg.maxSize ==> t.q[j] == s.q[j]
  {
    var xc, yc := s.xCursor, s.yCursor;
    if xc == 0 || yc == 0 then s
    else
      var p := if refitF then RelaxPrefix(ops, s.p, RefitF(ops, s), xc, step) else s.p;
      var q := if refitG then RelaxPrefix(ops, s.q, RefitG(ops, s), yc, step) else s.q;
      var work := (if refitF then xc * yc else 0) + (if refitG then xc * yc else 0);
      s.(p := p, q := q, computations := s.computations + work, nUpdates := s.nUpdates + 1)
  }

  /** The two agree wherever the defective line is not reached: at `step == 1`
      (the path the full Sinkhorn loop uses) or when `g` is not refitted. */
  lemma RefitAsWrittenAgrees(ops: LogOps, s: State, refitF: bool, refitG: bool, step: real)
    requires Valid(s) && 0.0 <= step <= 1.0
    requires step == 1.0 || !refitG
    ensures RefitAsWritten(ops, s, refitF, refitG, step) == Ok(Refit(ops, s, refitF, refitG, step))
  {
  }

  /** On a consistent cache, the fresh `f` at an absorbed source is the
      soft-min of that point against the absorbed targets. */
  lemma RefitFIsSoftMin(ops: LogOps, s: State)
    requires Valid(s) && CacheConsistent(s)
    ensures s.yCursor > 0 ==> forall i :: 0 <= i < s.xCursor ==> RefitF(ops, s)[i] == FreshF(ops, s, s.x[i])
  {
    var q, ys := s.q[..s.yCursor], s.y[..s.yCursor];
    if s.yCursor > 0 {
      forall i | 0 <= i < s.xCursor
        ensures RefitF(ops, s)[i] == FreshF(ops, s, s.x[i])
      {
        assert Offset(q, CachedBlock(s)[i]) == Kernel(q, ys, s.x[i]);
      }
    }
  }

  /** On a consistent cache, the fresh `g` at an absorbed target is the
      soft-min of that point against the absorbed sources. */
  lemma RefitGIsSoftMin(ops: LogOps, s: State)
    requires Valid(s) && CacheConsistent(s)
    ensures s.xCursor > 0 ==> forall j :: 0 <= j < s.yCursor ==> RefitG(ops, s)[j] == FreshG(ops, s, s.y[j])
  {
    var p, xs := s.p[..s.xCursor], s.x[..s.xCursor];
    if s.xCursor > 0 {
      forall j | 0 <= j < s.yCursor
        ensures RefitG(ops, s)[j] == FreshG(ops, s, s.y[j])
      {
        var col := Column(CachedBlock(s), j);
        forall i | 0 <= i < s.xCursor
          ensures Offset(p, col)[i] == Kernel(p, xs, s.y[j])[i]
        {
          SqDiffSumSymmetric(s.x[i], s.y[j]);
        }
        assert Offset(p, col) == Kernel(p, xs, s.y[j]);
      }
    }
  }

  /** Refitting `f` on a consistent cache relaxes every absorbed source entry
      towards its soft-min against the absorbed targets, normalised by the
      source count; the entries beyond the cursor are kept. */
  lemma RefitSource(ops: LogOps, s: State, refitG: bool, step: real)
    requires Valid(s) && 0.0 <= step <= 1.0 && CacheConsistent(s)
    requires s.xCursor > 0 && s.yCursor > 0
    ensures var t := Refit(ops, s, true, refitG, step);
            forall i :: 0 <= i < s.cfg.maxSize ==>
              t.p[i] == if i < s.xCursor then Relaxed(ops, FreshF(ops, s, s.x[i]), s.xCursor, s.p[i], step) else s.p[i]
  {
    RefitFIsSoftMin(ops, s);
  }

  /** The target-side mirror of `RefitSource`, normalised by the target count. */
  lemma RefitTarget(ops: LogOps, s: State, refitF: bool, step: real)
    requires Valid(s) && 0.0 <= step <= 1.0 && CacheConsistent(s)
    requires s.xCursor > 0 && s.yCursor > 0
    ensures var t := Refit(ops, s, refitF, true, step);
            forall j :: 0 <= j < s.cfg.maxSize ==>
              t.q[j] == if j < s.yCursor then Relaxed(ops, FreshG(ops, s, s.y[j]), s.yCursor, s.q[j], step) else s.q[j]
  {
    RefitGIsSoftMin(ops, s);
  }

  /** A row of the transposed block is the corresponding column of the block. */
  lemma TransposedRowIsColumn(s: State, j: nat)
    requires Valid(s) && j < s.yCursor
    ensures CachedBlock(Swap(s))[j] == Column(CachedBlock(s), j)
  {
    var a, b := CachedBlock(Swap(s))[j], Column(CachedBlock(s), j);
    assert |a| == |b|;
    forall i | 0 <= i < |a|
      ensures a[i] == b[i]
    {
    }
  }

  /** The fresh `f` of the exchanged engine is the fresh `g` of this one. */
  lemma SwappedRefitF(ops: LogOps, s: State)
    requires Valid(s)
    ensures RefitF(ops, Swap(s)) == RefitG(ops, s)
  {
    var a, b := RefitF(ops, Swap(s)), RefitG(ops, s);
    forall j | 0 <= j < |a|
      ensures a[j] == b[j]
    {
      TransposedRowIsColumn(s, j);
    }
  }

  /** The fresh `g` of the exchanged engine is the fresh `f` of this one. */
  lemma SwappedRefitG(ops: LogOps, s: State)
    requires Valid(s)
    ensures RefitG(ops, Swap(s)) == RefitF(ops, s)
  {
    SwappedRefitF(ops, Swap(s));
    SwapInvolutive(s);
  }

  /** The corrected refit treats both sides alike: refitting the exchanged
      engine (with the two flags exchanged) is the exchange of the refitted
      engine. */
  lemma RefitMirrors(ops: LogOps, s: State, refitF: bool, refitG: bool, step: real)
    requires Valid(s) && 0.0 <= step <= 1.0
    ensures Refit(ops, Swap(s), refitG, refitF, step) == Swap(Refit(ops, s, refitF, refitG, step))
  {
    SwappedRefitF(ops, s);
    SwappedRefitG(ops, s);
  }

  /** With a full target buffer the blended `g` line as written relaxes each
      absorbed target entry with the source count where the corrected one
      uses the target count. */
  lemma RefitAsWrittenUsesSourceCount(ops: LogOps, s: State, step: real)
    requires Valid(s) && 0.0 <= step < 1.0
    requires s.xCursor > 0 && s.yCursor == s.cfg.maxSize
    ensures RefitAsWritten(ops, s, false, true, step).Ok?
    ensures forall j :: 0 <= j < s.yCursor ==>
              && RefitAsWritten(ops, s, false, true, step).value.q[j] == Relaxed(ops, RefitG(ops, s)[j], s.xCursor, s.q[j], step)
              && Refit(ops, s, false, true, step).q[j] == Relaxed(ops, RefitG(ops, s)[j], s.yCursor, s.q[j], step)
  {
  }

  /** Relaxing into an empty slot keeps only the damped, normalised new value. */
  lemma RelaxedIntoEmpty(ops: LogOps, val: real, count: nat, step: real)
    requires 0.0 < step < 1.0
    requires forall a :: ops.logAddExp(a, NegInf) == a
    ensures Relaxed(ops, Fin(val), count, NegInf, step) == Fin(val - ops.log(count as real) + ops.log(step))
  {
  }

  /** The normalisation matters: relaxing a unit of mass into an empty slot at
      half step gives different values for counts 1 and 2 whenever `log 2 != 0`.
      The hypotheses on `ops` are facts about the real `log` and `logaddexp`. */
  lemma RelaxedDependsOnCount(ops: LogOps)
    requires ops.log(1.0) == 0.0 && ops.log(2.0) != 0.0
    requires forall a :: ops.logAddExp(a, NegInf) == a
    ensures Relaxed(ops, Fin(0.0), 1, NegInf, 0.5) != Relaxed(ops, Fin(0.0), 2, NegInf, 0.5)
  {
    RelaxedIntoEmpty(ops, 0.0, 1, 0.5);
    RelaxedIntoEmpty(ops, 0.0, 2, 0.5);
  }

  /** A two-slot engine with one source and two targets, all at the origin of
      a zero-dimensional space, one unit of source mass and no target mass. */
  function OneByTwo(): (s: State)
    ensures Valid(s) && s.xCursor == 1 && s.yCursor == 2 == s.cfg.maxSize
  {
    var cfg := Config(2, 0, false, false, false);
    State(cfg, [[], []], [[], []], [[0.0, 0.0], [0.0, 0.0]],
          [Fin(0.0), NegInf], [NegInf, NegInf], [], [], 1, 2, 0, 0)
  }

  /** The defect on a concrete engine: refitting `g` at half step as written
      gives a different target potential from the corrected refit. */
  lemma RefitAsWrittenMisnormalises(ops: LogOps)
    requires ops.negLogSumExp([Fin(0.0)]) == Fin(0.0)
    requires ops.log(1.0) == 0.0 && ops.log(2.0) != 0.0
    requires forall a :: ops.logAddExp(a, NegInf) == a
    ensures RefitAsWritten(ops, OneByTwo(), false, true, 0.5).Ok?
    ensures RefitAsWritten(ops, OneByTwo(), false, true, 0.5).value.q[0]
            != Refit(ops, OneByTwo(), false, true, 0.5).q[0]
  {
    var s := OneByTwo();
    assert RefitG(ops, s)[0] == Fin(0.0) by {
      assert Offset(s.p[..1], Column(CachedBlock(s), 0)) == [Fin(0.0)];
    }
    RefitAsWrittenUsesSourceCount(ops, s, 0.5);
    RelaxedDependsOnCount(ops);
  }
}
