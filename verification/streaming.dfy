/** `OT.partial_fit`: the streaming update. Each side's batch is clipped to the
    remaining capacity and appended at the cursor, the cache is filled for the
    newly valid pairs, and the potentials are blended with the fresh soft-min
    values computed against the opposite side's pre-call state. */
module Streaming {
  import opened Outcomes
  import opened LogDomain
  import opened Distance
  import opened Blocks
  import opened OTStore
  import opened Evaluation

  function Min(a: int, b: int): int
  {
    if a <= b then a else b
  }

  /** The points of an optional batch; none when it is absent. */
  function Rows(b: Option<seq<Point>>): seq<Point>
  {
    if b.Some? then b.value else []
  }

  /** The leading rows of a batch that fit in `room` free slots. */
  function Clip(b: Option<seq<Point>>, room: nat): (r: seq<Point>)
    ensures |r| <= room && |r| <= |Rows(b)|
    ensures |Rows(b)| <= room ==> r == Rows(b)
    ensures |Rows(b)| > room ==> |r| == room
    ensures forall k :: 0 <= k < |r| ==> r[k] == Rows(b)[k]
  {
    var rows := Rows(b);
    rows[..Min(|rows|, room)]
  }

  /** The truncation policy: a cursor at `cursor` offered `n` points moves to
      `newCursor`, absorbing all of them if they fit and filling up to `cap`
      otherwise. */
  predicate Truncates(cursor: nat, n: nat, cap: nat, newCursor: nat)
  {
    && (cursor + n <= cap ==> newCursor == cursor + n)
    && (cursor + n > cap ==> newCursor == cap)
  }

  /** The step-size discount of one absorbed entry: discarded (-infinity)
      when `step == 1`, otherwise shifted by `log(1 - step)`. */
  function Discounted(ops: LogOps, e: ExtReal, step: real): ExtReal
    requires 0.0 <= step <= 1.0
  {
    if step == 1.0 then NegInf else Plus(e, LogWeight(ops, 1.0 - step))
  }

  /** The running-average blend of one entry: replaced by `e` when `a == 1`,
      otherwise `logaddexp(avg + log(1 - a), e + log a)`. */
  function Averaged(ops: LogOps, avg: ExtReal, e: ExtReal, a: real): ExtReal
    requires 0.0 <= a <= 1.0
  {
    if a == 1.0 then e else ops.logAddExp(Plus(avg, LogWeight(ops, 1.0 - a)), Plus(e, LogWeight(ops, a)))
  }

  /** The non-full update of one potential: discount the `lo` absorbed
      entries, write `log(step) + newVals - log(n)` for the `n` new ones at
      `lo`, and keep the rest. */
  function StreamBlend(ops: LogOps, pot: seq<ExtReal>, lo: nat, newVals: seq<ExtReal>, step: real): (r: seq<ExtReal>)
    requires lo + |newVals| <= |pot| && 0.0 <= step <= 1.0
    ensures |r| == |pot|
    ensures forall i :: 0 <= i < |pot| ==>
              r[i] == if i < lo then Discounted(ops, pot[i], step)
                      else if i < lo + |newVals| then Shift(Plus(LogWeight(ops, step), newVals[i - lo]), -ops.log(|newVals| as real))
                      else pot[i]
  {
    var n := |newVals|;
    seq(|pot|, i requires 0 <= i < |pot| =>
      if i < lo then Discounted(ops, pot[i], step)
      else if i < lo + n then Shift(Plus(LogWeight(ops, step), newVals[i - lo]), -ops.log(n as real))
      else pot[i])
  }

  /** The full update of one potential: the leading `|newVals|` entries become
      `newVals - log |newVals|`, the rest are kept. */
  function FullRewrite(ops: LogOps, pot: seq<ExtReal>, newVals: seq<ExtReal>): (r: seq<ExtReal>)
    requires |newVals| <= |pot|
    ensures |r| == |pot|
    ensures forall i :: 0 <= i < |pot| ==>
              r[i] == if i < |newVals| then Shift(newVals[i], -ops.log(|newVals| as real)) else pot[i]
  {
    Splice(pot, 0, Normalize(ops, newVals, |newVals|))
  }

  /** The running average of the leading `hi` entries, blended with `pot`. */
  function AverageIn(ops: LogOps, avg: seq<ExtReal>, pot: seq<ExtReal>, hi: nat, a: real): (r: seq<ExtReal>)
    requires hi <= |avg| && hi <= |pot| && 0.0 <= a <= 1.0
    ensures |r| == |avg|
    ensures forall i :: 0 <= i < |avg| ==> r[i] == if i < hi then Averaged(ops, avg[i], pot[i], a) else avg[i]
  {
    seq(|avg|, i requires 0 <= i < |avg| => if i < hi then Averaged(ops, avg[i], pot[i], a) else avg[i])
  }

  /** The update condition partial_fit puts on its arguments. */
  predicate FitArgs(s: State, x: Option<seq<Point>>, y: Option<seq<Point>>, step: real, avgStep: real)
  {
    && Valid(s) && BatchFits(s, x) && BatchFits(s, y)
    && 0.0 <= step <= 1.0 && 0.0 <= avgStep <= 1.0
  }

  /** The source branch's cache write for a clipped batch `xb`: rows
      `[xc, xc + |xb|)` against the absorbed targets `[0, yc)`. */
  function SourceRowsCache(s: State, xb: seq<Point>): (d: Matrix)
    requires Valid(s) && HasDim(xb, s.cfg.dimension) && s.xCursor + |xb| <= s.cfg.maxSize
    ensures IsShape(d, s.cfg.maxSize, s.cfg.maxSize)
    ensures forall i, j :: 0 <= i < s.cfg.maxSize && 0 <= j < s.cfg.maxSize ==>
              d[i][j] == if s.xCursor <= i < s.xCursor + |xb| && j < s.yCursor
                         then SqDiffSum(xb[i - s.xCursor], s.y[j]) else s.distance[i][j]
  {
    HasDimSameWidth(xb, s.y[..s.yCursor], s.cfg.dimension);
    WriteBlock(s.distance, s.xCursor, 0, ComputeDistance(xb, s.y[..s.yCursor]), s.yCursor)
  }

  /** The source branch's fresh `f`: zeros while no target is absorbed;
      otherwise the row soft-min against the target potential, over the new
      rows only or, when `full`, over every absorbed row of the cache `d1`. */
  function SourceFresh(ops: LogOps, s: State, xb: seq<Point>, d1: Matrix, full: bool): (f: seq<ExtReal>)
    requires Valid(s) && HasDim(xb, s.cfg.dimension) && s.xCursor + |xb| <= s.cfg.maxSize
    requires IsShape(d1, s.cfg.maxSize, s.cfg.maxSize)
    ensures |f| == if full then s.xCursor + |xb| else |xb|
  {
    var xc, yc, n := s.xCursor, s.yCursor, |xb|;
    HasDimSameWidth(xb, s.y[..yc], s.cfg.dimension);
    var rows := if full then xc + n else n;
    if yc == 0 then Zeros(rows)
    else RowDual(ops, s.q[..yc], if full then SubBlock(d1, xc + n, yc) else ComputeDistance(xb, s.y[..yc]))
  }

  /** The target branch's cache write for a clipped batch `yb`: columns
      `[yc, yc + |yb|)` against the absorbed sources `[0, xc)`. */
  function TargetColsCache(s: State, d1: Matrix, yb: seq<Point>): (d: Matrix)
    requires Valid(s) && HasDim(yb, s.cfg.dimension) && s.yCursor + |yb| <= s.cfg.maxSize
    requires IsShape(d1, s.cfg.maxSize, s.cfg.maxSize)
    ensures IsShape(d, s.cfg.maxSize, s.cfg.maxSize)
    ensures forall i, j :: 0 <= i < s.cfg.maxSize && 0 <= j < s.cfg.maxSize ==>
              d[i][j] == if i < s.xCursor && s.yCursor <= j < s.yCursor + |yb|
                         then SqDiffSum(s.x[i], yb[j - s.yCursor]) else d1[i][j]
  {
    HasDimSameWidth(s.x[..s.xCursor], yb, s.cfg.dimension);
    WriteBlock(d1, 0, s.yCursor, ComputeDistance(s.x[..s.xCursor], yb), |yb|)
  }

  /** The target branch's fresh `g`, mirroring `SourceFresh` column-wise. */
  function TargetFresh(ops: LogOps, s: State, yb: seq<Point>, d2: Matrix, full: bool): (g: seq<ExtReal>)
    requires Valid(s) && HasDim(yb, s.cfg.dimension) && s.yCursor + |yb| <= s.cfg.maxSize
    requires IsShape(d2, s.cfg.maxSize, s.cfg.maxSize)
    ensures |g| == if full then s.yCursor + |yb| else |yb|
  {
    var xc, yc, m := s.xCursor, s.yCursor, |yb|;
    HasDimSameWidth(s.x[..xc], yb, s.cfg.dimension);
    var cols := if full then yc + m else m;
    if xc == 0 then Zeros(cols)
    else ColDual(ops, s.p[..xc], if full then SubBlock(d2, xc, yc + m) else ComputeDistance(s.x[..xc], yb), cols)
  }

  /** Scalar distance evaluations of one branch: `cached` new cache entries,
      plus the soft-min block `rows * opp` when the opposite side is non-empty. */
  function BranchWork(n: nat, opp: nat, solved: nat): nat
  {
    if n == 0 then 0 else opp * n + (if opp == 0 then 0 else solved * opp)
  }

  /** The distance evaluations of one call: both branches, plus the
      new-by-new block (empty, hence free, unless both batches were given). */
  function CallWork(xc: nat, yc: nat, n: nat, m: nat, full: bool): nat
  {
    BranchWork(n, yc, if full then xc + n else n) + BranchWork(m, xc, if full then yc + m else m)
      + n * m
  }

  /** The new-by-new block. partial_fit writes it only when both batches were
      given; otherwise one clipped batch is empty and the write is a no-op. */
  function CrossBlock(d: Matrix, xc: nat, yc: nat, xb: seq<Point>, yb: seq<Point>, dim: nat): (r: Matrix)
    requires HasDim(xb, dim) && HasDim(yb, dim)
    requires xc + |xb| <= |d| && forall i :: 0 <= i < |d| ==> yc + |yb| <= |d[i]|
    ensures |r| == |d| && forall i :: 0 <= i < |d| ==> |r[i]| == |d[i]|
    ensures forall i, j :: 0 <= i < |d| && 0 <= j < |d[i]| ==>
              r[i][j] == if xc <= i < xc + |xb| && yc <= j < yc + |yb|
                         then SqDiffSum(xb[i - xc], yb[j - yc]) else d[i][j]
  {
    HasDimSameWidth(xb, yb, dim);
    WriteBlock(d, xc, yc, ComputeDistance(xb, yb), |yb|)
  }

  /** One side's potential (and running average) after absorbing the fresh
      values `dual` for `n` new entries starting at `lo`. */
  function BlendSide(ops: LogOps, pot: seq<ExtReal>, avg: seq<ExtReal>, averaging: bool, lo: nat, n: nat,
                     dual: seq<ExtReal>, full: bool, step: real, avgStep: real): (r: (seq<ExtReal>, seq<ExtReal>))
    requires 0.0 <= step <= 1.0 && 0.0 <= avgStep <= 1.0
    requires |dual| == (if full then lo + n else n) && lo + n <= |pot|
    requires averaging ==> |avg| == |pot|
    ensures |r.0| == |pot| && |r.1| == |avg|
  {
    if full then (FullRewrite(ops, pot, dual), avg)
    else
      var pot' := StreamBlend(ops, pot, lo, dual, step);
      (pot', if averaging then AverageIn(ops, avg, pot', lo + n, avgStep) else avg)
  }

  /** The source potential and its average after partial_fit: unchanged when
      nothing was absorbed, otherwise blended with the fresh `f`. */
  function SourceBlend(ops: LogOps, s: State, xb: seq<Point>, d1: Matrix, full: bool, step: real, avgStep: real)
    : (r: (seq<ExtReal>, seq<ExtReal>))
    requires Valid(s) && HasDim(xb, s.cfg.dimension) && s.xCursor + |xb| <= s.cfg.maxSize
    requires IsShape(d1, s.cfg.maxSize, s.cfg.maxSize)
    requires 0.0 <= step <= 1.0 && 0.0 <= avgStep <= 1.0
    ensures |r.0| == |s.p| && |r.1| == |s.avgP|
  {
    if |xb| == 0 then (s.p, s.avgP)
    else BlendSide(ops, s.p, s.avgP, s.cfg.averaging, s.xCursor, |xb|, SourceFresh(ops, s, xb, d1, full), full, step, avgStep)
  }

  /** The target potential and its average after partial_fit. */
  function TargetBlend(ops: LogOps, s: State, yb: seq<Point>, d2: Matrix, full: bool, step: real, avgStep: real)
    : (r: (seq<ExtReal>, seq<ExtReal>))
    requires Valid(s) && HasDim(yb, s.cfg.dimension) && s.yCursor + |yb| <= s.cfg.maxSize
    requires IsShape(d2, s.cfg.maxSize, s.cfg.maxSize)
    requires 0.0 <= step <= 1.0 && 0.0 <= avgStep <= 1.0
    ensures |r.0| == |s.q| && |r.1| == |s.avgQ|
  {
    if |yb| == 0 then (s.q, s.avgQ)
    else BlendSide(ops, s.q, s.avgQ, s.cfg.averaging, s.yCursor, |yb|, TargetFresh(ops, s, yb, d2, full), full, step, avgStep)
  }

  /** The cache after partial_fit's three block writes: new sources against
      old targets, old sources against new targets, new against new. */
  function FillCache(s: State, xb: seq<Point>, yb: seq<Point>): (d: Matrix)
    requires Valid(s) && HasDim(xb, s.cfg.dimension) && HasDim(yb, s.cfg.dimension)
    requires s.xCursor + |xb| <= s.cfg.maxSize && s.yCursor + |yb| <= s.cfg.maxSize
    ensures IsShape(d, s.cfg.maxSize, s.cfg.maxSize)
  {
    var d1 := SourceRowsCache(s, xb);
    var d2 := TargetColsCache(s, d1, yb);
    CrossBlock(d2, s.xCursor, s.yCursor, xb, yb, s.cfg.dimension)
  }

  /** partial_fit's effect once the batches are clipped to `xb` and `yb` (an
      absent batch clips to no rows). */
  function Absorb(ops: LogOps, s: State, xb: seq<Point>, yb: seq<Point>,
                  full: bool, step: real, avgStep: real): (t: State)
    requires Valid(s) && HasDim(xb, s.cfg.dimension) && HasDim(yb, s.cfg.dimension)
    requires s.xCursor + |xb| <= s.cfg.maxSize && s.yCursor + |yb| <= s.cfg.maxSize
    requires 0.0 <= step <= 1.0 && 0.0 <= avgStep <= 1.0
    ensures Valid(t) && t.cfg == s.cfg && t.nUpdates == s.nUpdates + 1
    ensures t.xCursor == s.xCursor + |xb| && t.yCursor == s.yCursor + |yb|
  {
    var xc, yc, n, m := s.xCursor, s.yCursor, |xb|, |yb|;
    var d1 := SourceRowsCache(s, xb);
    var d2 := TargetColsCache(s, d1, yb);
    var src := SourceBlend(ops, s, xb, d1, full, step, avgStep);
    var tgt := TargetBlend(ops, s, yb, d2, full, step, avgStep);
    var work := CallWork(xc, yc, n, m, full);
    s.(x := Splice(s.x, xc, xb), y := Splice(s.y, yc, yb), distance := FillCache(s, xb, yb),
       p := src.0, q := tgt.0, avgP := src.1, avgQ := tgt.1,
       xCursor := xc + n, yCursor := yc + m,
       computations := s.computations + work, nUpdates := s.nUpdates + 1)
  }

  /** `partial_fit(x, y, step_size, full_update, avg_step_size)`. */
  function PartialFit(ops: LogOps, s: State, x: Option<seq<Point>>, y: Option<seq<Point>>,
                      step: real, fullUpdate: bool, avgStep: real): (r: Result<State>)
    requires FitArgs(s, x, y, step, avgStep)
    ensures r.Err? <==> x.None? && y.None?
    ensures r.Err? ==> r.error == MissingData
    ensures r.Ok? ==> Valid(r.value) && r.value.cfg == s.cfg && r.value.nUpdates == s.nUpdates + 1
    ensures r.Ok? ==> Truncates(s.xCursor, |Rows(x)|, s.cfg.maxSize, r.value.xCursor)
    ensures r.Ok? ==> Truncates(s.yCursor, |Rows(y)|, s.cfg.maxSize, r.value.yCursor)
  {
    if x.None? && y.None? then Err(MissingData)
    else
      var xb, yb := Clip(x, s.cfg.maxSize - s.xCursor), Clip(y, s.cfg.maxSize - s.yCursor);
      Ok(Absorb(ops, s, xb, yb, fullUpdate, step, avgStep))
  }

  /** The buffers after absorbing the clipped batches. */
  function Grown(s: State, xb: seq<Point>, yb: seq<Point>): (r: (seq<Point>, seq<Point>))
    requires Valid(s) && HasDim(xb, s.cfg.dimension) && HasDim(yb, s.cfg.dimension)
    requires s.xCursor + |xb| <= s.cfg.maxSize && s.yCursor + |yb| <= s.cfg.maxSize
    ensures HasDim(r.0, s.cfg.dimension) && HasDim(r.1, s.cfg.dimension)
    ensures |r.0| == s.cfg.maxSize && |r.1| == s.cfg.maxSize
  {
    (Splice(s.x, s.xCursor, xb), Splice(s.y, s.yCursor, yb))
  }

  /** The distances between the grown buffers: what a freshly filled cache holds. */
  function GrownDistance(s: State, xb: seq<Point>, yb: seq<Point>): (w: Matrix)
    requires Valid(s) && HasDim(xb, s.cfg.dimension) && HasDim(yb, s.cfg.dimension)
    requires s.xCursor + |xb| <= s.cfg.maxSize && s.yCursor + |yb| <= s.cfg.maxSize
    ensures IsShape(w, s.cfg.maxSize, s.cfg.maxSize)
  {
    var g := Grown(s, xb, yb);
    HasDimSameWidth(g.0, g.1, s.cfg.dimension);
    ComputeDistance(g.0, g.1)
  }

  /** Three successive block writes of the same target matrix `w` (new rows by
      old columns, old rows by new columns, new by new) leave `w` on the grown
      rectangle minus the old one and `d0` everywhere else. */
  lemma ComposeWrites(d0: Matrix, d1: Matrix, d2: Matrix, d3: Matrix, w: Matrix, cap: nat, xc: nat, yc: nat, n: nat, m: nat)
    requires IsShape(d0, cap, cap) && IsShape(d1, cap, cap) && IsShape(d2, cap, cap)
    requires IsShape(d3, cap, cap) && IsShape(w, cap, cap)
    requires forall i, j :: 0 <= i < cap && 0 <= j < cap ==>
               d1[i][j] == if xc <= i < xc + n && j < yc then w[i][j] else d0[i][j]
    requires forall i, j :: 0 <= i < cap && 0 <= j < cap ==>
               d2[i][j] == if i < xc && yc <= j < yc + m then w[i][j] else d1[i][j]
    requires forall i, j :: 0 <= i < cap && 0 <= j < cap ==>
               d3[i][j] == if xc <= i < xc + n && yc <= j < yc + m then w[i][j] else d2[i][j]
    ensures forall i, j :: 0 <= i < cap && 0 <= j < cap ==>
              d3[i][j] == if (i < xc && j < yc) || i >= xc + n || j >= yc + m then d0[i][j] else w[i][j]
  {
  }

  /** The first write of partial_fit's cache update, against the grown distances. */
  lemma SourceRowsStage(s: State, xb: seq<Point>, yb: seq<Point>)
    requires Valid(s) && HasDim(xb, s.cfg.dimension) && HasDim(yb, s.cfg.dimension)
    requires s.xCursor + |xb| <= s.cfg.maxSize && s.yCursor + |yb| <= s.cfg.maxSize
    ensures var d1 := SourceRowsCache(s, xb);
            var w := GrownDistance(s, xb, yb);
            forall i, j :: 0 <= i < s.cfg.maxSize && 0 <= j < s.cfg.maxSize ==>
              d1[i][j] == if s.xCursor <= i < s.xCursor + |xb| && j < s.yCursor then w[i][j] else s.distance[i][j]
  {
    var g := Grown(s, xb, yb);
    if |xb| > 0 {
      var d1 := SourceRowsCache(s, xb);
      forall i, j | 0 <= i < s.cfg.maxSize && 0 <= j < s.cfg.maxSize && s.xCursor <= i < s.xCursor + |xb| && j < s.yCursor
        ensures d1[i][j] == SqDiffSum(g.0[i], g.1[j])
      {
        assert g.0[i] == xb[i - s.xCursor] && g.1[j] == s.y[j];
      }
    }
  }

  /** The second write: old rows by new columns. */
  lemma TargetColsStage(s: State, xb: seq<Point>, yb: seq<Point>, d1: Matrix)
    requires Valid(s) && HasDim(xb, s.cfg.dimension) && HasDim(yb, s.cfg.dimension)
    requires s.xCursor + |xb| <= s.cfg.maxSize && s.yCursor + |yb| <= s.cfg.maxSize
    requires IsShape(d1, s.cfg.maxSize, s.cfg.maxSize)
    ensures var d2 := TargetColsCache(s, d1, yb);
            var w := GrownDistance(s, xb, yb);
            forall i, j :: 0 <= i < s.cfg.maxSize && 0 <= j < s.cfg.maxSize ==>
              d2[i][j] == if i < s.xCursor && s.yCursor <= j < s.yCursor + |yb| then w[i][j] else d1[i][j]
  {
    var g := Grown(s, xb, yb);
    if |yb| > 0 {
      var d2 := TargetColsCache(s, d1, yb);
      forall i, j | 0 <= i < s.cfg.maxSize && 0 <= j < s.cfg.maxSize && i < s.xCursor && s.yCursor <= j < s.yCursor + |yb|
        ensures d2[i][j] == SqDiffSum(g.0[i], g.1[j])
      {
        assert g.0[i] == s.x[i] && g.1[j] == yb[j - s.yCursor];
      }
    }
  }

  /** The third write: new rows by new columns. */
  lemma CrossStage(s: State, xb: seq<Point>, yb: seq<Point>, d2: Matrix)
    requires Valid(s) && HasDim(xb, s.cfg.dimension) && HasDim(yb, s.cfg.dimension)
    requires s.xCursor + |xb| <= s.cfg.maxSize && s.yCursor + |yb| <= s.cfg.maxSize
    requires IsShape(d2, s.cfg.maxSize, s.cfg.maxSize)
    ensures var d := CrossBlock(d2, s.xCursor, s.yCursor, xb, yb, s.cfg.dimension);
            var w := GrownDistance(s, xb, yb);
            forall i, j :: 0 <= i < s.cfg.maxSize && 0 <= j < s.cfg.maxSize ==>
              d[i][j] == if s.xCursor <= i < s.xCursor + |xb| && s.yCursor <= j < s.yCursor + |yb| then w[i][j] else d2[i][j]
  {
    var g := Grown(s, xb, yb);
    var w := GrownDistance(s, xb, yb);
    var d := CrossBlock(d2, s.xCursor, s.yCursor, xb, yb, s.cfg.dimension);
    forall i, j | s.xCursor <= i < s.xCursor + |xb| && s.yCursor <= j < s.yCursor + |yb|
      ensures d[i][j] == w[i][j]
    {
      assert g.0[i] == xb[i - s.xCursor] && g.1[j] == yb[j - s.yCursor];
    }
  }

  /** The three block writes together: every pair made valid by the call (in
      the new cursors' rectangle but not the old one) holds the distance between
      the buffered points after absorption; every other entry is untouched. */
  lemma FillCacheContents(s: State, xb: seq<Point>, yb: seq<Point>)
    requires Valid(s) && HasDim(xb, s.cfg.dimension) && HasDim(yb, s.cfg.dimension)
    requires s.xCursor + |xb| <= s.cfg.maxSize && s.yCursor + |yb| <= s.cfg.maxSize
    ensures var d := FillCache(s, xb, yb);
            var w := GrownDistance(s, xb, yb);
            forall i, j :: 0 <= i < s.cfg.maxSize && 0 <= j < s.cfg.maxSize ==>
              d[i][j] == if (i < s.xCursor && j < s.yCursor) || i >= s.xCursor + |xb| || j >= s.yCursor + |yb|
                         then s.distance[i][j] else w[i][j]
  {
    var d1 := SourceRowsCache(s, xb);
    var d2 := TargetColsCache(s, d1, yb);
    SourceRowsStage(s, xb, yb);
    TargetColsStage(s, xb, yb, d1);
    CrossStage(s, xb, yb, d2);
    ComposeWrites(s.distance, d1, d2, FillCache(s, xb, yb), GrownDistance(s, xb, yb),
                  s.cfg.maxSize, s.xCursor, s.yCursor, |xb|, |yb|);
  }

  /** `is_full` after a partial_fit: the engine is full exactly when it was
      already full or one of the batches reached its buffer's capacity; in
      particular a full engine stays full. */
  lemma PartialFitFullness(ops: LogOps, s: State, x: Option<seq<Point>>, y: Option<seq<Point>>,
                           step: real, full: bool, avgStep: real)
    requires FitArgs(s, x, y, step, avgStep) && (x.Some? || y.Some?)
    ensures var t := PartialFit(ops, s, x, y, step, full, avgStep).value;
            && (IsFull(s) ==> IsFull(t))
            && (IsFull(t) <==> IsFull(s) || s.xCursor + |Rows(x)| >= s.cfg.maxSize || s.yCursor + |Rows(y)| >= s.cfg.maxSize)
  {
  }

  /** partial_fit appends the clipped source batch at the source cursor and
      leaves every other source buffer row as it was. */
  lemma PartialFitAppendsSource(ops: LogOps, s: State, x: Option<seq<Point>>, y: Option<seq<Point>>,
                                step: real, full: bool, avgStep: real)
    requires FitArgs(s, x, y, step, avgStep) && (x.Some? || y.Some?)
    ensures var t := PartialFit(ops, s, x, y, step, full, avgStep).value;
            forall i :: 0 <= i < s.cfg.maxSize ==>
              t.x[i] == if s.xCursor <= i < t.xCursor then Rows(x)[i - s.xCursor] else s.x[i]
  {
    var xb, yb := Clip(x, s.cfg.maxSize - s.xCursor), Clip(y, s.cfg.maxSize - s.yCursor);
    PartialFitIsAbsorb(ops, s, x, y, step, full, avgStep);
    AbsorbAppends(ops, s, xb, yb, full, step, avgStep);
  }

  /** The same for the target batch and buffer. */
  lemma PartialFitAppendsTarget(ops: LogOps, s: State, x: Option<seq<Point>>, y: Option<seq<Point>>,
                                step: real, full: bool, avgStep: real)
    requires FitArgs(s, x, y, step, avgStep) && (x.Some? || y.Some?)
    ensures var t := PartialFit(ops, s, x, y, step, full, avgStep).value;
            forall j :: 0 <= j < s.cfg.maxSize ==>
              t.y[j] == if s.yCursor <= j < t.yCursor then Rows(y)[j - s.yCursor] else s.y[j]
  {
    var xb, yb := Clip(x, s.cfg.maxSize - s.xCursor), Clip(y, s.cfg.maxSize - s.yCursor);
    PartialFitIsAbsorb(ops, s, x, y, step, full, avgStep);
    AbsorbAppends(ops, s, xb, yb, full, step, avgStep);
  }

  /** Absorption writes the clipped batches at the cursors. */
  lemma AbsorbAppends(ops: LogOps, s: State, xb: seq<Point>, yb: seq<Point>,
                      full: bool, step: real, avgStep: real)
    requires Valid(s) && HasDim(xb, s.cfg.dimension) && HasDim(yb, s.cfg.dimension)
    requires s.xCursor + |xb| <= s.cfg.maxSize && s.yCursor + |yb| <= s.cfg.maxSize
    requires 0.0 <= step <= 1.0 && 0.0 <= avgStep <= 1.0
    ensures var t := Absorb(ops, s, xb, yb, full, step, avgStep);
            && (forall i :: 0 <= i < s.cfg.maxSize ==>
                  t.x[i] == if s.xCursor <= i < t.xCursor then xb[i - s.xCursor] else s.x[i])
            && (forall j :: 0 <= j < s.cfg.maxSize ==>
                  t.y[j] == if s.yCursor <= j < t.yCursor then yb[j - s.yCursor] else s.y[j])
  {
  }

  /** Absorption in terms of the grown buffers: the buffers become the grown
      ones and the cache is filled from their distances on the new pairs. */
  lemma AbsorbFillsCache(ops: LogOps, s: State, xb: seq<Point>, yb: seq<Point>,
                         full: bool, step: real, avgStep: real)
    requires Valid(s) && HasDim(xb, s.cfg.dimension) && HasDim(yb, s.cfg.dimension)
    requires s.xCursor + |xb| <= s.cfg.maxSize && s.yCursor + |yb| <= s.cfg.maxSize
    requires 0.0 <= step <= 1.0 && 0.0 <= avgStep <= 1.0
    ensures var t := Absorb(ops, s, xb, yb, full, step, avgStep);
            var w := GrownDistance(s, xb, yb);
            && (t.x, t.y) == Grown(s, xb, yb)
            && forall i, j :: 0 <= i < s.cfg.maxSize && 0 <= j < s.cfg.maxSize ==>
                 t.distance[i][j] == if (i < s.xCursor && j < s.yCursor) || i >= t.xCursor || j >= t.yCursor
                                     then s.distance[i][j] else w[i][j]
  {
    FillCacheContents(s, xb, yb);
  }

  /** partial_fit writes only the cache pairs it makes valid: entries inside the
      old cursors' rectangle, and entries outside the new one, are untouched. */
  lemma PartialFitCacheFrame(ops: LogOps, s: State, x: Option<seq<Point>>, y: Option<seq<Point>>,
                             step: real, full: bool, avgStep: real)
    requires FitArgs(s, x, y, step, avgStep) && (x.Some? || y.Some?)
    ensures var t := PartialFit(ops, s, x, y, step, full, avgStep).value;
            forall i, j :: 0 <= i < s.cfg.maxSize && 0 <= j < s.cfg.maxSize &&
                           ((i < s.xCursor && j < s.yCursor) || i >= t.xCursor || j >= t.yCursor)
              ==> t.distance[i][j] == s.distance[i][j]
  {
    var xb, yb := Clip(x, s.cfg.maxSize - s.xCursor), Clip(y, s.cfg.maxSize - s.yCursor);
    PartialFitIsAbsorb(ops, s, x, y, step, full, avgStep);
    AbsorbFillsCache(ops, s, xb, yb, full, step, avgStep);
  }

  /** Cache consistency is preserved: if every valid entry held the distance
      of its buffered pair before the call, the same holds over the grown
      rectangle after it. */
  lemma PartialFitKeepsCacheConsistent(ops: LogOps, s: State, x: Option<seq<Point>>, y: Option<seq<Point>>,
                                       step: real, full: bool, avgStep: real)
    requires FitArgs(s, x, y, step, avgStep) && (x.Some? || y.Some?)
    requires CacheConsistent(s)
    ensures CacheConsistent(PartialFit(ops, s, x, y, step, full, avgStep).value)
  {
    var xb, yb := Clip(x, s.cfg.maxSize - s.xCursor), Clip(y, s.cfg.maxSize - s.yCursor);
    PartialFitIsAbsorb(ops, s, x, y, step, full, avgStep);
    AbsorbKeepsCacheConsistent(ops, s, xb, yb, full, step, avgStep);
  }

  lemma AbsorbKeepsCacheConsistent(ops: LogOps, s: State, xb: seq<Point>, yb: seq<Point>,
                                   full: bool, step: real, avgStep: real)
    requires Valid(s) && HasDim(xb, s.cfg.dimension) && HasDim(yb, s.cfg.dimension)
    requires s.xCursor + |xb| <= s.cfg.maxSize && s.yCursor + |yb| <= s.cfg.maxSize
    requires 0.0 <= step <= 1.0 && 0.0 <= avgStep <= 1.0
    requires CacheConsistent(s)
    ensures CacheConsistent(Absorb(ops, s, xb, yb, full, step, avgStep))
  {
    AbsorbFillsCache(ops, s, xb, yb, full, step, avgStep);
    var t := Absorb(ops, s, xb, yb, full, step, avgStep);
    var w := GrownDistance(s, xb, yb);
    forall i, j | 0 <= i < t.xCursor && 0 <= j < t.yCursor
      ensures t.distance[i][j] == SqDiffSum(t.x[i], t.y[j])
    {
      if i < s.xCursor && j < s.yCursor {
        assert t.x[i] == s.x[i] && t.y[j] == s.y[j];
      } else {
        assert t.distance[i][j] == w[i][j];
      }
    }
  }

  /** A successful call absorbs the clipped batches; a side given alone leaves
      the other side's batch empty. */
  lemma PartialFitIsAbsorb(ops: LogOps, s: State, x: Option<seq<Point>>, y: Option<seq<Point>>,
                           step: real, full: bool, avgStep: real)
    requires FitArgs(s, x, y, step, avgStep) && (x.Some? || y.Some?)
    ensures var xb, yb := Clip(x, s.cfg.maxSize - s.xCursor), Clip(y, s.cfg.maxSize - s.yCursor);
            && HasDim(xb, s.cfg.dimension) && HasDim(yb, s.cfg.dimension)
            && s.xCursor + |xb| <= s.cfg.maxSize && s.yCursor + |yb| <= s.cfg.maxSize
            && ((x.Some? && y.Some?) || |xb| == 0 || |yb| == 0)
            && PartialFit(ops, s, x, y, step, full, avgStep) == Ok(Absorb(ops, s, xb, yb, full, step, avgStep))
  {
  }

  /** The counter arithmetic of one call: the branch workloads sum to the area
      the rectangle grows by plus the soft-min blocks. */
  lemma {:induction false} WorkArithmetic(xc: nat, yc: nat, n: nat, m: nat, full: bool)
    ensures CallWork(xc, yc, n, m, full)
            == ((xc + n) * (yc + m) - xc * yc)
              + (if n > 0 && yc > 0 then (if full then xc + n else n) * yc else 0)
              + (if m > 0 && xc > 0 then xc * (if full then yc + m else m) else 0)
  {
    assert (xc + n) * (yc + m) == xc * yc + n * yc + xc * m + n * m;
  }

  /** The computation counter grows by one per cache pair the call makes valid
      (the area of the new rectangle minus the old one) plus one per entry of
      each soft-min block it solves. */
  lemma PartialFitCountsWork(ops: LogOps, s: State, x: Option<seq<Point>>, y: Option<seq<Point>>,
                             step: real, full: bool, avgStep: real)
    requires FitArgs(s, x, y, step, avgStep) && (x.Some? || y.Some?)
    ensures var t := PartialFit(ops, s, x, y, step, full, avgStep).value;
            var xc, yc, xc', yc' := s.xCursor, s.yCursor, t.xCursor, t.yCursor;
            t.computations == s.computations + (xc' * yc' - xc * yc)
              + (if xc' > xc && yc > 0 then (if full then xc' else xc' - xc) * yc else 0)
              + (if yc' > yc && xc > 0 then xc * (if full then yc' else yc' - yc) else 0)
  {
    var xb, yb := Clip(x, s.cfg.maxSize - s.xCursor), Clip(y, s.cfg.maxSize - s.yCursor);
    PartialFitIsAbsorb(ops, s, x, y, step, full, avgStep);
    AbsorbCountsWork(ops, s, xb, yb, full, step, avgStep);
  }

  lemma AbsorbCountsWork(ops: LogOps, s: State, xb: seq<Point>, yb: seq<Point>,
                         full: bool, step: real, avgStep: real)
    requires Valid(s) && HasDim(xb, s.cfg.dimension) && HasDim(yb, s.cfg.dimension)
    requires s.xCursor + |xb| <= s.cfg.maxSize && s.yCursor + |yb| <= s.cfg.maxSize
    requires 0.0 <= step <= 1.0 && 0.0 <= avgStep <= 1.0
    ensures var t := Absorb(ops, s, xb, yb, full, step, avgStep);
            var xc, yc, xc', yc' := s.xCursor, s.yCursor, t.xCursor, t.yCursor;
            t.computations == s.computations + (xc' * yc' - xc * yc)
              + (if xc' > xc && yc > 0 then (if full then xc' else xc' - xc) * yc else 0)
              + (if yc' > yc && xc > 0 then xc * (if full then yc' else yc' - yc) else 0)
  {
    WorkArithmetic(s.xCursor, s.yCursor, |xb|, |yb|, full);
  }
}
