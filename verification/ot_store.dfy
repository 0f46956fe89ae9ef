/** The engine's state (the attributes of the `OT` object): fixed-capacity
    sample buffers with fill cursors, the pairwise-distance cache, the dual
    log-potentials and their running averages, and the two counters. */
module OTStore {
  import opened Outcomes
  import opened LogDomain
  import opened Distance
  import opened Blocks

  /** The construction parameters that shape the state. The step-size and
      batch-size schedules are float arithmetic and enter the model as the
      values the driver passes in. */
  datatype Config = Config(
    maxSize: nat,       // capacity of each sample buffer
    dimension: nat,     // coordinates per point
    noMemory: bool,     // compute_ot recomputes distances instead of reading the cache
    fullUpdate: bool,   // the driver asks partial_fit for full updates
    averaging: bool)    // keep time-averaged potentials

  /** `x`/`y` are the sample buffers `x_`/`y_`, `distance` is `distance_`,
      `p` is the column `p_` and `q` the row `q_`, both flattened; `avgP`/`avgQ`
      exist (have `maxSize` entries) only when averaging is enabled. */
  datatype State = State(
    cfg: Config,
    x: seq<Point>,
    y: seq<Point>,
    distance: Matrix,
    p: seq<ExtReal>,
    q: seq<ExtReal>,
    avgP: seq<ExtReal>,
    avgQ: seq<ExtReal>,
    xCursor: nat,
    yCursor: nat,
    computations: nat,
    nUpdates: nat)

  /** The shape invariant every operation keeps: buffers of the configured
      capacity and dimension, and cursors within capacity. */
  predicate Valid(s: State)
  {
    var cap := s.cfg.maxSize;
    && |s.x| == cap && |s.y| == cap
    && HasDim(s.x, s.cfg.dimension) && HasDim(s.y, s.cfg.dimension)
    && IsShape(s.distance, cap, cap)
    && |s.p| == cap && |s.q| == cap
    && (if s.cfg.averaging then |s.avgP| == cap && |s.avgQ| == cap else s.avgP == [] && s.avgQ == [])
    && s.xCursor <= cap && s.yCursor <= cap
  }

  /** Every valid cache entry, absorbed source i by absorbed target j, holds
      the squared distance between the two buffered points. */
  predicate CacheConsistent(s: State)
    requires Valid(s)
  {
    forall i, j {:trigger SqDiffSum(s.x[i], s.y[j])} :: 0 <= i < s.xCursor && 0 <= j < s.yCursor ==>
      s.distance[i][j] == SqDiffSum(s.x[i], s.y[j])
  }

  /** `is_full`: either buffer has reached capacity. Since cursors never pass
      the capacity, an engine is not full exactly when both buffers still have
      a free slot, that is, when another source-target pair fits. */
  function IsFull(s: State): (full: bool)
    requires Valid(s)
    ensures !full <==> s.xCursor < s.cfg.maxSize && s.yCursor < s.cfg.maxSize
  {
    s.xCursor == s.cfg.maxSize || s.yCursor == s.cfg.maxSize
  }

  /** `n` all-NegInf potentials. */
  function Uninformative(n: nat): (r: seq<ExtReal>)
    ensures |r| == n
    ensures forall i :: 0 <= i < n ==> r[i] == NegInf
  {
    seq(n, _ => NegInf)
  }

  /** The origin of a `d`-dimensional space; stands for the unspecified
      contents of a freshly allocated (`np.empty`) buffer row. */
  function Origin(d: nat): (r: Point)
    ensures |r| == d
  {
    seq(d, _ => 0.0)
  }

  /** `OT.__init__`: all buffers allocated at capacity, cursors and counters at
      zero, every potential uninformative; the no-memory and averaging modes
      are mutually exclusive. */
  function Init(cfg: Config): (r: Result<State>)
    ensures r.Err? <==> cfg.noMemory && cfg.averaging
    ensures r.Err? ==> r.error == Unsupported
    ensures r.Ok? ==> var s := r.value;
              && Valid(s) && s.cfg == cfg
              && s.xCursor == 0 && s.yCursor == 0
              && s.nUpdates == 0 && s.computations == 0
              && (forall i :: 0 <= i < cfg.maxSize ==> s.p[i] == NegInf && s.q[i] == NegInf)
              && (cfg.averaging ==> forall i :: 0 <= i < cfg.maxSize ==> s.avgP[i] == NegInf && s.avgQ[i] == NegInf)
              && (forall i, j :: 0 <= i < cfg.maxSize && 0 <= j < cfg.maxSize ==> s.distance[i][j] == 0.0)
  {
    if cfg.noMemory && cfg.averaging then Err(Unsupported)
    else
      var cap := cfg.maxSize;
      var buffer := seq(cap, _ => Origin(cfg.dimension));
      var avg := if cfg.averaging then Uninformative(cap) else [];
      Ok(State(cfg, buffer, buffer, seq(cap, _ => seq(cap, _ => 0.0)),
               Uninformative(cap), Uninformative(cap), avg, avg, 0, 0, 0, 0))
  }

  /** A fresh engine holds nothing, so its (empty) cache is consistent, and it
      is full only when its capacity is zero. */
  lemma InitIsEmptyAndConsistent(cfg: Config)
    requires !(cfg.noMemory && cfg.averaging)
    ensures Init(cfg).Ok?
    ensures CacheConsistent(Init(cfg).value)
    ensures IsFull(Init(cfg).value) <==> cfg.maxSize == 0
  {
  }

  /** The engine with the roles of the two distributions exchanged: buffers,
      potentials and cursors swapped and the cache transposed. */
  function Swap(s: State): (r: State)
    requires Valid(s)
    ensures Valid(r)
  {
    s.(x := s.y, y := s.x, distance := Transpose(s.distance, s.cfg.maxSize),
       p := s.q, q := s.p, avgP := s.avgQ, avgQ := s.avgP,
       xCursor := s.yCursor, yCursor := s.xCursor)
  }

  lemma SwapInvolutive(s: State)
    requires Valid(s)
    ensures Swap(Swap(s)) == s
  {
    TransposeInvolutive(s.distance, s.cfg.maxSize);
  }

  /** Cache consistency does not depend on which side is called the source. */
  lemma SwapKeepsCacheConsistent(s: State)
    requires Valid(s)
    ensures CacheConsistent(s) <==> CacheConsistent(Swap(s))
  {
    var t := Swap(s);
    if CacheConsistent(s) {
      forall i, j | 0 <= i < t.xCursor && 0 <= j < t.yCursor
        ensures t.distance[i][j] == SqDiffSum(t.x[i], t.y[j])
      {
        SqDiffSumSymmetric(s.x[j], s.y[i]);
      }
    }
    if CacheConsistent(t) {
      forall i, j | 0 <= i < s.xCursor && 0 <= j < s.yCursor
        ensures s.distance[i][j] == SqDiffSum(s.x[i], s.y[j])
      {
        assert t.distance[j][i] == SqDiffSum(t.x[j], t.y[i]);
        SqDiffSumSymmetric(s.x[i], s.y[j]);
      }
    }
  }
}
