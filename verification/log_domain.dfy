/** Log-domain scalars. Dual potentials are stored as logarithms of masses, so
    "no mass yet" is log 0 = -infinity. The transcendental primitives the engine
    calls (`-logsumexp`, `log`, `logaddexp`) are not modelled numerically: they
    are carried as function values in a `LogOps` record, so every property proved
    here holds whatever those functions compute. */
module LogDomain {

  /** A log-domain value: `NegInf` is the uninformative sentinel -infinity. */
  datatype ExtReal = NegInf | Fin(v: real)

  /** Addition of log-domain values (multiplication of masses); -infinity absorbs. */
  function Plus(a: ExtReal, b: ExtReal): (r: ExtReal)
    ensures r.NegInf? <==> a.NegInf? || b.NegInf?
    ensures a.Fin? && b.Fin? ==> r == Fin(a.v + b.v)
  {
    match (a, b)
    case (Fin(u), Fin(w)) => Fin(u + w)
    case _ => NegInf
  }

  /** `a + c` for a finite offset `c`. */
  function Shift(a: ExtReal, c: real): (r: ExtReal)
    ensures r.NegInf? <==> a.NegInf?
  {
    Plus(a, Fin(c))
  }

  lemma PlusCommutes(a: ExtReal, b: ExtReal)
    ensures Plus(a, b) == Plus(b, a)
  {
  }

  /** The numeric primitives, left uninterpreted.
      - `negLogSumExp(v)` is `-logsumexp(v)`, the Sinkhorn soft-min of a row or column;
      - `log` is the natural logarithm, consulted only at positive arguments;
      - `logAddExp(a, b)` is `log(exp a + exp b)`. */
  datatype LogOps = LogOps(
    negLogSumExp: seq<ExtReal> -> ExtReal,
    log: real -> real,
    logAddExp: (ExtReal, ExtReal) -> ExtReal)

  /** `log w` for a weight `w >= 0`; `log 0` is -infinity. */
  function LogWeight(ops: LogOps, w: real): (r: ExtReal)
    requires 0.0 <= w
    ensures r.NegInf? <==> w == 0.0
  {
    if w == 0.0 then NegInf else Fin(ops.log(w))
  }

  /** `f - log(count)`, the uniform normalisation of a potential over `count` samples. */
  function Normalize(ops: LogOps, f: seq<ExtReal>, count: nat): (r: seq<ExtReal>)
    ensures |r| == |f|
    ensures forall i :: 0 <= i < |f| ==> (r[i].NegInf? <==> f[i].NegInf?)
  {
    seq(|f|, i requires 0 <= i < |f| => Shift(f[i], -ops.log(count as real)))
  }

  /** `n` zero potentials: the value given to a new sample while the opposite side is empty. */
  function Zeros(n: nat): (r: seq<ExtReal>)
    ensures |r| == n
    ensures forall i :: 0 <= i < n ==> r[i] == Fin(0.0)
  {
    seq(n, _ => Fin(0.0))
  }

  /** The sum of a vector of log-domain values. */
  function Sum(v: seq<ExtReal>): (r: ExtReal)
    ensures r.NegInf? <==> exists i :: 0 <= i < |v| && v[i].NegInf?
  {
    if |v| == 0 then Fin(0.0) else Plus(v[0], Sum(v[1..]))
  }

  /** The arithmetic mean of a non-empty vector (`ndarray.mean()`). */
  function Mean(v: seq<ExtReal>): (r: ExtReal)
    requires |v| > 0
    ensures r.NegInf? <==> exists i :: 0 <= i < |v| && v[i].NegInf?
  {
    match Sum(v)
    case NegInf => NegInf
    case Fin(t) => Fin(t / |v| as real)
  }
}
