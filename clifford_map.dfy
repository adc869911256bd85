/**
 * The Clifford map and its element-wise application to a batch of seeds,
 * as evaluated by `clifford_fast` in image.py.
 *
 * Floating-point `np.sin`/`np.cos` are not modelled: the map is evaluated
 * over an arbitrary pair of total real functions, given as tables over all
 * the reals, whose only known property is that both stay within [-1, 1].
 */
module CliffordMap {

  /** A sine and a cosine, otherwise unknown. */
  datatype TrigPair = TrigPair(sin: imap<real, real>, cos: imap<real, real>)

  /** Both are defined everywhere and |sin t| <= 1, |cos t| <= 1 for every t. */
  ghost predicate IsBounded(t: TrigPair)
  {
    forall r :: r in t.sin && r in t.cos && -1.0 <= t.sin[r] <= 1.0 && -1.0 <= t.cos[r] <= 1.0
  }

  /** The trigonometric library the map is evaluated with. */
  type Trig = t: TrigPair | IsBounded(t) ghost witness TrigPair(imap r: real | true :: 0.0, imap r: real | true :: 0.0)

  /** The four map parameters a, b, c, d. */
  datatype Params = Params(a: real, b: real, c: real, d: real)

  /** One state (x, y) of one seed. */
  datatype Point = Point(x: real, y: real)

  function Abs(r: real): real
  {
    if r < 0.0 then -r else r
  }

  lemma ProductNonNegative(u: real, v: real)
    requires u >= 0.0 && v >= 0.0
    ensures u * v >= 0.0
  {
  }

  /** |k * v| <= |k| whenever |v| <= 1. */
  lemma ScaledBound(k: real, v: real)
    requires -1.0 <= v <= 1.0
    ensures -Abs(k) <= k * v <= Abs(k)
  {
    if k >= 0.0 {
      ProductNonNegative(k, 1.0 - v);
      ProductNonNegative(k, v + 1.0);
    } else {
      ProductNonNegative(-k, 1.0 - v);
      ProductNonNegative(-k, v + 1.0);
    }
  }

  /** A value within 1 of zero plus one within |k| of zero stays within 1 + |k|. */
  lemma SumBound(u: real, w: real, k: real)
    requires -1.0 <= u <= 1.0 && -Abs(k) <= w <= Abs(k)
    ensures Abs(u + w) <= 1.0 + Abs(k)
  {
  }

  /** x' = sin(a*y) + c*cos(a*x), which stays within 1 + |c| of zero whatever the old state. */
  function NextX(t: Trig, p: Params, x: real, y: real): (r: real)
    ensures Abs(r) <= 1.0 + Abs(p.c)
  {
    var u, v := t.sin[p.a * y], t.cos[p.a * x];
    var w := p.c * v;
    ScaledBound(p.c, v);
    SumBound(u, w, p.c);
    u + w
  }

  /** y' = sin(b*x) + d*cos(b*y), which stays within 1 + |d| of zero whatever the old state. */
  function NextY(t: Trig, p: Params, x: real, y: real): (r: real)
    ensures Abs(r) <= 1.0 + Abs(p.d)
  {
    var u, v := t.sin[p.b * x], t.cos[p.b * y];
    var w := p.d * v;
    ScaledBound(p.d, v);
    SumBound(u, w, p.d);
    u + w
  }

  /**
   * One application of the map: both coordinates are computed from the old
   * state, and the new state is bounded whatever the old one was.
   */
  function Step(t: Trig, p: Params, pt: Point): (r: Point)
    ensures Abs(r.x) <= 1.0 + Abs(p.c) && Abs(r.y) <= 1.0 + Abs(p.d)
  {
    Point(NextX(t, p, pt.x, pt.y), NextY(t, p, pt.x, pt.y))
  }

  /** The state of a seed after n applications of the map. */
  function Orbit(t: Trig, p: Params, pt: Point, n: nat): Point
    decreases n
  {
    if n == 0 then pt else Step(t, p, Orbit(t, p, pt, n - 1))
  }

  /** Every state reached after at least one step lies in [-(1+|c|), 1+|c|] x [-(1+|d|), 1+|d|]. */
  lemma {:induction false} OrbitBounded(t: Trig, p: Params, pt: Point, n: nat)
    requires n >= 1
    ensures Abs(Orbit(t, p, pt, n).x) <= 1.0 + Abs(p.c)
    ensures Abs(Orbit(t, p, pt, n).y) <= 1.0 + Abs(p.d)
  {
    assert Orbit(t, p, pt, n) == Step(t, p, Orbit(t, p, pt, n - 1));
  }

  /** Running m steps and then n more is running m + n steps. */
  lemma {:induction false} OrbitCompose(t: Trig, p: Params, pt: Point, m: nat, n: nat)
    ensures Orbit(t, p, Orbit(t, p, pt, m), n) == Orbit(t, p, pt, m + n)
    decreases n
  {
    if n > 0 {
      OrbitCompose(t, p, pt, m, n - 1);
    }
  }

  // ----- Batches: the arrays x and y of clifford_fast -----

  /** Pairs the x and y arrays into one batch of states. */
  function Zip(xs: seq<real>, ys: seq<real>): seq<Point>
    requires |xs| == |ys|
  {
    seq(|xs|, k requires 0 <= k < |xs| => Point(xs[k], ys[k]))
  }

  /**
   * The vectorised x update `np.sin(a * y) + c * np.cos(a * x)`: one new x
   * per point, each within 1 + |c|.
   */
  function MapX(t: Trig, p: Params, xs: seq<real>, ys: seq<real>): (r: seq<real>)
    requires |xs| == |ys|
    ensures |r| == |xs|
    ensures forall k :: 0 <= k < |r| ==> Abs(r[k]) <= 1.0 + Abs(p.c)
  {
    seq(|xs|, k requires 0 <= k < |xs| => NextX(t, p, xs[k], ys[k]))
  }

  /**
   * The vectorised y update `np.sin(b * x) + d * np.cos(b * y)`: one new y
   * per point, each within 1 + |d|.
   */
  function MapY(t: Trig, p: Params, xs: seq<real>, ys: seq<real>): (r: seq<real>)
    requires |xs| == |ys|
    ensures |r| == |xs|
    ensures forall k :: 0 <= k < |r| ==> Abs(r[k]) <= 1.0 + Abs(p.d)
  {
    seq(|xs|, k requires 0 <= k < |xs| => NextY(t, p, xs[k], ys[k]))
  }

  /** The map applied to every state of a batch: one new state per old one. */
  function StepBatch(t: Trig, p: Params, ps: seq<Point>): (r: seq<Point>)
    ensures |r| == |ps|
  {
    seq(|ps|, k requires 0 <= k < |ps| => Step(t, p, ps[k]))
  }

  /** The batch after n simultaneous steps. */
  function IterateBatch(t: Trig, p: Params, ps: seq<Point>, n: nat): (r: seq<Point>)
    ensures |r| == |ps|
    decreases n
  {
    if n == 0 then ps else StepBatch(t, p, IterateBatch(t, p, ps, n - 1))
  }

  /**
   * Computing both new arrays from the old pair and then reassigning them
   * (`x, y = x_new, y_new`) is one step of the map on every point: the new y
   * is built from the old x, not from the new one.
   */
  lemma SimultaneousUpdate(t: Trig, p: Params, xs: seq<real>, ys: seq<real>)
    requires |xs| == |ys|
    ensures |MapX(t, p, xs, ys)| == |MapY(t, p, xs, ys)| == |xs|
    ensures forall k :: 0 <= k < |xs| ==>
      Point(MapX(t, p, xs, ys)[k], MapY(t, p, xs, ys)[k]) == Step(t, p, Point(xs[k], ys[k]))
  {
  }

  /**
   * The batch keeps its order: seed k's slot after n steps holds seed k's
   * own orbit, so no point influences another.
   */
  lemma {:induction false} BatchPointwise(t: Trig, p: Params, ps: seq<Point>, n: nat, k: nat)
    requires k < |ps|
    ensures IterateBatch(t, p, ps, n)[k] == Orbit(t, p, ps[k], n)
    decreases n
  {
    if n > 0 {
      BatchPointwise(t, p, ps, n - 1, k);
    }
  }
}
