/**
 * The frame bookkeeping of `create_fast_clifford_video` in image.py: how
 * many frames the animation has, which schedule entry each frame reads,
 * and the `clifford_fast` call each frame makes.
 *
 * The parameter sweep `a_values` is built over exact reals: `np.linspace`
 * as evenly spaced reals, `np.sin` as the same abstract table the map uses,
 * and pi as a parameter.
 */
module VideoFrames {
  import opened CliffordMap
  import opened Trajectory

  /** The defaults of `create_fast_clifford_video`. */
  const DefaultDurationSeconds: nat := 60
  const DefaultFps: nat := 24

  /** Seeds per frame and iterations per seed. */
  const FramePoints: nat := 5000
  const FrameIterations: nat := 100

  /** The parameters that stay fixed while `a` sweeps. */
  const FixedB: real := 1.6
  const FixedC: real := 1.0
  const FixedD: real := 0.7

  /** `histogram2d` bins both coordinates over [-HistogramHalfWidth, HistogramHalfWidth]. */
  const HistogramHalfWidth: real := 3.0

  /** `total_frames = duration_seconds * fps`. */
  function TotalFrames(durationSeconds: nat, fps: nat): nat
  {
    durationSeconds * fps
  }

  /**
   * `np.linspace(start, stop, num)`: num evenly spaced values from start to
   * stop, both ends included.
   */
  function Linspace(start: real, stop: real, num: nat): (r: seq<real>)
    ensures |r| == num
    ensures num >= 1 ==> r[0] == start
    ensures num >= 2 ==> r[num - 1] == stop
    ensures num >= 2 ==> forall f :: 0 <= f < num - 1 ==> r[f + 1] - r[f] == (stop - start) / ((num - 1) as real)
  {
    if num == 1 then [start]
    else
      var step := if num == 0 then 0.0 else (stop - start) / ((num - 1) as real);
      seq(num, f requires 0 <= f < num => start + (f as real) * step)
  }

  /** One schedule entry `-1.4 + 0.8 * np.sin(t)`: it lies in [-2.2, -0.6]. */
  function SweepA(trig: Trig, t: real): (r: real)
    ensures -2.2 <= r <= -0.6
  {
    -1.4 + 0.8 * trig.sin[t]
  }

  /**
   * The schedule `a_values` over `np.linspace(0, 6 * pi, total_frames)`:
   * one entry per frame, each in [-2.2, -0.6].
   */
  function AValues(trig: Trig, pi: real, totalFrames: nat): (r: seq<real>)
    ensures |r| == totalFrames
    ensures forall f :: 0 <= f < totalFrames ==> -2.2 <= r[f] <= -0.6
  {
    var ts := Linspace(0.0, 6.0 * pi, totalFrames);
    seq(totalFrames, f requires 0 <= f < totalFrames => SweepA(trig, ts[f]))
  }

  /** The frame indices FuncAnimation passes to `animate`: 0, 1, ..., total - 1. */
  function Frames(total: nat): (r: seq<nat>)
    ensures |r| == total
    ensures forall f :: 0 <= f < total ==> r[f] == f
  {
    seq(total, f requires 0 <= f < total => f)
  }

  /** The map parameters `animate(frame)` uses: `a = a_values[frame]` and the fixed b, c, d. */
  function FrameParams(aValues: seq<real>, frame: nat): Params
    requires frame < |aValues|
  {
    Params(aValues[frame], FixedB, FixedC, FixedD)
  }

  /** The whole sweep as a sequence of parameter sets, one per schedule entry. */
  function Schedule(aValues: seq<real>): (r: seq<Params>)
    ensures |r| == |aValues|
  {
    seq(|aValues|, f requires 0 <= f < |aValues| => FrameParams(aValues, f))
  }

  /**
   * The schedule `create_fast_clifford_video` builds has one entry for every
   * frame of the animation, and frame f runs the map with `a_values[f]`, which
   * lies in [-2.2, -0.6], and the fixed b, c, d.
   */
  lemma ScheduleCoversFrames(trig: Trig, pi: real, durationSeconds: nat, fps: nat)
    ensures var aValues := AValues(trig, pi, TotalFrames(durationSeconds, fps));
      |Schedule(aValues)| == |Frames(TotalFrames(durationSeconds, fps))| == durationSeconds * fps
    ensures var aValues := AValues(trig, pi, TotalFrames(durationSeconds, fps));
      forall f :: 0 <= f < |Frames(TotalFrames(durationSeconds, fps))| ==>
        Frames(TotalFrames(durationSeconds, fps))[f] < |aValues| &&
        Schedule(aValues)[f] == Params(aValues[f], FixedB, FixedC, FixedD) &&
        -2.2 <= Schedule(aValues)[f].a <= -0.6
  {
  }

  /**
   * An example: the default arguments `duration_seconds=60, fps=24` give an
   * animation of 1440 frames.
   */
  lemma DefaultFrameCount()
    ensures TotalFrames(DefaultDurationSeconds, DefaultFps) == 1440
  {
  }

  /** Two frames run the same map exactly when their schedule entries agree. */
  lemma FramesDifferOnlyInA(aValues: seq<real>, f: nat, g: nat)
    requires f < |aValues| && g < |aValues|
    ensures FrameParams(aValues, f).b == FrameParams(aValues, g).b
    ensures FrameParams(aValues, f).c == FrameParams(aValues, g).c
    ensures FrameParams(aValues, f).d == FrameParams(aValues, g).d
    ensures FrameParams(aValues, f) == FrameParams(aValues, g) <==> aValues[f] == aValues[g]
  {
  }

  /** A coordinate the histogram counts: inside [-3, 3]. */
  predicate InHistogram(v: real)
  {
    -HistogramHalfWidth <= v <= HistogramHalfWidth
  }

  /**
   * With c = 1.0 and d = 0.7 every recorded point, for any number of
   * iterations, lies within |x| <= 2 and |y| <= 1.7, so the [-3, 3] x [-3, 3]
   * histogram range drops none of them, whatever the value of a.
   */
  lemma FrameInsideHistogram(t: Trig, aValues: seq<real>, frame: nat, seeds: seq<Point>, nIter: nat)
    requires frame < |aValues|
    ensures forall j :: 0 <= j < |Record(t, FrameParams(aValues, frame), seeds, nIter)| ==>
      InHistogram(Record(t, FrameParams(aValues, frame), seeds, nIter)[j].x) &&
      InHistogram(Record(t, FrameParams(aValues, frame), seeds, nIter)[j].y)
  {
    RecordBounded(t, FrameParams(aValues, frame), seeds, nIter);
  }

  /**
   * The trajectory computation of `animate(frame)`:
   * `clifford_fast(n_points, a_values[frame], b, c, d, n_iter)` on the
   * frame's seeds. The buffers hold 5000 * 100 points, laid out block by
   * block, and all of them fall inside the histogram range.
   */
  method AnimateFrame(t: Trig, aValues: seq<real>, frame: nat, x0: seq<real>, y0: seq<real>)
    returns (xs: array<real>, ys: array<real>)
    requires frame < |aValues|
    requires |x0| == FramePoints && |y0| == FramePoints
    ensures fresh(xs) && fresh(ys) && xs != ys
    ensures xs.Length == ys.Length == 500000
    ensures forall i, k :: 0 <= i < FrameIterations && 0 <= k < FramePoints ==>
      Slot(i, FramePoints, k) < xs.Length &&
      xs[Slot(i, FramePoints, k)] == Orbit(t, FrameParams(aValues, frame), Point(x0[k], y0[k]), i + 1).x &&
      ys[Slot(i, FramePoints, k)] == Orbit(t, FrameParams(aValues, frame), Point(x0[k], y0[k]), i + 1).y
    ensures forall j :: 0 <= j < xs.Length ==> InHistogram(xs[j]) && InHistogram(ys[j])
  {
    var p := FrameParams(aValues, frame);
    xs, ys := CliffordFast(t, p, FramePoints, x0, y0, FrameIterations);
  }
}
