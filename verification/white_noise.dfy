/** The white noise generator of src/generators/whiteNoise.ts: point `i`
    sits at x = i with a y drawn from [-1, 1), independent of every other
    point. */
module WhiteNoise {
  import opened Common
  import opened Scheduler

  datatype WhiteNoiseOptions = WhiteNoiseOptions(numberOfPoints: int)

  /** `createWhiteNoiseGenerator`'s options. */
  const Defaults := WhiteNoiseOptions(1000)

  /** `setNumberOfPoints`: the stored options with the count replaced, or
      a fresh record when there are none; with a single option both give
      the same record. */
  function SetNumberOfPoints(options: Option<WhiteNoiseOptions>, numberOfPoints: int): (r: WhiteNoiseOptions)
    ensures r.numberOfPoints == numberOfPoints
    ensures options.Some? ==> r.(numberOfPoints := options.value.numberOfPoints) == options.value
  {
    match options
    case Some(o) => o.(numberOfPoints := numberOfPoints)
    case None => WhiteNoiseOptions(numberOfPoints)
  }

  function PointCount(o: WhiteNoiseOptions): (n: int)
    ensures n == o.numberOfPoints
  {
    o.numberOfPoints
  }

  /** Setting the point count is what `getPointCount` reports afterwards,
      with or without options stored before. */
  lemma PointCountAfterSetter(options: Option<WhiteNoiseOptions>, n: int)
    ensures PointCount(SetNumberOfPoints(options, n)) == n
    ensures options.Some? ==> SetNumberOfPoints(options, PointCount(options.value)) == options.value
  {
  }

  /** `generator(i)` with draw `r`. */
  function Generator(i: int, r: real): (p: Point)
    ensures p.x == i as real
    ensures IsDraw(r) <==> -1.0 <= p.y < 1.0
  {
    Point(i as real, Jitter(r))
  }

  /** The generator as a state-threading function with no state. */
  function Noise(draws: int -> real): ((), int) -> ((), Point)
  {
    (u: (), i: int) => ((), Generator(i, draws(i)))
  }

  /** Point `k` of a run depends on `k` and its own draw only: it lies at
      x = k with y in [-1, 1), whatever came before. */
  lemma RunPoint(draws: int -> real, n: nat, k: nat)
    requires k < n
    requires IsDraw(draws(k))
    ensures Produce(Noise(draws), (), 0, n).1[k] == Generator(k, draws(k))
    ensures var p := Produce(Noise(draws), (), 0, n).1[k];
      p.x == k as real && -1.0 <= p.y < 1.0
  {
    ProducePoint(Noise(draws), (), 0, n, k);
  }

  /** Two runs whose draws agree at index `k` agree at point `k`. */
  lemma PointsIndependent(d1: int -> real, d2: int -> real, n1: nat, n2: nat, k: nat)
    requires k < n1 && k < n2
    requires d1(k) == d2(k)
    ensures Produce(Noise(d1), (), 0, n1).1[k] == Produce(Noise(d2), (), 0, n2).1[k]
  {
    ProducePoint(Noise(d1), (), 0, n1, k);
    ProducePoint(Noise(d2), (), 0, n2, k);
  }

  /** As written, `infiniteReset` adds the last point (`AddLast`). On
      noise data at x = 0 .. n-1 the first copied point lands on x = n-1,
      the x of the last point, and a y may leave [-1, 1). */
  lemma ResetAsWrittenRepeatsLastIndex(data: seq<Point>)
    requires |data| > 0
    requires forall i :: 0 <= i < |data| ==> data[i].x == i as real
    ensures AddLast(data[0], data).value.x == data[|data| - 1].x
  {
  }

  /** Two noise points whose reset copies, as written, leave [-1, 1). */
  lemma ResetAsWrittenLeavesRange()
    ensures var data := [Point(0.0, 0.5), Point(1.0, 0.75)];
      AddLast(data[0], data) == Some(Point(1.0, 1.25))
      && AddLast(data[1], data) == Some(Point(2.0, 1.5))
  {
  }

  /** On noise data at x = 0 .. n-1 the reset copies continue the axis at
      x = n .. 2n-1, no two points share an x, and every y stays in
      [-1, 1). */
  lemma ResetContinuesNoise(data: seq<Point>, j: nat, k: nat)
    requires j < |data| && k < |data|
    requires forall i :: 0 <= i < |data| ==> data[i].x == i as real && -1.0 <= data[i].y < 1.0
    ensures ShiftByLength(data[k], data).x == (|data| + k) as real
    ensures ShiftByLength(data[k], data).x != data[j].x
    ensures -1.0 <= ShiftByLength(data[k], data).y < 1.0
  {
  }
}
