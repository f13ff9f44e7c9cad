/** The progressive trace generator of src/generators/progressiveTrace.ts:
    point `i` sits at x = i, and its y is the previous point's y moved by a
    draw spread over [-1, 1). */
module ProgressiveTrace {
  import opened Common
  import opened Scheduler

  datatype ProgressiveTraceOptions = ProgressiveTraceOptions(numberOfPoints: int)

  /** `createProgressiveTraceGenerator`'s options. */
  const Defaults := ProgressiveTraceOptions(1000)

  function SetNumberOfPoints(o: ProgressiveTraceOptions, numberOfPoints: int): (r: ProgressiveTraceOptions)
    ensures r.numberOfPoints == numberOfPoints
    ensures r.(numberOfPoints := o.numberOfPoints) == o
  {
    o.(numberOfPoints := numberOfPoints)
  }

  function PointCount(o: ProgressiveTraceOptions): (n: int)
    ensures n == o.numberOfPoints
  {
    o.numberOfPoints
  }

  /** Setting the point count is what `getPointCount` reports afterwards. */
  lemma PointCountAfterSetter(o: ProgressiveTraceOptions, n: int)
    ensures PointCount(SetNumberOfPoints(o, n)) == n
    ensures SetNumberOfPoints(o, PointCount(o)) == o
  {
  }

  /** The previous point before the first call. */
  const Origin := Point(0.0, 0.0)

  /** `generateDataPoint(i)` with draw `r`: x is the index and y moves
      from the previous y by less than one either way. */
  function GenerateDataPoint(prev: Point, i: int, r: real): (p: Point)
    ensures p.x == i as real
    ensures IsDraw(r) <==> -1.0 <= p.y - prev.y < 1.0
  {
    Point(i as real, prev.y + Jitter(r))
  }

  /** The generator as a state-threading function: the state is the
      previous point, and `draws(i)` the draw of index `i`. */
  function Walk(draws: int -> real): (Point, int) -> (Point, Point)
  {
    Emitting(Next(draws))
  }

  /** The next point from the previous one at index `i`. */
  function Next(draws: int -> real): (Point, int) -> Point
  {
    (prev: Point, i: int) => GenerateDataPoint(prev, i, draws(i))
  }

  /** Point `k` of a run lies at x = k; the first moves less than one in
      y from the point the generator holds (the origin for a fresh
      generator, the last point of the previous run afterwards) and every
      later one less than one from the point before it. */
  lemma RunSteps(draws: int -> real, start: Point, n: nat, k: nat)
    requires k < n
    requires IsDraw(draws(k))
    ensures var run := Produce(Walk(draws), start, 0, n).1;
      && run[k].x == k as real
      && (k == 0 ==> -1.0 <= run[0].y - start.y < 1.0)
      && (k > 0 ==> -1.0 <= run[k].y - run[k - 1].y < 1.0)
  {
    var prev := Produce(Walk(draws), start, 0, k).0;
    EmittingPoint(Next(draws), start, 0, n, k);
    assert Next(draws)(prev, k) == GenerateDataPoint(prev, k, draws(k));
    if k > 0 {
      StateIsLastOutput(Next(draws), start, 0, n, k);
    }
  }

  /** On a run's data, at x = 0 .. n-1, the reset continues the axis at
      x = n .. 2n-1 and keeps every step in y. */
  lemma ResetContinuesRun(data: seq<Point>, k: nat)
    requires 0 < k < |data|
    requires forall i :: 0 <= i < |data| ==> data[i].x == i as real
    ensures ShiftByLength(data[k], data).x == (|data| + k) as real
    ensures ShiftByLength(data[k], data).y - ShiftByLength(data[k - 1], data).y == data[k].y - data[k - 1].y
  {
  }
}
