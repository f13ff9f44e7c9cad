/** The trace generator of src/generators/trace.ts: a random walk in the
    plane, each point moving from the previous one by less than one in x
    and in y. */
module Trace {
  import opened Common
  import opened Scheduler

  datatype TraceOptions = TraceOptions(numberOfPoints: int)

  /** `createTraceGenerator`'s options. */
  const Defaults := TraceOptions(1000)

  function SetNumberOfPoints(o: TraceOptions, numberOfPoints: int): (r: TraceOptions)
    ensures r.numberOfPoints == numberOfPoints
    ensures r.(numberOfPoints := o.numberOfPoints) == o
  {
    o.(numberOfPoints := numberOfPoints)
  }

  function PointCount(o: TraceOptions): (n: int)
    ensures n == o.numberOfPoints
  {
    o.numberOfPoints
  }

  /** Setting the point count is what `getPointCount` reports afterwards. */
  lemma PointCountAfterSetter(o: TraceOptions, n: int)
    ensures PointCount(SetNumberOfPoints(o, n)) == n
    ensures SetNumberOfPoints(o, PointCount(o)) == o
  {
  }

  /** The previous point before the first call. */
  const Origin := Point(0.0, 0.0)

  /** The two draws of one call, for x and for y. */
  datatype TraceDraws = TraceDraws(rx: real, ry: real)

  predicate ValidDraws(d: TraceDraws)
  {
    IsDraw(d.rx) && IsDraw(d.ry)
  }

  /** `generateDataPoint()`: both coordinates move from the previous point
      by less than one either way. The index is not used. */
  function GenerateDataPoint(prev: Point, d: TraceDraws): (p: Point)
    ensures ValidDraws(d) <==> -1.0 <= p.x - prev.x < 1.0 && -1.0 <= p.y - prev.y < 1.0
  {
    Point(prev.x + Jitter(d.rx), prev.y + Jitter(d.ry))
  }

  /** The generator as a state-threading function: the state is the
      previous point, and `draws(i)` the draws of index `i`. */
  function Walk(draws: int -> TraceDraws): (Point, int) -> (Point, Point)
  {
    Emitting(Next(draws))
  }

  /** The next point from the previous one at index `i`. */
  function Next(draws: int -> TraceDraws): (Point, int) -> Point
  {
    (prev: Point, i: int) => GenerateDataPoint(prev, draws(i))
  }

  /** Within the square of half-width `n` around `center`. */
  predicate WithinSquare(center: Point, p: Point, n: nat)
  {
    -(n as real) <= p.x - center.x <= n as real && -(n as real) <= p.y - center.y <= n as real
  }

  /** After `n` steps from the point the generator holds (the origin for a
      fresh generator, the last point of the previous run afterwards) the
      walk is within `n` of it in each coordinate. */
  lemma {:induction false} WalkBounded(draws: int -> TraceDraws, start: Point, n: nat)
    requires forall i :: ValidDraws(draws(i))
    ensures WithinSquare(start, Produce(Walk(draws), start, 0, n).0, n)
  {
    if n > 0 {
      WalkBounded(draws, start, n - 1);
      var prev := Produce(Walk(draws), start, 0, n - 1).0;
      StateIsLastOutput(Next(draws), start, 0, n, n);
      EmittingPoint(Next(draws), start, 0, n, n - 1);
      assert Next(draws)(prev, n - 1) == GenerateDataPoint(prev, draws(n - 1));
    }
  }

  /** Every point of a run is within one step of the point before it (the
      point the generator held, for the first) and within `k + 1` of that
      starting point. */
  lemma RunSteps(draws: int -> TraceDraws, start: Point, n: nat, k: nat)
    requires k < n
    requires forall i :: ValidDraws(draws(i))
    ensures var run := Produce(Walk(draws), start, 0, n).1;
      var before := if k == 0 then start else run[k - 1];
      && -1.0 <= run[k].x - before.x < 1.0 && -1.0 <= run[k].y - before.y < 1.0
      && WithinSquare(start, run[k], k + 1)
  {
    var prev := Produce(Walk(draws), start, 0, k).0;
    EmittingPoint(Next(draws), start, 0, n, k);
    assert Next(draws)(prev, k) == GenerateDataPoint(prev, draws(k));
    if k > 0 {
      StateIsLastOutput(Next(draws), start, 0, n, k);
    }
    StateIsLastOutput(Next(draws), start, 0, n, k + 1);
    WalkBounded(draws, start, k + 1);
  }

  /** `infiniteReset` is `AddLast`. On the first run of a fresh generator,
      which starts at the origin, it re-attaches the data at its last
      point: the first copied point lies one step of the walk away from
      it, as if the walk went on. */
  lemma ResetContinuesWalk(draws: int -> TraceDraws, n: nat)
    requires n > 0
    requires forall i :: ValidDraws(draws(i))
    ensures var run := Produce(Walk(draws), Origin, 0, n).1;
      var first := AddLast(run[0], run).value;
      -1.0 <= first.x - run[n - 1].x < 1.0 && -1.0 <= first.y - run[n - 1].y < 1.0
  {
    RunSteps(draws, Origin, n, 0);
  }
}
