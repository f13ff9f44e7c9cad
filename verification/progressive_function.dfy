/** The progressive function generator of src/generators/progressiveFunction.ts:
    it samples a user function at `start`, `start + step`, ... and reports
    `ceil(|end - start| / step)` points. The generator object keeps the
    next x to sample in a field that only `generateDataPoint` moves. */
module ProgressiveFunction {
  import opened Common
  import opened Scheduler

  datatype ProgressiveFunctionOptions = ProgressiveFunctionOptions(
    samplingFunction: real -> real,
    start: real,
    end: real,
    step: real)

  /** A generator object: its frozen options and the x it samples next. */
  datatype ProgressiveFunctionGenerator = ProgressiveFunctionGenerator(options: ProgressiveFunctionOptions, x: real)

  /** The constructor: sampling starts at `start`. */
  function New(o: ProgressiveFunctionOptions): (g: ProgressiveFunctionGenerator)
    ensures g.options == o && g.x == o.start
  {
    ProgressiveFunctionGenerator(o, o.start)
  }

  /** `createProgressiveFunctionGenerator`: x squared over [0, 100] with
      step 1. */
  function Defaults(): (o: ProgressiveFunctionOptions)
    ensures o.start == 0.0 && o.end == 100.0 && o.step == 1.0
    ensures forall x :: o.samplingFunction(x) == x * x
  {
    ProgressiveFunctionOptions(x => x * x, 0.0, 100.0, 1.0)
  }

  /** The setters build a new generator from the changed options, so the
      result samples from its own start again. */
  function SetSamplingFunction(g: ProgressiveFunctionGenerator, f: real -> real): (r: ProgressiveFunctionGenerator)
    ensures r.options.samplingFunction == f
    ensures r.options.(samplingFunction := g.options.samplingFunction) == g.options
    ensures r.x == g.options.start
  {
    New(g.options.(samplingFunction := f))
  }

  function SetStart(g: ProgressiveFunctionGenerator, start: real): (r: ProgressiveFunctionGenerator)
    ensures r.options.start == start
    ensures r.options.(start := g.options.start) == g.options
    ensures r.x == start
  {
    New(g.options.(start := start))
  }

  function SetEnd(g: ProgressiveFunctionGenerator, end: real): (r: ProgressiveFunctionGenerator)
    ensures r.options.end == end
    ensures r.options.(end := g.options.end) == g.options
    ensures r.x == g.options.start
  {
    New(g.options.(end := end))
  }

  function SetStep(g: ProgressiveFunctionGenerator, step: real): (r: ProgressiveFunctionGenerator)
    ensures r.options.step == step
    ensures r.options.(step := g.options.step) == g.options
    ensures r.x == g.options.start
  {
    New(g.options.(step := step))
  }

  /** The number `Math.ceil(Math.abs(end - start) / step)`: a finite
      integer, or, for a zero step, Infinity (distinct ends) or NaN (equal
      ends). */
  datatype PointTotal = Finite(n: int) | Infinite | NotANumber

  /** `getPointCount`. */
  function PointCount(o: ProgressiveFunctionOptions): (c: PointTotal)
    ensures o.step != 0.0 <==> c.Finite?
    ensures c.Finite? ==> c.n as real >= Abs(o.end - o.start) / o.step > c.n as real - 1.0
    ensures c.NotANumber? <==> o.step == 0.0 && o.end == o.start
  {
    if o.step != 0.0 then Finite(Ceil(Abs(o.end - o.start) / o.step))
    else if o.end != o.start then Infinite
    else NotANumber
  }

  function SumOf(budgets: seq<nat>): nat
  {
    if |budgets| == 0 then 0 else budgets[0] + SumOf(budgets[1..])
  }

  /** The `total` the chunks compare against. `i < Infinity` always holds,
      so with an infinite count no chunk of the given budgets ever reaches
      it; `i < NaN` never holds, so a NaN count behaves like zero. */
  function Total(c: PointTotal, budgets: seq<nat>): int
  {
    match c
    case Finite(n) => n
    case Infinite => SumOf(budgets) + 1
    case NotANumber => 0
  }

  /** `generateDataPoint()`: the point `(x, f(x))`, with x moved on by one
      step. The index argument is not used. */
  function Sampler(o: ProgressiveFunctionOptions): (next: (real, int) -> (real, Point))
    ensures forall x: real, i: int :: next(x, i).0 == x + o.step
    ensures forall x: real, i: int :: next(x, i).1 == Point(x, o.samplingFunction(x))
  {
    (x: real, i: int) => (x + o.step, Point(x, o.samplingFunction(x)))
  }

  /** After `n` points from `x0` the next x is `n` steps further on. */
  lemma {:induction false} RunAdvances(o: ProgressiveFunctionOptions, x0: real, from: int, n: nat)
    ensures Produce(Sampler(o), x0, from, n).0 == Stamp(x0, o.step, n)
  {
    if n > 0 {
      RunAdvances(o, x0, from, n - 1);
      ProduceSnoc(Sampler(o), x0, from, n - 1);
      assert o.step * (n - 1) as real + o.step == o.step * n as real;
    }
  }

  /** Point `k` of a run from `x0` samples the function at `x0 + k * step`. */
  lemma RunPoint(o: ProgressiveFunctionOptions, x0: real, from: int, n: nat, k: nat)
    requires k < n
    ensures var x := Stamp(x0, o.step, k);
      Produce(Sampler(o), x0, from, n).1[k] == Point(x, o.samplingFunction(x))
  {
    ProducePoint(Sampler(o), x0, from, n, k);
    RunAdvances(o, x0, from, k);
  }

  /** `generate()` as written: the run continues from the generator's
      current x and leaves the generator's x after the last point pushed. */
  function GenerateAsWritten(g: ProgressiveFunctionGenerator, budgets: seq<nat>)
    : (r: (ProgressiveFunctionGenerator, HostOptions, seq<HostCall<Point>>))
    ensures r.0.options == g.options
    ensures r.0.x == Stamp(g.x, g.options.step, |Flatten(Pushes(r.2))|)
    ensures Flatten(Pushes(r.2)) <= Produce(Sampler(g.options), g.x, 0, Remaining(0, Total(PointCount(g.options), budgets))).1
  {
    var host := Scheduler.Generate(Total(PointCount(g.options), budgets), Sampler(g.options), g.x, budgets);
    var m := |Flatten(Pushes(host.1))|;
    RunAdvances(g.options, g.x, 0, m);
    (g.(x := Produce(Sampler(g.options), g.x, 0, m).0), host.0, host.1)
  }

  /** `generate()` with every run sampling from `start`, which is how the
      generator is described: the function sampled across its x range. */
  function Generate(o: ProgressiveFunctionOptions, budgets: seq<nat>): (r: (HostOptions, seq<HostCall<Point>>))
    ensures Flatten(Pushes(r.1)) <= Produce(Sampler(o), o.start, 0, Remaining(0, Total(PointCount(o), budgets))).1
  {
    Scheduler.Generate(Total(PointCount(o), budgets), Sampler(o), o.start, budgets)
  }

  /** For a positive step and `start < end`, index `k` below the count
      lies in [start, end). */
  lemma IndexWithinRange(o: ProgressiveFunctionOptions, k: nat)
    requires o.step > 0.0 && o.start < o.end
    requires k < PointCount(o).n
    ensures o.start <= Stamp(o.start, o.step, k) < o.end
  {
    var q := (o.end - o.start) / o.step;
    assert k as real < q;
    assert q * o.step == o.end - o.start;
    assert (q - k as real) * o.step > 0.0;
  }

  /** For a positive step and `start < end`, index `n + k` at or past the
      count lies at or past `end`. */
  lemma IndexPastRange(o: ProgressiveFunctionOptions, k: nat)
    requires o.step > 0.0 && o.start < o.end
    ensures o.end <= Stamp(o.start, o.step, PointCount(o).n + k)
  {
    var q := (o.end - o.start) / o.step;
    var i := PointCount(o).n + k;
    assert i as real >= q;
    assert q * o.step == o.end - o.start;
    assert (i as real - q) * o.step >= 0.0;
  }

  /** Every pushed point samples the function inside [start, end) when the
      step is positive and the range not empty. */
  lemma SamplesWithinRange(o: ProgressiveFunctionOptions, budgets: seq<nat>, k: nat)
    requires o.step > 0.0 && o.start < o.end
    requires k < |Flatten(Pushes(Generate(o, budgets).1))|
    ensures var p := Flatten(Pushes(Generate(o, budgets).1))[k];
      o.start <= p.x < o.end && p.y == o.samplingFunction(p.x)
  {
    var n := Remaining(0, Total(PointCount(o), budgets));
    RunPoint(o, o.start, 0, n, k);
    IndexWithinRange(o, k);
  }

  /** Two runs of the generator push the same points, whatever the
      budgets, as far as both get. */
  lemma RunsAgree(o: ProgressiveFunctionOptions, b1: seq<nat>, b2: seq<nat>, k: nat)
    requires k < |Flatten(Pushes(Generate(o, b1).1))| && k < |Flatten(Pushes(Generate(o, b2).1))|
    ensures Flatten(Pushes(Generate(o, b1).1))[k] == Flatten(Pushes(Generate(o, b2).1))[k]
  {
    RunPoint(o, o.start, 0, Remaining(0, Total(PointCount(o), b1)), k);
    RunPoint(o, o.start, 0, Remaining(0, Total(PointCount(o), b2)), k);
  }

  /** As written, once a first `generate()` has pushed every point, a
      second `generate()` on the same generator samples only at or past
      `end`: the x field is never put back to `start`. */
  lemma SecondRunStartsPastEnd(o: ProgressiveFunctionOptions, b1: seq<nat>, b2: seq<nat>)
    requires o.step > 0.0 && o.start < o.end
    requires forall i :: 0 <= i < |b1| ==> b1[i] >= 1
    requires |b1| > PointCount(o).n
    requires |b2| > 0 && b2[0] >= 1
    ensures var g1 := GenerateAsWritten(New(o), b1).0;
      var second := Flatten(Pushes(GenerateAsWritten(g1, b2).2));
      |second| > 0 && forall k :: 0 <= k < |second| ==> o.end <= second[k].x
  {
    var n := PointCount(o).n;
    assert n >= 1;
    var first := GenerateAsWritten(New(o), b1);
    ScheduleCompletes(Sampler(o), o.start, 0, n, b1);
    assert |Flatten(Pushes(first.2))| == n;
    var g1 := first.0;
    assert g1.x == Stamp(o.start, o.step, n);
    var calls := Schedule(Sampler(o), g1.x, 0, n, b2);
    var chunk := ChunkSize(0, n, b2[0]);
    assert chunk >= 1;
    SchedulePrefix(Sampler(o), g1.x, 0, n, b2);
    if chunk < n {
      PushInFront(Produce(Sampler(o), g1.x, 0, chunk).1, Schedule(Sampler(o), Produce(Sampler(o), g1.x, 0, chunk).0, chunk, n, b2[1..]));
    } else {
      LastChunk(Produce(Sampler(o), g1.x, 0, chunk).1);
    }
    var second := Flatten(Pushes(calls));
    assert |second| > 0;
    forall k | 0 <= k < |second|
      ensures o.end <= second[k].x
    {
      RunPoint(o, g1.x, 0, n, k);
      StampShift(o.start, o.step, n, k);
      IndexPastRange(o, k);
    }
  }

  /** `k` steps on from term `n` is term `n + k`. */
  lemma StampShift(t0: real, d: real, n: int, k: int)
    ensures Stamp(Stamp(t0, d, n), d, k) == Stamp(t0, d, n + k)
  {
    assert d * (n + k) as real == d * n as real + d * k as real;
  }

  /** On a run's data the reset continues the sampled x axis (point `k`
      moving to the position of index `n + k`) exactly when the step is 1. */
  lemma ResetContinuesAxisIffUnitStep(o: ProgressiveFunctionOptions, data: seq<Point>, k: nat)
    requires k < |data|
    requires forall i :: 0 <= i < |data| ==> data[i].x == Stamp(o.start, o.step, i)
    ensures ShiftByLength(data[k], data).x == Stamp(o.start, o.step, |data| + k) <==> o.step == 1.0
  {
    var x := data[k].x;
    assert x == Stamp(o.start, o.step, k);
    StampShift(o.start, o.step, k, |data|);
    assert k + |data| == |data| + k;
    MovedByLengthIffUnit(x, o.step, |data| as real,
      ShiftByLength(data[k], data).x, Stamp(o.start, o.step, |data| + k));
  }

  /** Moving `x` by `n` lands where `n` steps of size `step` do exactly
      when the step is 1. */
  lemma MovedByLengthIffUnit(x: real, step: real, n: real, shifted: real, target: real)
    requires n > 0.0 && shifted == x + n && target == x + step * n
    ensures shifted == target <==> step == 1.0
  {
    ScaleFixesIffUnit(step, n);
  }

  /** Scaling a positive number leaves it unchanged only by a factor of 1. */
  lemma ScaleFixesIffUnit(s: real, n: real)
    requires n > 0.0
    ensures s * n == n <==> s == 1.0
  {
    assert s * n - n == (s - 1.0) * n;
    if s > 1.0 {
      assert (s - 1.0) * n > 0.0;
    } else if s < 1.0 {
      assert (1.0 - s) * n > 0.0;
    }
  }
}
