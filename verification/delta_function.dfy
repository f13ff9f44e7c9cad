/** The delta function generator of src/generators/deltaFunction.ts: an
    immutable options record with one setter per option, and a generator
    called once per index that remembers the last spike. */
module DeltaFunction {
  import opened Common
  import opened Scheduler
  import opened SpikeRule

  datatype DeltaFunctionOptions = DeltaFunctionOptions(
    numberOfPoints: int,
    minGap: int,
    maxGap: int,
    minAmplitude: real,
    maxAmplitude: real,
    probability: real)

  /** `createDeltaFunctionGenerator`'s options. */
  const Defaults := DeltaFunctionOptions(1000, 1, -1, 0.1, 1.0, 0.02)

  function SetNumberOfPoints(o: DeltaFunctionOptions, numberOfPoints: int): (r: DeltaFunctionOptions)
    ensures r.numberOfPoints == numberOfPoints
    ensures r.(numberOfPoints := o.numberOfPoints) == o
  {
    o.(numberOfPoints := numberOfPoints)
  }

  function SetMinGap(o: DeltaFunctionOptions, minGap: int): (r: DeltaFunctionOptions)
    ensures r.minGap == minGap
    ensures r.(minGap := o.minGap) == o
  {
    o.(minGap := minGap)
  }

  function SetMaxGap(o: DeltaFunctionOptions, maxGap: int): (r: DeltaFunctionOptions)
    ensures r.maxGap == maxGap
    ensures r.(maxGap := o.maxGap) == o
  {
    o.(maxGap := maxGap)
  }

  function SetMinAmplitude(o: DeltaFunctionOptions, minAmplitude: real): (r: DeltaFunctionOptions)
    ensures r.minAmplitude == minAmplitude
    ensures r.(minAmplitude := o.minAmplitude) == o
  {
    o.(minAmplitude := minAmplitude)
  }

  function SetMaxAmplitude(o: DeltaFunctionOptions, maxAmplitude: real): (r: DeltaFunctionOptions)
    ensures r.maxAmplitude == maxAmplitude
    ensures r.(maxAmplitude := o.maxAmplitude) == o
  {
    o.(maxAmplitude := maxAmplitude)
  }

  function SetProbability(o: DeltaFunctionOptions, probability: real): (r: DeltaFunctionOptions)
    ensures r.probability == probability
    ensures r.(probability := o.probability) == o
  {
    o.(probability := probability)
  }

  function PointCount(o: DeltaFunctionOptions): (n: int)
    ensures n == o.numberOfPoints
  {
    o.numberOfPoints
  }

  /** Setting the point count is what `getPointCount` reports afterwards,
      and setting another option does not disturb it. */
  lemma PointCountAfterSetters(o: DeltaFunctionOptions, n: int, g: int, a: real, p: real)
    ensures PointCount(SetNumberOfPoints(o, n)) == n
    ensures PointCount(SetMinGap(SetMaxGap(SetMinAmplitude(SetMaxAmplitude(SetProbability(o, p), a), a), g), g)) == PointCount(o)
  {
  }

  function Settings(o: DeltaFunctionOptions): SpikeSettings
  {
    SpikeSettings(o.minGap, o.maxGap, o.minAmplitude, o.maxAmplitude, o.probability)
  }

  /** The generator starts with its last spike at index 0. */
  const InitialLastSpike := 0

  /** `generator(i)`: the point at x = i, flat or a spike, with the last
      spike moved to `i` exactly when a spike is produced. */
  function Generator(o: DeltaFunctionOptions, lastSpike: int, i: int, d: SpikeDraws): (r: SpikeStep)
    ensures r.point.x == i as real
    ensures r.lastSpike == lastSpike || r.lastSpike == i
    ensures r.point.y != 0.0 ==> r.lastSpike == i
    ensures IsDraw(d.height) && r.lastSpike == i && i != lastSpike ==>
      Min(o.minAmplitude, o.maxAmplitude) <= r.point.y <= Max(o.minAmplitude, o.maxAmplitude)
  {
    Step(Settings(o), lastSpike, i, d)
  }

  /** With the default options (minimum gap 1) no two neighbouring indices
      both spike: right after a spike the next index is flat. */
  lemma DefaultsNeverSpikeTwiceInARow(i: int, d: SpikeDraws)
    ensures Generator(Defaults, i, i + 1, d).point.y == 0.0
    ensures Generator(Defaults, i, i + 1, d).lastSpike == i
  {
    NoSpikeWithinMinGap(Settings(Defaults), i, i + 1, d);
  }

  /** `generate()` for this generator: the generic chunked run, with the
      last spike as the generator's state. */
  function Generate(o: DeltaFunctionOptions, draws: int -> SpikeDraws, budgets: seq<nat>): (r: (HostOptions, seq<HostCall<Point>>))
    ensures Flatten(Pushes(r.1)) <= Produce(Spiking(Settings(o), draws), InitialLastSpike, 0, Remaining(0, PointCount(o))).1
  {
    Scheduler.Generate(PointCount(o), Spiking(Settings(o), draws), InitialLastSpike, budgets)
  }

  /** Every point pushed to the host sits at x equal to its position in the
      generated data. */
  lemma PushedPointsOnIndexAxis(o: DeltaFunctionOptions, draws: int -> SpikeDraws, budgets: seq<nat>, k: nat)
    requires k < |Flatten(Pushes(Generate(o, draws, budgets).1))|
    ensures Flatten(Pushes(Generate(o, draws, budgets).1))[k].x == k as real
  {
    var all := Produce(Spiking(Settings(o), draws), InitialLastSpike, 0, Remaining(0, PointCount(o))).1;
    ProducePoint(Spiking(Settings(o), draws), InitialLastSpike, 0, Remaining(0, PointCount(o)), k);
    var before := Produce(Spiking(Settings(o), draws), InitialLastSpike, 0, k).0;
    assert all[k] == Step(Settings(o), before, k, draws(k)).point;
    assert Flatten(Pushes(Generate(o, draws, budgets).1))[k] == all[k];
  }

  /** Resetting a run of `n` spikes, whose points sit at x = 0 .. n-1,
      continues the axis at x = n .. 2n-1 with the same heights. */
  lemma ResetContinuesAxis(o: DeltaFunctionOptions, draws: int -> SpikeDraws, n: nat, k: nat)
    requires k < n
    ensures var run := Produce(Spiking(Settings(o), draws), InitialLastSpike, 0, n).1;
      ShiftByLength(run[k], run) == Point((n + k) as real, run[k].y)
  {
    var run := Produce(Spiking(Settings(o), draws), InitialLastSpike, 0, n).1;
    ProducePoint(Spiking(Settings(o), draws), InitialLastSpike, 0, n, k);
    var before := Produce(Spiking(Settings(o), draws), InitialLastSpike, 0, k).0;
    assert run[k] == Step(Settings(o), before, k, draws(k)).point;
  }

  /** The generator object: its options and `lastSpike`, a field that
      every `generate()` reads and updates and that nothing resets. */
  datatype DeltaFunctionGenerator = DeltaFunctionGenerator(options: DeltaFunctionOptions, lastSpike: int)

  function New(o: DeltaFunctionOptions): DeltaFunctionGenerator
  {
    DeltaFunctionGenerator(o, InitialLastSpike)
  }

  /** `generate()` as written: the run starts from the last spike the
      generator holds, and the generator keeps the last spike of the
      points that were pushed. */
  function GenerateAsWritten(g: DeltaFunctionGenerator, draws: int -> SpikeDraws, budgets: seq<nat>)
    : (r: (DeltaFunctionGenerator, HostOptions, seq<HostCall<Point>>))
    ensures r.0.options == g.options
    ensures Flatten(Pushes(r.2)) <= Produce(Spiking(Settings(g.options), draws), g.lastSpike, 0, Remaining(0, PointCount(g.options))).1
    ensures r.0.lastSpike == Produce(Spiking(Settings(g.options), draws), g.lastSpike, 0, |Flatten(Pushes(r.2))|).0
  {
    var host := Scheduler.Generate(PointCount(g.options), Spiking(Settings(g.options), draws), g.lastSpike, budgets);
    var m := |Flatten(Pushes(host.1))|;
    (g.(lastSpike := Produce(Spiking(Settings(g.options), draws), g.lastSpike, 0, m).0), host.0, host.1)
  }

  /** Random values with one high coin, at index `at`, and a mid-range
      height everywhere. */
  function HighCoinAt(at: int): int -> SpikeDraws
  {
    (i: int) => SpikeDraws(if i == at then 0.99 else 0.0, 0.5)
  }

  /** Options under which only the coin makes spikes, a coin of 0 never
      does and a coin of 0.99 always does past the minimum gap, and the
      minimum gap still leaves room before the second-to-last index. The
      defaults are such options. */
  predicate CoinDriven(o: DeltaFunctionOptions)
  {
    o.maxGap == -1 && 1 <= o.minGap < o.numberOfPoints - 2
    && 0.01 < o.probability <= 1.0
  }

  lemma DefaultsCoinDriven()
    ensures CoinDriven(Defaults)
  {
  }

  /** Under coin-driven options and the single high coin at an index `at`
      past the minimum gap, a run of `at + 2` points from the initial last
      spike spikes at `at` (height drawn at 0.5) and at no other index, so
      it ends with its last spike at `at`. */
  lemma RunSpikesOnce(o: DeltaFunctionOptions, at: nat)
    requires CoinDriven(o) && at > o.minGap
    ensures var run := Produce(Spiking(Settings(o), HighCoinAt(at)), InitialLastSpike, 0, at + 2);
      run.0 == at && run.1[at] == Point(at as real, SpikeHeight(Settings(o), 0.5))
  {
    var cfg, next := Settings(o), Spiking(Settings(o), HighCoinAt(at));
    QuietRun(cfg, HighCoinAt(at), InitialLastSpike, 0, at);
    ProduceSnoc(next, InitialLastSpike, 0, at);
    var upTo := Produce(next, InitialLastSpike, 0, at + 1);
    assert Spikes(cfg, InitialLastSpike, at, HighCoinAt(at)(at).coin);
    assert upTo.0 == at && upTo.1[at] == Point(at as real, SpikeHeight(cfg, 0.5));
    ProduceSnoc(next, InitialLastSpike, 0, at + 1);
    assert !Spikes(cfg, at, at + 1, HighCoinAt(at)(at + 1).coin);
  }

  /** A complete first `generate()` with the single high coin at the
      second-to-last index leaves the generator holding that index as its
      last spike. */
  lemma FirstRunHoldsSpike(o: DeltaFunctionOptions, b: seq<nat>)
    requires CoinDriven(o)
    requires forall i :: 0 <= i < |b| ==> b[i] >= 1
    requires |b| > PointCount(o)
    ensures GenerateAsWritten(New(o), HighCoinAt(PointCount(o) - 2), b).0.lastSpike == PointCount(o) - 2
  {
    var n := PointCount(o);
    ScheduleCompletes(Spiking(Settings(o), HighCoinAt(n - 2)), InitialLastSpike, 0, n, b);
    RunSpikesOnce(o, n - 2);
  }

  /** As written, a generator whose held last spike lies within the
      minimum gap of the last index pushes only flat points, whatever the
      random values, and keeps holding that spike: the run's indices start
      again at 0, so no index gets past the minimum gap. */
  lemma FlatWhileSpikeHeld(g: DeltaFunctionGenerator, draws: int -> SpikeDraws, b: seq<nat>)
    requires g.options.minGap != -1
    requires PointCount(g.options) - 1 - g.lastSpike <= g.options.minGap
    ensures var r := GenerateAsWritten(g, draws, b);
      && r.0.lastSpike == g.lastSpike
      && forall k :: 0 <= k < |Flatten(Pushes(r.2))| ==> Flatten(Pushes(r.2))[k] == Point(k as real, 0.0)
  {
    var cfg, n := Settings(g.options), Remaining(0, PointCount(g.options));
    var pushed := Flatten(Pushes(GenerateAsWritten(g, draws, b).2));
    if |pushed| > 0 {
      FlatWithinMinGap(cfg, draws, g.lastSpike, 0, n);
      FlatWithinMinGap(cfg, draws, g.lastSpike, 0, |pushed|);
      forall k | 0 <= k < |pushed|
        ensures pushed[k] == Point(k as real, 0.0)
      {
        assert pushed[k] == Produce(Spiking(cfg, draws), g.lastSpike, 0, n).1[k];
      }
    }
  }

  /** As written, after a first `generate()` that pushed all points with
      the single high coin at the second-to-last index, every later
      `generate()` pushes only flat points, whatever the random values. */
  lemma SecondRunFlatAsWritten(o: DeltaFunctionOptions, b1: seq<nat>, draws: int -> SpikeDraws, b2: seq<nat>)
    requires CoinDriven(o)
    requires forall i :: 0 <= i < |b1| ==> b1[i] >= 1
    requires |b1| > PointCount(o)
    ensures var g1 := GenerateAsWritten(New(o), HighCoinAt(PointCount(o) - 2), b1).0;
      var second := GenerateAsWritten(g1, draws, b2);
      && g1.lastSpike == PointCount(o) - 2
      && second.0.lastSpike == g1.lastSpike
      && forall k :: 0 <= k < |Flatten(Pushes(second.2))| ==> Flatten(Pushes(second.2))[k] == Point(k as real, 0.0)
  {
    FirstRunHoldsSpike(o, b1);
    FlatWhileSpikeHeld(GenerateAsWritten(New(o), HighCoinAt(PointCount(o) - 2), b1).0, draws, b2);
  }

  /** Every `generate()` that starts from the initial last spike, as the
      first run of a generator does, pushes all points and the spike at the
      high coin's index for the same random values, however often it is
      called. */
  lemma EveryRunSpikesAlike(o: DeltaFunctionOptions, b: seq<nat>)
    requires CoinDriven(o)
    requires forall i :: 0 <= i < |b| ==> b[i] >= 1
    requires |b| > PointCount(o)
    ensures var at := PointCount(o) - 2;
      var pushed := Flatten(Pushes(Generate(o, HighCoinAt(at), b).1));
      |pushed| == PointCount(o) && pushed[at] == Point(at as real, SpikeHeight(Settings(o), 0.5))
  {
    var n := PointCount(o);
    ScheduleCompletes(Spiking(Settings(o), HighCoinAt(n - 2)), InitialLastSpike, 0, n, b);
    RunSpikesOnce(o, n - 2);
  }
}
