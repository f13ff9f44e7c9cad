/** The spike rule shared by the two delta-function generators
    (src/generators/deltaFunction.ts and src/generators/delta.ts): flat
    data at y = 0 with spikes that respect a minimum and a maximum gap. */
module SpikeRule {
  import opened Common
  import opened Scheduler

  /** The settings the rule reads. A gap of -1 disables that bound. */
  datatype SpikeSettings = SpikeSettings(
    minGap: int,
    maxGap: int,
    minAmplitude: real,
    maxAmplitude: real,
    probability: real)

  /** The random values one index may use: the coin deciding a random spike
      and the draw setting the spike's height. */
  datatype SpikeDraws = SpikeDraws(coin: real, height: real)

  /** What one index produces: the index of the last spike afterwards and
      the point. */
  datatype SpikeStep = SpikeStep(lastSpike: int, point: Point)

  /** The height of a spike, `r * (max - min) + min`: between the two
      amplitudes, and below the maximum when the minimum is smaller. */
  function SpikeHeight(cfg: SpikeSettings, r: real): (y: real)
    ensures IsDraw(r) ==> Min(cfg.minAmplitude, cfg.maxAmplitude) <= y <= Max(cfg.minAmplitude, cfg.maxAmplitude)
    ensures IsDraw(r) && cfg.minAmplitude < cfg.maxAmplitude ==> cfg.minAmplitude <= y < cfg.maxAmplitude
    ensures r == 0.0 ==> y == cfg.minAmplitude
  {
    Lerp(r, cfg.minAmplitude, cfg.maxAmplitude)
  }

  /** Whether index `i` spikes, stated flat: enough points have passed since
      the last spike (or the minimum gap is off), and either the maximum gap
      is reached or the coin exceeds `1 - probability`. */
  predicate Spikes(cfg: SpikeSettings, lastSpike: int, i: int, coin: real)
  {
    var sinceLast := i - lastSpike;
    (sinceLast > cfg.minGap || cfg.minGap == -1)
    && ((cfg.maxGap != -1 && sinceLast >= cfg.maxGap) || coin > 1.0 - cfg.probability)
  }

  /** One call of the generator for index `i`: the point is at x = i; when
      the rule fires its y is a spike height and the last spike moves to
      `i`, otherwise y is 0 and the last spike stays. */
  function Step(cfg: SpikeSettings, lastSpike: int, i: int, d: SpikeDraws): (r: SpikeStep)
    ensures r.point.x == i as real
    ensures Spikes(cfg, lastSpike, i, d.coin) ==>
      r.lastSpike == i && r.point.y == SpikeHeight(cfg, d.height)
    ensures !Spikes(cfg, lastSpike, i, d.coin) ==>
      r == SpikeStep(lastSpike, Point(i as real, 0.0))
  {
    var sinceLast := i - lastSpike;
    var flat := SpikeStep(lastSpike, Point(i as real, 0.0));
    var spike := SpikeStep(i, Point(i as real, SpikeHeight(cfg, d.height)));
    if sinceLast > cfg.minGap || cfg.minGap == -1 then
      if sinceLast < cfg.maxGap || cfg.maxGap == -1 then
        if d.coin > 1.0 - cfg.probability then spike else flat
      else if sinceLast >= cfg.maxGap then spike
      else flat
    else flat
  }

  /** No spike comes within the minimum gap of the last one. */
  lemma NoSpikeWithinMinGap(cfg: SpikeSettings, lastSpike: int, i: int, d: SpikeDraws)
    requires cfg.minGap != -1 && i - lastSpike <= cfg.minGap
    ensures Step(cfg, lastSpike, i, d) == SpikeStep(lastSpike, Point(i as real, 0.0))
  {
  }

  /** Once the maximum gap is reached a spike is forced, whatever the coin. */
  lemma SpikeForcedAtMaxGap(cfg: SpikeSettings, lastSpike: int, i: int, d: SpikeDraws)
    requires i - lastSpike > cfg.minGap || cfg.minGap == -1
    requires cfg.maxGap != -1 && i - lastSpike >= cfg.maxGap
    ensures Step(cfg, lastSpike, i, d) == SpikeStep(i, Point(i as real, SpikeHeight(cfg, d.height)))
  {
  }

  /** Between the gaps the coin alone decides. */
  lemma CoinDecidesBetweenGaps(cfg: SpikeSettings, lastSpike: int, i: int, d: SpikeDraws)
    requires i - lastSpike > cfg.minGap || cfg.minGap == -1
    requires i - lastSpike < cfg.maxGap || cfg.maxGap == -1
    ensures Step(cfg, lastSpike, i, d).lastSpike == i || d.coin <= 1.0 - cfg.probability
    ensures d.coin <= 1.0 - cfg.probability ==> Step(cfg, lastSpike, i, d).point.y == 0.0
  {
  }

  /** The generator as a state-threading function: the state is the index
      of the last spike, and `draws(i)` the random values of index `i`. */
  function Spiking(cfg: SpikeSettings, draws: int -> SpikeDraws): (int, int) -> (int, Point)
  {
    (lastSpike: int, i: int) =>
      var r := Step(cfg, lastSpike, i, draws(i));
      (r.lastSpike, r.point)
  }

  /** The index of the last spike before index `n` of a run from 0. */
  function LastSpikeBefore(cfg: SpikeSettings, draws: int -> SpikeDraws, n: nat): int
  {
    Produce(Spiking(cfg, draws), 0, 0, n).0
  }

  /** With a maximum gap of at least one above the minimum, the distance
      from any index to the last spike before it never exceeds the maximum
      gap, and the last spike never lies ahead. */
  lemma {:induction false} GapNeverExceedsMax(cfg: SpikeSettings, draws: int -> SpikeDraws, n: nat)
    requires cfg.maxGap >= 1
    requires cfg.minGap == -1 || cfg.minGap < cfg.maxGap
    ensures 0 <= LastSpikeBefore(cfg, draws, n) <= n
    ensures n - LastSpikeBefore(cfg, draws, n) <= cfg.maxGap
  {
    if n > 0 {
      GapNeverExceedsMax(cfg, draws, n - 1);
      ProduceSnoc(Spiking(cfg, draws), 0, 0, n - 1);
      var last := LastSpikeBefore(cfg, draws, n - 1);
      assert LastSpikeBefore(cfg, draws, n) == Step(cfg, last, n - 1, draws(n - 1)).lastSpike;
      if n - 1 - last == cfg.maxGap {
        SpikeForcedAtMaxGap(cfg, last, n - 1, draws(n - 1));
      }
    }
  }

  /** Every point of a run sits at its index, and is either flat or a spike
      whose height lies between the amplitudes. */
  lemma RunPoints(cfg: SpikeSettings, draws: int -> SpikeDraws, n: nat, k: nat)
    requires k < n
    requires IsDraw(draws(k).height)
    ensures var p := Produce(Spiking(cfg, draws), 0, 0, n).1[k];
      p.x == k as real
      && (p.y == 0.0 || Min(cfg.minAmplitude, cfg.maxAmplitude) <= p.y <= Max(cfg.minAmplitude, cfg.maxAmplitude))
  {
    ProducePoint(Spiking(cfg, draws), 0, 0, n, k);
  }

  /** A run in which every index stays within the minimum gap of the last
      spike it starts from is flat: each point lies at its index with y = 0,
      and the last spike does not move. */
  lemma {:induction false} FlatWithinMinGap(cfg: SpikeSettings, draws: int -> SpikeDraws, lastSpike: int, from: int, n: nat)
    requires cfg.minGap != -1 && from + n - 1 - lastSpike <= cfg.minGap
    ensures Produce(Spiking(cfg, draws), lastSpike, from, n).0 == lastSpike
    ensures forall k :: 0 <= k < n ==> Produce(Spiking(cfg, draws), lastSpike, from, n).1[k] == Point((from + k) as real, 0.0)
    decreases n
  {
    if n > 0 {
      FlatWithinMinGap(cfg, draws, lastSpike, from, n - 1);
      ProduceSnoc(Spiking(cfg, draws), lastSpike, from, n - 1);
      NoSpikeWithinMinGap(cfg, lastSpike, from + n - 1, draws(from + n - 1));
    }
  }

  /** Without a maximum gap, a run whose coins all stay at or below
      `1 - probability` never spikes, so the last spike does not move. */
  lemma {:induction false} QuietRun(cfg: SpikeSettings, draws: int -> SpikeDraws, lastSpike: int, from: int, n: nat)
    requires cfg.maxGap == -1
    requires forall k :: from <= k < from + n ==> draws(k).coin <= 1.0 - cfg.probability
    ensures Produce(Spiking(cfg, draws), lastSpike, from, n).0 == lastSpike
    decreases n
  {
    if n > 0 {
      QuietRun(cfg, draws, lastSpike, from, n - 1);
      ProduceSnoc(Spiking(cfg, draws), lastSpike, from, n - 1);
      assert !Spikes(cfg, lastSpike, from + n - 1, draws(from + n - 1).coin);
    }
  }
}
