/** The older delta function generator of src/generators/delta.ts: every
    option is optional, the generator resolves defaults and clamps the
    amplitudes into [0, 1], then produces all points in one loop. */
module Delta {
  import opened Common
  import opened Scheduler
  import opened SpikeRule

  /** `DeltaFunctionOptions` of this file: every field may be undefined. */
  datatype DeltaArgs = DeltaArgs(
    numberOfPoints: Option<int>,
    minGap: Option<int>,
    maxGap: Option<int>,
    minAmplitude: Option<real>,
    maxAmplitude: Option<real>,
    probability: Option<real>)

  const NoArgs := DeltaArgs(None, None, None, None, None, None)

  /** `setNumberOfPoints`: the stored options with the count replaced, or
      only the count when there are no stored options. */
  function SetNumberOfPoints(options: Option<DeltaArgs>, numberOfPoints: int): (r: DeltaArgs)
    ensures r.numberOfPoints == Some(numberOfPoints)
    ensures options.Some? ==> r.(numberOfPoints := options.value.numberOfPoints) == options.value
    ensures options.None? ==> r.(numberOfPoints := None) == NoArgs
  {
    match options
    case Some(given) => given.(numberOfPoints := Some(numberOfPoints))
    case None => NoArgs.(numberOfPoints := Some(numberOfPoints))
  }

  /** `numberOfPoints || 10000`. */
  function Count(args: DeltaArgs): (n: int)
    ensures args.numberOfPoints.None? || args.numberOfPoints == Some(0) ==> n == 10000
    ensures args.numberOfPoints.Some? && args.numberOfPoints.value != 0 ==> n == args.numberOfPoints.value
  {
    OrInt(args.numberOfPoints, 10000)
  }

  /** `min(max(a, 0), 1)`, the minimum amplitude's clamp. */
  function ClampMin(a: real): (c: real)
    ensures 0.0 <= c <= 1.0
    ensures 0.0 <= a <= 1.0 ==> c == a
    ensures a < 0.0 ==> c == 0.0
    ensures a > 1.0 ==> c == 1.0
  {
    var lifted := if a >= 0.0 then a else 0.0;
    if lifted <= 1.0 then lifted else 1.0
  }

  /** `max(min(a, 1), 0)`, the maximum amplitude's clamp. */
  function ClampMax(a: real): (c: real)
    ensures 0.0 <= c <= 1.0
    ensures 0.0 <= a <= 1.0 ==> c == a
    ensures a < 0.0 ==> c == 0.0
    ensures a > 1.0 ==> c == 1.0
  {
    var lowered := if a <= 1.0 then a else 1.0;
    if lowered >= 0.0 then lowered else 0.0
  }

  /** The settings the loop runs with: given values (compared with
      undefined, so 0 counts as given), clamped amplitudes, and defaults
      minimum amplitude 0.3, maximum 1, no gaps, probability 0.02. */
  function Resolve(args: DeltaArgs): (cfg: SpikeSettings)
    ensures 0.0 <= cfg.minAmplitude <= 1.0 && 0.0 <= cfg.maxAmplitude <= 1.0
    ensures args.minAmplitude.None? ==> cfg.minAmplitude == 0.3
    ensures args.maxAmplitude.None? ==> cfg.maxAmplitude == 1.0
    ensures args.minAmplitude.Some? ==> cfg.minAmplitude == ClampMin(args.minAmplitude.value)
    ensures args.maxAmplitude.Some? ==> cfg.maxAmplitude == ClampMax(args.maxAmplitude.value)
    ensures cfg.minGap == args.minGap.GetOr(-1) && cfg.maxGap == args.maxGap.GetOr(-1)
    ensures cfg.probability == args.probability.GetOr(0.02)
  {
    SpikeSettings(
      args.minGap.GetOr(-1),
      args.maxGap.GetOr(-1),
      match args.minAmplitude case Some(a) => ClampMin(a) case None => 0.3,
      match args.maxAmplitude case Some(a) => ClampMax(a) case None => 1.0,
      args.probability.GetOr(0.02))
  }

  /** `generator(args)`: the loop, drawing `draws(i)` at index `i`. It
      yields the same points as the per-index generator run from index 0
      with no spike yet, one per index below the count. */
  method Generator(args: DeltaArgs, draws: int -> SpikeDraws) returns (data: seq<Point>)
    ensures |data| == if Count(args) > 0 then Count(args) else 0
    ensures data == Produce(Spiking(Resolve(args), draws), 0, 0, |data|).1
  {
    var cfg := Resolve(args);
    var numberOfPoints := Count(args);
    data := [];
    var lastSpike := 0;
    var i := 0;
    while i < numberOfPoints
      invariant 0 <= i && (if numberOfPoints > 0 then i <= numberOfPoints else i == 0)
      invariant (lastSpike, data) == Produce(Spiking(cfg, draws), 0, 0, i)
    {
      ProduceSnoc(Spiking(cfg, draws), 0, 0, i);
      var sinceLast := i - lastSpike;
      var value := Point(i as real, 0.0);
      if sinceLast > cfg.minGap || cfg.minGap == -1 {
        if sinceLast < cfg.maxGap || cfg.maxGap == -1 {
          var doSpike := draws(i).coin > 1.0 - cfg.probability;
          if doSpike {
            value := value.(y := SpikeHeight(cfg, draws(i).height));
            lastSpike := i;
          }
        } else if sinceLast >= cfg.maxGap {
          value := value.(y := SpikeHeight(cfg, draws(i).height));
          lastSpike := i;
        }
      }
      data := data + [value];
      i := i + 1;
    }
  }

  /** The data lies between 0 and 1, whatever the options: every point sits
      at its index, and a spike's height lies between the clamped
      amplitudes. */
  lemma DataWithinUnitRange(args: DeltaArgs, draws: int -> SpikeDraws, n: nat, k: nat)
    requires k < n
    requires IsDraw(draws(k).height)
    ensures var p := Produce(Spiking(Resolve(args), draws), 0, 0, n).1[k];
      p.x == k as real && 0.0 <= p.y <= 1.0
  {
    RunPoints(Resolve(args), draws, n, k);
  }

  /** With a maximum gap of at least one, set above the minimum gap, no
      index is ever further than the maximum gap from the last spike. */
  lemma GapsBounded(args: DeltaArgs, draws: int -> SpikeDraws, n: nat)
    requires args.maxGap.Some? && args.maxGap.value >= 1
    requires args.minGap.None? || args.minGap.value == -1 || args.minGap.value < args.maxGap.value
    ensures n - LastSpikeBefore(Resolve(args), draws, n) <= args.maxGap.value
  {
    GapNeverExceedsMax(Resolve(args), draws, n);
  }
}
