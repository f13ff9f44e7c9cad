/** The base data generator of src/data-generator.ts: the constructor runs
    the generator once with the given arguments (or `{}`) and keeps the
    data, which `toPromise` hands out. Its progressive random subclass has
    the same loop as src/generators/progressiveRandom.ts, modelled once in
    `ProgressiveRandom`. */
module RandomBase {
  import opened Common
  import opened ProgressiveRandom

  /** A constructed generator: the data its constructor produced. */
  datatype RandomDataGenerator = RandomDataGenerator(data: seq<Point>)

  /** `args || {}`: absent arguments become the empty record. */
  function ArgsOrEmpty(args: Option<ProgressiveRandomArgs>): (a: ProgressiveRandomArgs)
    ensures args.None? ==> a == NoArgs
    ensures args.Some? ==> a == args.value
  {
    args.GetOr(NoArgs)
  }

  /** `toPromise`: the stored data, unchanged. */
  function ToPromise(g: RandomDataGenerator): (data: seq<Point>)
    ensures data == g.data
  {
    g.data
  }

  /** The constructor: the promised data is the series for the arguments. */
  method New(args: Option<ProgressiveRandomArgs>, d: RandomDraws) returns (g: RandomDataGenerator)
    ensures ToPromise(g) == Series(ArgsOrEmpty(args), d)
  {
    var data := Generator(ArgsOrEmpty(args), d);
    g := RandomDataGenerator(data);
  }

  /** Without arguments a generator holds 10000 points, point `k` with x in
      (k + 0.5, k + 1] and y in [0, 1). */
  lemma DefaultSeries(d: RandomDraws, k: nat)
    requires ValidDraws(d)
    requires k < 10000
    ensures |Series(ArgsOrEmpty(None), d)| == 10000
    ensures var p := Series(ArgsOrEmpty(None), d)[k];
      (k as real) + 0.5 < p.x <= (k + 1) as real && 0.0 <= p.y < 1.0
  {
    var args := ArgsOrEmpty(None);
    SeriesNearCurStep(args, d, k);
    SeriesWithinUnitRange(args, d, k);
    CurStepIsMultiple(args, k);
  }
}
