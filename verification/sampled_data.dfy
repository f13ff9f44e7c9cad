/** The sampled data generator of src/generators/sampledData.ts: it replays
    a given input array, stamping entry `i` with `i * interval + i * step`
    where the interval is one over the sampling frequency. */
module SampledData {
  import opened Common
  import opened Scheduler
  import opened StreamBuffer

  datatype SampledDataOptions<T> = SampledDataOptions(inputData: seq<T>, samplingFrequency: real, step: real)

  /** A sample: its timestamp and the input entry, or nothing where the
      index lies past the input and the source reads `undefined`. */
  datatype SampledPoint<T> = SampledPoint(timestamp: real, data: Option<T>)

  /** `createSampledDataGenerator`'s options. */
  function Defaults<T>(): SampledDataOptions<T>
  {
    SampledDataOptions([], 50.0, 0.0)
  }

  function SetInputData<T>(o: SampledDataOptions<T>, inputData: seq<T>): (r: SampledDataOptions<T>)
    ensures r.inputData == inputData
    ensures r.(inputData := o.inputData) == o
  {
    o.(inputData := inputData)
  }

  function SetSamplingFrequency<T>(o: SampledDataOptions<T>, samplingFrequency: real): (r: SampledDataOptions<T>)
    ensures r.samplingFrequency == samplingFrequency
    ensures r.(samplingFrequency := o.samplingFrequency) == o
  {
    o.(samplingFrequency := samplingFrequency)
  }

  function SetStep<T>(o: SampledDataOptions<T>, step: real): (r: SampledDataOptions<T>)
    ensures r.step == step
    ensures r.(step := o.step) == o
  {
    o.(step := step)
  }

  /** `getPointCount`: one point per input entry. */
  function PointCount<T>(o: SampledDataOptions<T>): (n: nat)
    ensures n == |o.inputData|
  {
    |o.inputData|
  }

  /** `1 / (samplingFrequency || 10)`: the time between samples, with a
      zero frequency falling back to 10 samples per unit. */
  function Interval<T>(o: SampledDataOptions<T>): (iv: real)
    ensures o.samplingFrequency == 0.0 ==> iv == 1.0 / 10.0
    ensures o.samplingFrequency != 0.0 ==> iv * o.samplingFrequency == 1.0
  {
    1.0 / OrReal(Some(o.samplingFrequency), 10.0)
  }

  /** The stamp of index `i`: `i * interval + i * step`, so the stamps are
      evenly spaced by `interval + step`, starting at 0. */
  function Timestamp<T>(o: SampledDataOptions<T>, i: int): (t: real)
    ensures t == i as real * (Interval(o) + o.step)
    ensures i == 0 ==> t == 0.0
  {
    i as real * Interval(o) + i as real * o.step
  }

  /** `generateDataPoint(i)`: the stamp of index `i` and input entry `i`. */
  function GenerateDataPoint<T>(o: SampledDataOptions<T>, i: int): (p: SampledPoint<T>)
    ensures p.timestamp == Timestamp(o, i)
    ensures 0 <= i < |o.inputData| ==> p.data == Some(o.inputData[i])
    ensures !(0 <= i < |o.inputData|) ==> p.data.None?
  {
    SampledPoint(Timestamp(o, i), if 0 <= i < |o.inputData| then Some(o.inputData[i]) else None)
  }

  /** When the interval and step add up to a positive spacing, later
      samples carry strictly later stamps. */
  lemma TimestampsIncrease<T>(o: SampledDataOptions<T>, i: int, j: int)
    requires Interval(o) + o.step > 0.0
    requires i < j
    ensures Timestamp(o, i) < Timestamp(o, j)
  {
    var spacing := Interval(o) + o.step;
    assert Timestamp(o, i) == i as real * spacing;
    assert Timestamp(o, j) == j as real * spacing;
    assert (j - i) as real * spacing > 0.0;
  }

  /** The generator as a state-threading function; it keeps no state. */
  function Sampling<T>(o: SampledDataOptions<T>): ((), int) -> ((), SampledPoint<T>)
  {
    (u: (), i: int) => ((), GenerateDataPoint(o, i))
  }

  /** A full run replays the input in order, entry `k` at the stamp of
      index `k`. */
  lemma RunReplaysInput<T>(o: SampledDataOptions<T>, k: nat)
    requires k < PointCount(o)
    ensures Produce(Sampling(o), (), 0, PointCount(o)).1[k] == SampledPoint(Timestamp(o, k), Some(o.inputData[k]))
  {
    ProducePoint(Sampling(o), (), 0, PointCount(o), k);
  }

  /** `infiniteReset`: the sample unchanged. */
  function InfiniteReset<T>(p: SampledPoint<T>, data: seq<SampledPoint<T>>): (r: SampledPoint<T>)
    ensures r.timestamp == p.timestamp && r.data == p.data
  {
    p
  }

  /** With this reset an infinite stream over the samples is periodic:
      the position one lap further on holds the same sample, so the stream
      replays the data unchanged lap after lap. */
  lemma InfiniteStreamPeriodic<T>(data: seq<SampledPoint<T>>, j: nat)
    requires |data| > 0
    ensures Ext(data, (p: SampledPoint<T>) => InfiniteReset(p, data), j + |data|)
      == Ext(data, (p: SampledPoint<T>) => InfiniteReset(p, data), j)
  {
  }
}
