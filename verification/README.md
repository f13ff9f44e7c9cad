# lcjs-analysis data generators in Dafny

This project models the core of lcjs-analysis. The library generates
example data for charts: random walks, white noise, spikes, OHLC candles,
sampled functions and replayed input. It also offers a small stream type
that hands the data to a consumer in batches, optionally forever.

The model has three layers.

- **The stream** (`src/stream.ts`). `StreamBuffer` models `consume` on
  plain sequences. `Streams` models the `Stream` object: `runStream`,
  `activateStream`, `push`, `map` and `forEach`. It is a value and not a
  timer-driven object, and every timer tick is an explicit `Tick`. The
  output stream `map` returns is the same object the mapping stream keeps
  pushing into. The model holds it in the mapping stream's `output` field,
  and a caller's `forEach`, `map` or timer tick on it is a `Call` made
  `OnOutput`, which changes that field in place. An
  infinite stream is described through its *unrolled* sequence: position
  `j` of the data, or the reset image of position `j - |data|`, and so on.
- **Hosts and the chunked scheduler** (`src/dataHost.ts`,
  `src/dataGenerator.ts`, `src/data-generator.ts`).
  - A generator is a state-threading function `(state, index) -> (state, point)`.
  - `Scheduler.Produce` runs it over consecutive indices.
  - `Scheduler.Schedule` is `generateChunks`. It cuts the run into chunks,
    where each chunk's 15 ms budget becomes a number of points.
  - Generators that remember something between points carry it as their
    state: the previous point (trace, progressive trace), the previous
    candle (OHLC), the last spike (delta function) or the next x
    (progressive function). The source keeps this state in instance
    fields that `generate()` never resets. A second call therefore
    continues from where the first stopped. The run lemmas are stated
    from any starting state: the initial one for a fresh generator, and
    the one the previous call left behind after that.
- **The generators** (`src/generators/*.ts` and `src/trading.ts`).
  - Each option record has its setters.
  - Each per-index generation rule has its reset rule for infinite streams.
  - Each has the properties the library's documentation promises: steps
    of at most one, values in [-1, 1), ordered candles, samples inside the
    requested range, and so on.

Random numbers are parameters. A draw is a real `r` with `0 <= r < 1`
(`Common.IsDraw`), and a generator receives its draws per index.

## Model

| member | source | states |
|---|---|---|
| Common.OrInt | src/stream.ts:39-43 | `value \|\| default` on numbers: an undefined option or 0 yields the default, any other value is kept |
| Common.OrReal | src/generators/sampledData.ts:53 | `value \|\| default` on reals: undefined or 0 falls back to the default, anything else is kept |
| Common.Lerp | src/generators/deltaFunction.ts:133 | a draw scaled into the amplitude range lies between the two amplitudes, below the upper one when they are ordered, and a zero draw gives the minimum amplitude |
| Common.Jitter | src/generators/whiteNoise.ts:56 | `(r - 0.5) * 2` lies in [-1, 1) exactly when `r` is a draw, and the draw can be recovered from it |
| Common.AddLast | src/generators/trace.ts:62-64 | the reset shared by trace and white noise is undefined on empty data; otherwise it moves a point by the last point's coordinates |
| Common.AddLastKeepsSteps | src/generators/trace.ts:62-64 | reset copies keep the step between neighbours, and the first copy lies one first-step away from the last point |
| Common.ShiftByLength | src/generators/delta.ts:55-57 | the reset of the index-axis generators (also deltaFunction.ts, progressiveTrace.ts and progressiveFunction.ts) moves x right by the data length and keeps y |
| Common.ShiftContinuesIndexAxis | src/generators/delta.ts:55-57 | data on x = 0 .. n-1 continues at x = n .. 2n-1 and the copies meet no x already in use |
| Common.Ceil | src/generators/progressiveFunction.ts:70 | `Math.ceil`: the least integer not below its argument |
| Common.Abs | src/generators/progressiveFunction.ts:70 | `Math.abs`: non-negative and equal to the argument up to sign |
| Common.Trunc | src/generators/progressiveRandom.ts:30 | truncation toward zero, bounded on both sides for either sign |
| Common.FMod | src/generators/progressiveRandom.ts:30 | JavaScript `%` on numbers: the dividend minus the remainder is the divisor times the quotient truncated toward zero; the remainder carries the dividend's sign and is smaller than the divisor's magnitude; a non-negative dividend below that magnitude is its own remainder |
| Common.MapSeq | src/stream.ts:65 | `Array.map`: same length, each element is the image of the element at the same position |
| Streams.Interval | src/stream.ts:39 | `options.interval \|\| 1000`: a missing or zero interval means 1000 ms, any other is kept, and the result is never 0 |
| Streams.BatchSize | src/stream.ts:43 | `options.batchSize \|\| 1`: a missing or zero batch size means 1, any other is kept, and the result is never 0 |
| Streams.NewStream | src/stream.ts:28-49 | a new stream keeps its options, is inactive, holds no data, has no handler and no output stream |
| StreamBuffer.Unrolled | src/stream.ts:63-73 | a window of the unrolled infinite sequence has the requested length and holds the unrolled elements at consecutive positions |
| StreamBuffer.UnrolledStart | src/stream.ts:63-65 | the first window of the unrolled sequence is the data itself, and the second is the data with every element reset |
| StreamBuffer.CutCount | src/stream.ts:59-62 | the cut takes the batch size, but never more than the data holds |
| StreamBuffer.Fill | src/stream.ts:66-73 | topping a short batch up to the batch size takes the next elements of the unrolled sequence, and the buffer becomes the window after them |
| StreamBuffer.Consume | src/stream.ts:58-77 | a finite consume splits the data into batch and rest with nothing lost; an infinite one keeps the buffer length |
| StreamBuffer.ConsumeFinite | src/stream.ts:59-63 | without `infinite` the batch is the first min(batch size, length) elements and the rest is what follows |
| StreamBuffer.ConsumeEmpty | src/stream.ts:63-64 | consuming empty data yields nothing and leaves nothing, even for an infinite stream |
| StreamBuffer.ConsumeInfinite | src/stream.ts:63-73 | an infinite consume yields the next batch-size elements of the unrolled sequence and leaves the window after them |
| StreamBuffer.ConsumeInfiniteLong | src/stream.ts:63-65 | when the data covers a batch, the batch is its prefix and the prefix's reset images go to the back of the buffer |
| StreamBuffer.ConsumeInfiniteShort | src/stream.ts:66-73 | when the data is shorter than a batch, the batch starts with all of it and continues with reset images of earlier batch elements, while the buffer keeps its length |
| StreamBuffer.ConsumeTimesFinite | src/stream.ts:58-77 | any number of finite consumes, concatenated with what is left, give back the original data |
| StreamBuffer.ConsumeTimesInfinite | src/stream.ts:58-77 | k infinite consumes yield the first k batches of the unrolled sequence, and the buffer is the window that follows |
| Streams.MapBatch | src/stream.ts:134 | the mapped batch has the batch's length, and element i is the handler applied to element i, its index and the whole batch |
| Streams.Tick | src/stream.ts:82-92 | with no data the stream goes inactive; with no handler nothing is consumed; otherwise one batch is consumed and handed on, and an infinite stream keeps its length |
| Streams.Activate | src/stream.ts:97-102 | an active stream is left alone; an inactive one becomes active and runs one tick at once |
| Streams.Push | src/stream.ts:108-111 | the new items go to the end of the data, and an inactive stream starts running |
| Streams.Map | src/stream.ts:118-124 | the stream gets the mapping handler and a fresh, finite output stream with its own options; an active stream only switches handler, an idle stream with data activates and forwards its first mapped batch at once, and an idle empty stream stays idle with an empty output |
| Streams.ForEach | src/stream.ts:143-147 | the handler observes the next batch at once when the stream was idle, and the output stream is left as it was |
| Streams.ApplyFinite | src/stream.ts:82-111 | on a finite forEach stream one event loses nothing: what was observed, then what is left, equals the old data plus any pushed items |
| Streams.FiniteDeliveryInOrder | src/stream.ts:82-111 | across any sequence of ticks and pushes, a finite forEach stream delivers every element once, in push order |
| Streams.InfiniteLengthInvariant | src/stream.ts:58-92 | an infinite stream's buffer only grows by what is pushed |
| Streams.TickTimesConsume | src/stream.ts:82-92 | k ticks of a forEach stream observe exactly what k consumes yield |
| Streams.InfiniteReplay | src/stream.ts:58-92 | an infinite forEach stream observes the unrolled sequence: the data, then its reset images, and so on, in order |
| Streams.MapTickForwards | src/stream.ts:132-137 | a tick of a mapping stream consumes one batch and pushes its image under the handler to the output stream, which keeps its handler and options; when the output is active or has no handler of its own, the image is appended to its data and nothing is observed |
| Streams.MapTickOnce | src/stream.ts:82-137 | one tick of a mapping stream whose output has no handler, with or without data, appends the consumed batch's image to the output, keeps both handlers and observes nothing |
| Streams.MapTickTimesShape | src/stream.ts:82-137 | k ticks of such a stream keep the map handler, the options and a handler-less output, leave the buffer k consumes leave, and observe nothing |
| Streams.MapTickTimes | src/stream.ts:82-137 | k ticks of a mapping stream whose output has no handler leave the buffer k consumes leave, and append to the output, in order, the mapped batches of those k consumes; nothing is observed |
| Streams.Perform | src/stream.ts:118-124 | a call made on the output stream `map` returned leaves the mapping stream's own buffer, flag, handler and options untouched and keeps its output stream in place |
| Streams.OnOutputActsInPlace | src/stream.ts:119-135 | the stream `map` returned and the one the mapping stream pushes into are one object: a call made on it through the mapping stream changes it exactly as the same call made on it directly |
| Streams.MapOneBatchIntoFreshOutput | src/stream.ts:108-111 | a push into a fresh output stream, which has no handler, buffers the items, keeps the stream running and observes nothing |
| Streams.MapStartsOutput | src/stream.ts:118-124 | `map` observes nothing and leaves a handler-less output that is running or empty; a running stream consumes nothing, an idle one hands its first batch's image to the output |
| Streams.ForEachOnStartedOutput | src/stream.ts:143-147 | `forEach` on the output `map` just made installs the handler, keeps the buffer and observes nothing yet |
| Streams.MapThenForEachSetup | src/stream.ts:118-147 | after `map` and `forEach` on the returned stream nothing is observed, and the output holds the images of what `map` consumed |
| Streams.ChainTickOnce | src/stream.ts:82-157 | one tick of either timer loses nothing: what the output's forEach handler observed, then the output's buffer, is its old buffer plus the image of what the mapping stream consumed |
| Streams.ChainDelivery | src/stream.ts:82-157 | across any interleaving of the two timers, the output's forEach handler receives the mapped batches of the mapping stream's consumes once each and in order |
| Streams.ChainStep | src/stream.ts:82-111 | one tick that consumed a batch or not, followed by n later consumes, adds up to the mapped batches of all of them in order, and leaves the buffer the consumes leave |
| Streams.ComposeChain | src/stream.ts:118-137 | the images `map` forwards when it starts, followed by those of later ticks, are the mapped batches of all consumes in order |
| Streams.MapThenForEach | src/stream.ts:118-157 | `map`, then `forEach` on the returned stream, then any interleaving of both timers: the handler observes the images of the mapping stream's batches in order, none twice, and the output buffers the rest |
| Streams.ForEachReplacesMap | src/stream.ts:143-146 | forEach after map replaces the mapping handler, so later ticks no longer feed the output stream |
| Streams.PushThenDrain | src/stream.ts:108-111 | worked example: pushing three items into an idle stream with batch size 2 delivers [1, 2] at once and [3] on the next tick, after which the stream goes idle |
| Scheduler.Produce | src/dataGenerator.ts:46-50 | a run over n consecutive indices yields n points |
| Scheduler.ProducePoint | src/dataGenerator.ts:46-50 | the point at position k of a run is the generator applied at index from + k to the state left after the first k points |
| Scheduler.ChunkSize | src/dataGenerator.ts:46 | a chunk takes at most its budget, never passes the total, and is empty once the total is reached |
| Scheduler.GenerateChunk | src/dataGenerator.ts:42-50 | the chunk loop advances the index by the chunk size without passing the total, and yields the run's points for those indices |
| Scheduler.Schedule | src/dataGenerator.ts:42-58 | every chunk pushes; a freeze, if there is one, is the last call |
| Scheduler.SchedulePrefix | src/dataGenerator.ts:42-58 | the pushed points are always a prefix of the full run, and the host is frozen exactly when all of it was pushed |
| Scheduler.ScheduleCompletes | src/dataGenerator.ts:42-58 | with enough budgets of at least one point each, every call but the last is a push, the last is a freeze, and the whole run is pushed in order |
| Scheduler.NothingToGenerate | src/dataGenerator.ts:46-56 | with nothing left to generate, one empty push is followed by a freeze |
| Scheduler.Generate | src/dataGenerator.ts:24-34 | `generate` makes a host with interval 500, batch size 10 and no repeat, and pushes a prefix of the run from index 0 |
| Scheduler.TwoChunks | src/dataGenerator.ts:42-58 | more points than one budget but at most two: the first chunk pushes one budget of points, the second the rest of the run, and the host is then frozen |
| DataHost.OverrideReset | src/dataHost.ts:35 | `{ ...options, infiniteReset }` keeps the caller's interval, batch size and infinite flag and always installs the host's reset |
| DataHost.OverrideForgetsReset | src/dataHost.ts:34-37 | two option records give the same stream settings exactly when they agree on everything but the reset |
| DataHost.ResetOffset | src/dataHost.ts:66 | `offset \|\| data.length`: a missing or zero offset means the data length |
| DataHost.InfiniteReset | src/dataHost.ts:65-68 | the reset keeps the length and y, and moves every x by the offset |
| DataHost.ResetUndo | src/dataHost.ts:65-68 | resetting by k and then by -k gives back the data |
| DataHost.ResetCompose | src/dataHost.ts:65-68 | two resets by a and b are one reset by a + b |
| DataHost.ResetContinuesAxis | src/dataHost.ts:65-68 | data on x = 0 .. n-1 resets to x = n .. 2n-1 |
| DataHost.HostResetMatchesGenerators | src/dataHost.ts:65-68 | the host's whole-data reset without an offset agrees point by point with the generators' per-point reset |
| DataHost.ToStream | src/dataHost.ts:34-37 | the stream is built over the host's own data, with the caller's settings and the host's reset |
| DataHost.ToPromise | src/dataHost.ts:43-45 | the promise resolves to the data the host stores |
| DataHost.SameDataEverywhere | src/dataHost.ts:29-45 | every stream and the promise share the same data, whatever options are passed |
| Trading.SimpleMovingAverage | src/trading.ts:10-32 | one average per full frame, none for short input; each is stamped with the frame's last x and is the mean of the frame's closes |
| Trading.ConstantFrameAverage | src/trading.ts:10-32 | the average of a constant close series is that constant |
| SpikeRule.SpikeHeight | src/generators/deltaFunction.ts:133 | a spike's height lies between the two amplitudes |
| SpikeRule.Step | src/generators/deltaFunction.ts:125-143 | the point sits at x = i; when the gap rules and the coin allow a spike it has a spike's height and becomes the last spike, and otherwise it is flat and the last spike is kept |
| SpikeRule.NoSpikeWithinMinGap | src/generators/deltaFunction.ts:128 | within the minimum gap of the last spike the point is flat, whatever the draws |
| SpikeRule.SpikeForcedAtMaxGap | src/generators/deltaFunction.ts:136-140 | past the minimum gap and at the maximum gap a spike is forced, whatever the coin |
| SpikeRule.CoinDecidesBetweenGaps | src/generators/deltaFunction.ts:129-135 | between the gaps a coin at or below 1 - probability gives a flat point |
| SpikeRule.GapNeverExceedsMax | src/generators/deltaFunction.ts:124-143 | in a run from the initial last spike with a maximum gap above the minimum, no index is further than the maximum gap from the last spike |
| SpikeRule.RunPoints | src/generators/deltaFunction.ts:124-143 | every generated point sits at its index and is flat or between the amplitudes |
| SpikeRule.FlatWithinMinGap | src/generators/deltaFunction.ts:126-128 | a run whose every index lies within the minimum gap of the last spike is flat at its indices and keeps the last spike |
| SpikeRule.QuietRun | src/generators/deltaFunction.ts:129-135 | with no maximum gap, a run whose coins all stay at or below 1 - probability keeps the last spike |
| DeltaFunction.SetNumberOfPoints | src/generators/deltaFunction.ts:73-75 | the count is replaced and every other option kept |
| DeltaFunction.SetMinGap | src/generators/deltaFunction.ts:81-83 | the minimum gap is replaced and every other option kept |
| DeltaFunction.SetMaxGap | src/generators/deltaFunction.ts:89-91 | the maximum gap is replaced and every other option kept |
| DeltaFunction.SetMinAmplitude | src/generators/deltaFunction.ts:97-99 | the minimum amplitude is replaced and every other option kept |
| DeltaFunction.SetMaxAmplitude | src/generators/deltaFunction.ts:105-107 | the maximum amplitude is replaced and every other option kept |
| DeltaFunction.SetProbability | src/generators/deltaFunction.ts:113-115 | the probability is replaced and every other option kept |
| DeltaFunction.PointCountAfterSetters | src/generators/deltaFunction.ts:120-122 | the count reported is the one last set, and other setters leave it alone |
| DeltaFunction.PointCount | src/generators/deltaFunction.ts:120-122 | `getPointCount` reports the stored count |
| DeltaFunction.Generator | src/generators/deltaFunction.ts:124-143 | the point sits at x = i, a non-zero point moves the last spike to i, and a fresh spike lies between the amplitudes |
| DeltaFunction.DefaultsNeverSpikeTwiceInARow | src/generators/deltaFunction.ts:38-47 | with the default options (minimum gap 1) the index right after a spike is flat |
| DeltaFunction.Generate | src/generators/deltaFunction.ts:120-143 | the corrected `generate()`: the host receives a prefix of the spike run over the configured count, always from the initial last spike |
| DeltaFunction.PushedPointsOnIndexAxis | src/generators/deltaFunction.ts:127 | every pushed point sits at x equal to its position in the data |
| DeltaFunction.ResetContinuesAxis | src/generators/deltaFunction.ts:145-147 | the reset copy of point k of a run of n points sits at x = n + k with the same height |
| DeltaFunction.GenerateAsWritten | src/generators/deltaFunction.ts:124-143 | `generate()` as written: the pushes are a prefix of the spike run from the last spike the generator holds, and afterwards it holds the last spike of the pushed points |
| DeltaFunction.DefaultsCoinDriven | src/generators/deltaFunction.ts:38-47 | the default options spike only by the coin (no maximum gap, probability 0.02) with a minimum gap of 1 well below the count |
| DeltaFunction.RunSpikesOnce | src/generators/deltaFunction.ts:124-143 | under coin-driven options with one high coin at an index `at` past the minimum gap, a run from the initial last spike spikes at `at` and ends holding `at` |
| DeltaFunction.FirstRunHoldsSpike | src/generators/deltaFunction.ts:124 | as written, a complete first `generate()` whose only high coin is at the second-to-last index leaves the generator holding that index |
| DeltaFunction.FlatWhileSpikeHeld | src/generators/deltaFunction.ts:124-128 | as written, a generator holding a last spike within the minimum gap of its last index pushes only flat points and keeps that spike, whatever the random values |
| DeltaFunction.SecondRunFlatAsWritten | src/generators/deltaFunction.ts:124 | as written, after a first complete run whose only spike is at the second-to-last index, every later `generate()` pushes only flat points, whatever the random values |
| DeltaFunction.EveryRunSpikesAlike | src/generators/deltaFunction.ts:124-143 | the corrected `generate()` from the initial last spike pushes every point and spikes at the high coin's index, however often it is repeated |
| Delta.SetNumberOfPoints | src/generators/delta.ts:21-23 | the count is set; other stored options are kept, and with none stored only the count is given |
| Delta.Count | src/generators/delta.ts:27 | `numberOfPoints \|\| 10000`: a missing or zero count means 10000, any other is kept |
| Delta.ClampMin | src/generators/delta.ts:28 | the clamped minimum amplitude lies in [0, 1]: values inside are unchanged, values below become 0 and values above become 1 |
| Delta.ClampMax | src/generators/delta.ts:29 | the clamped maximum amplitude lies in [0, 1]: values inside are unchanged, values below become 0 and values above become 1 |
| Delta.Resolve | src/generators/delta.ts:27-32 | a given amplitude is its clamp (`ClampMin` for the minimum, `ClampMax` for the maximum), a missing one defaults to 0.3 and 1; gaps default to -1 and probability to 0.02 |
| Delta.Generator | src/generators/delta.ts:25-53 | the loop yields one point per index below the count (none for a non-positive count), the same points as the spike rule run from index 0 |
| Delta.DataWithinUnitRange | src/generators/delta.ts:28-49 | whatever the options, every point sits at its index with a value in [0, 1] |
| Delta.GapsBounded | src/generators/delta.ts:34-49 | with a maximum gap above the minimum, spikes are never further apart than the maximum gap |
| Ohlc.SetNumberOfPoints | src/generators/OHLC.ts:57-59 | the count is replaced and every other option kept |
| Ohlc.SetStartTimestamp | src/generators/OHLC.ts:65-67 | the start timestamp is replaced and every other option kept |
| Ohlc.SetDataFrequency | src/generators/OHLC.ts:73-75 | the frequency is replaced and every other option kept |
| Ohlc.SetStart | src/generators/OHLC.ts:81-83 | the start value is replaced and every other option kept |
| Ohlc.SetVolatility | src/generators/OHLC.ts:90-92 | the volatility is replaced and every other option kept |
| Ohlc.PointCount | src/generators/OHLC.ts:97-99 | `getPointCount` reports the stored count |
| Ohlc.PointCountAfterSetter | src/generators/OHLC.ts:57-59 | the count reported is the one last set, and setting the current count changes nothing |
| Ohlc.InitialCandle | src/generators/OHLC.ts:101 | the seed candle is flat at the start value, stamped with the start timestamp, and has no negative price exactly when the start is non-negative |
| Ohlc.Insert | src/generators/OHLC.ts:114 | inserting into a sorted sequence keeps it sorted and adds exactly the new value |
| Ohlc.SortAscending | src/generators/OHLC.ts:114 | the ascending numeric sort yields a sorted permutation of its input |
| Ohlc.Direction | src/generators/OHLC.ts:106 | the candle rises (1) exactly when its direction draw exceeds one half, and falls (-1) otherwise |
| Ohlc.MoveBounds | src/generators/OHLC.ts:107-113 | every price lies within the volatility of the previous close, and a non-negative close never gives a negative price |
| Ohlc.Move | src/generators/OHLC.ts:107-113 | a move adds `r * volatility * dir` to the previous close unless that would go below zero, in which case it subtracts it; from a non-negative close the move is never negative |
| Ohlc.Moves | src/generators/OHLC.ts:107-114 | four prices per candle, one per slot of `Array(4)`, slot `j` moved from the previous close by draw `r_j` in the candle's common direction; none negative from a non-negative close |
| Ohlc.Candle | src/generators/OHLC.ts:114-119 | low, open, close and high are the sorted prices in that order for an up candle, with open and close swapped for a down one |
| Ohlc.CandleOrder | src/generators/OHLC.ts:116-119 | low is at most open and close, which are at most high; an up candle closes at or above its open, a down candle at or below |
| Ohlc.CandlePrices | src/generators/OHLC.ts:107-119 | the candle's four values are exactly the four drawn prices |
| Ohlc.GenerateDataPoint | src/generators/OHLC.ts:102-121 | the candle at index i is stamped start + frequency * i |
| Ohlc.GeneratedCandleShape | src/generators/OHLC.ts:102-121 | every generated candle is well ordered, agrees with its direction, and uses exactly the drawn prices |
| Ohlc.CandleNearPreviousClose | src/generators/OHLC.ts:107-113 | all four values of a candle lie within the volatility of the previous close |
| Ohlc.RunStaysNonNegative | src/generators/OHLC.ts:101-121 | from any candle without a negative price (the seed for a fresh generator, the previous call's last candle after), the remembered previous candle never gets a negative price |
| Ohlc.RunCandleIs | src/generators/OHLC.ts:101-121 | candle k of a run from any starting candle is generated from the candle before it, so each candle opens from the previous close |
| Ohlc.RunTimestamps | src/generators/OHLC.ts:104 | candle k of a run is stamped start + frequency * k, whatever candle the run starts from |
| Ohlc.RunCandlesNonNegative | src/generators/OHLC.ts:109-113 | from any candle without a negative price, no generated candle has a negative price |
| Ohlc.InfiniteReset | src/generators/OHLC.ts:124-134 | the reset needs two candles to read the spacing, and changes only the timestamp |
| Ohlc.ResetContinuesTime | src/generators/OHLC.ts:124-134 | evenly stamped candles reset to the stamps that continue the series |
| SampledData.SetInputData | src/generators/sampledData.ts:68-70 | the input is replaced and every other option kept |
| SampledData.SetSamplingFrequency | src/generators/sampledData.ts:76-78 | the frequency is replaced and every other option kept |
| SampledData.SetStep | src/generators/sampledData.ts:84-86 | the step is replaced and every other option kept |
| SampledData.Interval | src/generators/sampledData.ts:53 | the interval is the reciprocal of the frequency, or 1/10 when the frequency is 0 |
| SampledData.PointCount | src/generators/sampledData.ts:91-93 | `getPointCount` is the number of input entries |
| SampledData.Timestamp | src/generators/sampledData.ts:97 | stamps are evenly spaced by interval + step, starting at 0 |
| SampledData.GenerateDataPoint | src/generators/sampledData.ts:95-101 | sample i carries stamp i's time and input entry i, or nothing past the input |
| SampledData.TimestampsIncrease | src/generators/sampledData.ts:97 | with a positive spacing, later samples carry strictly later stamps |
| SampledData.RunReplaysInput | src/generators/sampledData.ts:91-101 | a full run replays the input in order, entry k at stamp k |
| SampledData.InfiniteReset | src/generators/sampledData.ts:103-105 | the reset leaves a sample as it is |
| SampledData.InfiniteStreamPeriodic | src/generators/sampledData.ts:103-105 | an infinite stream over the samples repeats them lap after lap |
| ProgressiveFunction.New | src/generators/progressiveFunction.ts:52-53 | a fresh generator keeps its options and samples from the start |
| ProgressiveFunction.Defaults | src/generators/progressiveFunction.ts:30-37 | the default generator samples x * x from 0 to 100 in steps of 1 |
| ProgressiveFunction.SetSamplingFunction | src/generators/progressiveFunction.ts:76-78 | a fresh generator with the function replaced, other options kept, sampling from the start |
| ProgressiveFunction.SetStart | src/generators/progressiveFunction.ts:83-85 | a fresh generator with the start replaced, other options kept, sampling from the new start |
| ProgressiveFunction.SetEnd | src/generators/progressiveFunction.ts:90-92 | a fresh generator with the end replaced, other options kept, sampling from the start |
| ProgressiveFunction.SetStep | src/generators/progressiveFunction.ts:97-99 | a fresh generator with the step replaced, other options kept, sampling from the start |
| ProgressiveFunction.PointCount | src/generators/progressiveFunction.ts:70 | the count is finite exactly for a non-zero step, and is then the ceiling of the range over the step; a zero step over an empty range is not a number |
| ProgressiveFunction.Sampler | src/generators/progressiveFunction.ts:107-113 | each point samples the function at the current x, and x advances by one step |
| ProgressiveFunction.RunAdvances | src/generators/progressiveFunction.ts:107-113 | after n points the sampler's x has moved n steps |
| ProgressiveFunction.RunPoint | src/generators/progressiveFunction.ts:107-113 | point k of a run samples the function at k steps past where the run started |
| ProgressiveFunction.GenerateAsWritten | src/generators/progressiveFunction.ts:107-113 | a generate call pushes a prefix of the run from the generator's current x, and leaves x advanced by one step per pushed point |
| ProgressiveFunction.Generate | src/generators/progressiveFunction.ts:52-53 | the corrected `generate()` of the "## Findings" row, which restarts at `start`: each call pushes a prefix of the run from the start |
| ProgressiveFunction.SamplesWithinRange | src/generators/progressiveFunction.ts:26-29 | for a positive step and an increasing range, every pushed point lies in [start, end) and carries f(x) |
| ProgressiveFunction.RunsAgree | src/dataGenerator.ts:19-24 | for the corrected `generate()`, which restarts at `start`, two calls push the same points wherever both reach; as written, a second call samples past the end (`SecondRunStartsPastEnd`) |
| ProgressiveFunction.SecondRunStartsPastEnd | src/generators/progressiveFunction.ts:53 | with the counter kept between calls, a second complete generate samples only at x at or past the end |
| ProgressiveFunction.ResetContinuesAxisIffUnitStep | src/generators/progressiveFunction.ts:115-117 | the reset continues the sampled axis exactly when the step is 1 |
| ProgressiveTrace.PointCountAfterSetter | src/generators/progressiveTrace.ts:42-51 | the count reported is the one last set, and setting the current count changes nothing |
| ProgressiveTrace.SetNumberOfPoints | src/generators/progressiveTrace.ts:42-44 | the count is replaced and every other option kept |
| ProgressiveTrace.PointCount | src/generators/progressiveTrace.ts:49-51 | `getPointCount` reports the stored count |
| ProgressiveTrace.GenerateDataPoint | src/generators/progressiveTrace.ts:54-61 | the point sits at x = i, and its y-step from the previous point is in [-1, 1) exactly when the draw is valid |
| ProgressiveTrace.RunSteps | src/generators/progressiveTrace.ts:53-61 | point k of a run sits at x = k, and its y is within one step of the point before it, or of the point the run starts from (the origin for a fresh generator, the previous call's last point after) |
| ProgressiveTrace.ResetContinuesRun | src/generators/progressiveTrace.ts:63-65 | reset data continues the index axis and keeps every y-step |
| Trace.PointCountAfterSetter | src/generators/trace.ts:41-50 | the count reported is the one last set, and setting the current count changes nothing |
| Trace.SetNumberOfPoints | src/generators/trace.ts:41-43 | the count is replaced and every other option kept |
| Trace.PointCount | src/generators/trace.ts:48-50 | `getPointCount` reports the stored count |
| Trace.GenerateDataPoint | src/generators/trace.ts:53-60 | both coordinates move by less than one, by at least -1, exactly when the draws are valid |
| Trace.WalkBounded | src/generators/trace.ts:52-60 | after n steps the walk is within the square of half-width n around the point it started from (the origin for a fresh generator, the previous call's last point after) |
| Trace.RunSteps | src/generators/trace.ts:52-60 | each point of a run is within one step of the point before it (the starting point for the first) and within the square of its step count around the starting point |
| Trace.ResetContinuesWalk | src/generators/trace.ts:62-64 | on the first run of a fresh generator, from the origin, a reset resumes the walk within one step of where it stopped |
| WhiteNoise.SetNumberOfPoints | src/generators/whiteNoise.ts:42-44 | the count is set; other stored options are kept |
| WhiteNoise.PointCount | src/generators/whiteNoise.ts:49-51 | `getPointCount` reports the stored count |
| WhiteNoise.PointCountAfterSetter | src/generators/whiteNoise.ts:42-51 | the count reported is the one last set, with or without earlier options, and setting the current count changes nothing |
| WhiteNoise.Generator | src/generators/whiteNoise.ts:53-59 | the point sits at x = i, with y in [-1, 1) exactly when the draw is valid |
| WhiteNoise.RunPoint | src/generators/whiteNoise.ts:53-59 | point k of a run sits at x = k with y in [-1, 1) |
| WhiteNoise.PointsIndependent | src/generators/whiteNoise.ts:53-59 | a point depends only on its own draw, not on earlier ones or on the run length |
| WhiteNoise.ResetAsWrittenRepeatsLastIndex | src/generators/whiteNoise.ts:61-63 | the reset as written puts the first copied point on the last point's x |
| WhiteNoise.ResetAsWrittenLeavesRange | src/generators/whiteNoise.ts:61-63 | the reset as written takes y out of [-1, 1) for a concrete two-point input |
| WhiteNoise.ResetContinuesNoise | src/generators/whiteNoise.ts:61-63 | with the corrected reset, noise on x = 0 .. n-1 continues at x = n .. 2n-1, meets no old x, and stays in [-1, 1) |
| ProgressiveRandom.RandomStep | src/generators/progressiveRandom.ts:22 | `randomStep \|\| 250`: a missing or zero period means 250, any other is kept, and the result is never 0 |
| ProgressiveRandom.Step | src/generators/progressiveRandom.ts:23 | `step \|\| 1`: a missing or zero step means 1, any other is kept, and the result is never 0 |
| ProgressiveRandom.Count | src/generators/progressiveRandom.ts:21 | `numberOfPoints \|\| 10000`: a missing or zero count means 10000, any other is kept |
| ProgressiveRandom.LastRedraw | src/generators/progressiveRandom.ts:27-28 | the level in force at index i was drawn at a multiple of the period not after i, and at i itself exactly when i is a multiple |
| ProgressiveRandom.LastRedrawIsLatest | src/generators/progressiveRandom.ts:27-28 | no index after the last redraw and up to i is a multiple of the period |
| ProgressiveRandom.LevelKept | src/generators/progressiveRandom.ts:27-28 | between multiples of the period the level is not redrawn |
| ProgressiveRandom.CurStepIsMultiple | src/generators/progressiveRandom.ts:25-33 | at index i the running step is step * (i + 1), never 0 |
| ProgressiveRandom.PointAt | src/generators/progressiveRandom.ts:29-32 | with valid draws x lies in the upper half of the running step (within half a unit below it for a step of at least 1), and y, the mean of two draws, lies in [0, 1) |
| ProgressiveRandom.Series | src/generators/progressiveRandom.ts:26-34 | the series has one point per index below the count, none for a non-positive count |
| ProgressiveRandom.Generator | src/generators/progressiveRandom.ts:19-36 | the loop produces exactly the series |
| ProgressiveRandom.SeriesWithinUnitRange | src/generators/progressiveRandom.ts:31 | every y, the mean of two draws, lies in [0, 1) |
| ProgressiveRandom.SeriesNearCurStep | src/generators/progressiveRandom.ts:30 | for a step of at least 1, every x lies within half a unit below the running step |
| RandomBase.ArgsOrEmpty | src/data-generator.ts:7 | `args \|\| {}`: missing arguments mean no options set |
| RandomBase.New | src/data-generator.ts:6-8 | the generator's promise holds the series for its arguments |
| RandomBase.ToPromise | src/data-generator.ts:14-16 | the promise resolves to the data the constructor produced |
| RandomBase.DefaultSeries | src/data-generator.ts:37-54 | with no arguments there are 10000 points, point k with x in (k + 0.5, k + 1] and y in [0, 1) |

## Left out

- Timers and the clock. `setTimeout` becomes explicit `Tick` and chunk
  steps. The 15 ms `Date.now()` budget of `generateChunks` becomes a
  sequence of per-chunk point budgets, one natural number per chunk.
- Promises. A promise is modelled by the value it resolves to.
- The distribution of `Math.random`. Draws are parameters, and the model
  only relies on 0 <= r < 1 where a property needs it.
- IEEE-754 arithmetic. Numbers are exact reals: no rounding, no NaN or
  infinity, no overflow. `1 / f`, `Math.ceil(Math.abs(..) / step)` and
  `x + step` are exact.
- Trading.SimpleMovingAverage: requires a frame of at least 2. With a
  frame of 1 the source shifts `undefined` out of an empty buffer, which
  makes the running sum NaN from the second point on; the model has no NaN.
- ProgressiveFunction.PointCount: a zero step over a non-empty range
  divides by zero and yields Infinity. The scheduler then never stops, so
  it is modelled as a count larger than all given budgets. NaN (a zero
  step over an empty range) compares false and pushes nothing, so the
  host is frozen empty.
- The demo call at src/generators/progressiveFunction.ts:39-46 runs at
  module load and prints. It is a side effect, not a library operation.
- The source files belong to different revisions, and some wiring does
  not line up. The model takes each file on its own terms:
  - `DataGenerator.generate` (src/dataGenerator.ts:25-29) constructs a
    `DataHost` from the generator's binary per-point reset
    `infiniteReset(dataToReset, data)` (line 81) and stream options. The
    `DataHost` class in src/dataHost.ts takes only the data promise and
    defines its own whole-data reset `infiniteReset(data, offset)`. The
    model keeps both resets and proves them equal without an offset
    (`DataHost.HostResetMatchesGenerators`).
  - `dataGenerator.ts` calls `dataHost.push` and `dataHost.freeze`, which
    `dataHost.ts` does not define. These calls are modelled as the
    host-call log `Scheduler.HostCall`.
  - `new Stream(data, options)` is called with two arguments, but the
    constructor takes one.
  - whiteNoise.ts and deltaFunction.ts name their per-index hook
    `generator` rather than `generateDataPoint`. It is modelled as the
    per-index hook the scheduler calls.
  - `toStream` in src/data-generator.ts:10-12 passes the data promise as
    the new stream's only constructor argument, which is its options
    object. The stream then has no data, no reset and no interval or
    batch size of its own. This is not the request `DataHost.ToStream`
    makes, and it is not modelled.
- SampledData.GenerateDataPoint: an index past the input reads
  `undefined` in the source, and the model returns `None` there.
- ProgressiveRandom.RandomStep: `randomStep` is modelled as an integer.
  For a fractional period p, `i % p === 0` holds at the integers that are
  multiples of p: every integer for 0.5, every fifth for 2.5. The model
  does not cover such periods.
- Integer options: `batchSize`, `numberOfPoints`, `minGap`, `maxGap` and
  the moving-average `frame` are modelled as integers. The source accepts
  any number, and fractions behave differently there: `splice(0, 2.5)`
  takes 2 elements, and `i < 2.5` admits 3 indices.
- StreamBuffer.Fill: appends each reset element as one element.
  src/stream.ts:71 appends it with `concat`, which spreads an array-valued
  element. An OHLC tuple `[x, o, h, l, c]` therefore becomes five numbers
  in the buffer. The model treats every element as opaque and does not
  reproduce the spreading.
- Streams.ChainDelivery: states delivery for one mapping stream feeding
  one forEach output, across interleavings of the two timers only.
  `Perform` also models longer chains of `map` calls, pushes into either
  stream, and `forEach` or `map` calls made later on the output, but no
  lemma follows delivery through them: a push adds elements that are not
  images of the mapping stream's batches, and a later `forEach` or `map`
  replaces the handler the statement is about.
- Streams.ForEach: the forEach handler's side effects are modelled as the
  batches it observes, not as calls of an arbitrary callback.
- The `index.ts` barrel, `datastructures.ts` (its types are
  `Common.Point` and `Common.XOHLC`), the build script and the test suite
  are not part of this model.

## Findings

| source | as written | input that shows it | evidently intended | confidence | as-written member | corrected member |
|---|---|---|---|---|---|---|
| src/generators/progressiveFunction.ts:53 | the sampling position `x` is a field set once from `start` and advanced by every `generateDataPoint`; `generate()` never resets it | the default generator (x * x on [0, 100), step 1): a first complete `generate()` leaves x at 100, so a second `generate()` samples x = 100 .. 199, outside the range | every `generate()` samples from `start`, as the class documentation and `DataGenerator.generate` ("unique data" per host) promise | medium; not executed | ProgressiveFunction.SecondRunStartsPastEnd | ProgressiveFunction.SamplesWithinRange |
| src/generators/whiteNoise.ts:61-63 | the infinite reset adds the last point's x and y to each point, a rule copied from the trace generator | data [(0, 0.5), (1, 0.75)] resets to [(1, 1.25), (2, 1.5)]: x = 1 repeats and y leaves [-1, 1) | move x right by the data length and keep y, as the other index-axis generators do (`Common.ShiftByLength`) | medium; not executed | WhiteNoise.ResetAsWrittenLeavesRange | WhiteNoise.ResetContinuesNoise |
| src/generators/deltaFunction.ts:124 | `lastSpike` is an instance field, set to 0 once and moved by every spike; `generate()` never resets it, while the indices of each run start again at 0 | the default generator (1000 points, minimum gap 1) whose first complete run has its only high coin at index 998: the first run ends holding 998 as its last spike, and in every later run `i - lastSpike` is at most 1, never above the minimum gap, so no point spikes whatever the random values | every `generate()` starts from a last spike of 0 and spikes as the first run does (the lemmas cover all options like the defaults, `DeltaFunction.DefaultsCoinDriven`) | medium; not executed | DeltaFunction.SecondRunFlatAsWritten | DeltaFunction.EveryRunSpikesAlike |
