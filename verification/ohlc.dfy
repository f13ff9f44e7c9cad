/** The OHLC generator of src/generators/OHLC.ts: each candle is built
    from four random moves away from the previous close, sorted, and
    arranged so that a rising candle closes above its open and a falling
    one below it. */
module Ohlc {
  import opened Common
  import opened Scheduler

  datatype OhlcOptions = OhlcOptions(
    numberOfPoints: int,
    startTimestamp: real,
    dataFreq: real,
    start: real,
    volatility: real)

  /** `createOHLCGenerator`'s options. */
  const Defaults := OhlcOptions(1000, 0.0, 1.0, 100.0, 0.1)

  function SetNumberOfPoints(o: OhlcOptions, numberOfPoints: int): (r: OhlcOptions)
    ensures r.numberOfPoints == numberOfPoints
    ensures r.(numberOfPoints := o.numberOfPoints) == o
  {
    o.(numberOfPoints := numberOfPoints)
  }

  function SetStartTimestamp(o: OhlcOptions, startTimestamp: real): (r: OhlcOptions)
    ensures r.startTimestamp == startTimestamp
    ensures r.(startTimestamp := o.startTimestamp) == o
  {
    o.(startTimestamp := startTimestamp)
  }

  function SetDataFrequency(o: OhlcOptions, dataFreq: real): (r: OhlcOptions)
    ensures r.dataFreq == dataFreq
    ensures r.(dataFreq := o.dataFreq) == o
  {
    o.(dataFreq := dataFreq)
  }

  function SetStart(o: OhlcOptions, start: real): (r: OhlcOptions)
    ensures r.start == start
    ensures r.(start := o.start) == o
  {
    o.(start := start)
  }

  function SetVolatility(o: OhlcOptions, volatility: real): (r: OhlcOptions)
    ensures r.volatility == volatility
    ensures r.(volatility := o.volatility) == o
  {
    o.(volatility := volatility)
  }

  function PointCount(o: OhlcOptions): (n: int)
    ensures n == o.numberOfPoints
  {
    o.numberOfPoints
  }

  /** Setting the point count is what `getPointCount` reports afterwards. */
  lemma PointCountAfterSetter(o: OhlcOptions, n: int)
    ensures PointCount(SetNumberOfPoints(o, n)) == n
    ensures SetNumberOfPoints(o, PointCount(o)) == o
  {
  }

  /** The candle the generator starts from: every price at `start`. */
  function InitialCandle(o: OhlcOptions): (c: XOHLC)
    ensures c.x == o.startTimestamp
    ensures c.open == c.high == c.low == c.close == o.start
    ensures NonNegativePrices(c) <==> o.start >= 0.0
  {
    XOHLC(o.startTimestamp, o.start, o.start, o.start, o.start)
  }

  // Sorting the four moves ascending

  predicate Sorted(s: seq<real>)
  {
    forall i, j :: 0 <= i < j < |s| ==> s[i] <= s[j]
  }

  /** A value no greater than every element of a sorted sequence can lead it. */
  lemma SortedCons(a: real, s: seq<real>)
    requires Sorted(s)
    requires forall k :: 0 <= k < |s| ==> a <= s[k]
    ensures Sorted([a] + s)
  {
    var t := [a] + s;
    forall i, j | 0 <= i < j < |t|
      ensures t[i] <= t[j]
    {
      if i > 0 {
        assert t[i] == s[i - 1] && t[j] == s[j - 1];
      } else {
        assert t[j] == s[j - 1];
      }
    }
  }

  /** Every element of a sequence holding the elements of `s` and `x` is at
      least `a` when all of them are. */
  lemma LowerBoundCarries(a: real, x: real, s: seq<real>, r: seq<real>)
    requires multiset(r) == multiset(s) + multiset{x}
    requires a <= x
    requires forall k :: 0 <= k < |s| ==> a <= s[k]
    ensures forall k :: 0 <= k < |r| ==> a <= r[k]
  {
    forall k | 0 <= k < |r|
      ensures a <= r[k]
    {
      assert r[k] in multiset(r);
      if r[k] != x {
        assert r[k] in multiset(s);
        var j :| 0 <= j < |s| && s[j] == r[k];
      }
    }
  }

  function Insert(x: real, s: seq<real>): (r: seq<real>)
    requires Sorted(s)
    ensures |r| == |s| + 1
    ensures Sorted(r)
    ensures multiset(r) == multiset(s) + multiset{x}
  {
    if |s| == 0 then [x]
    else if x <= s[0] then
      SortedCons(x, s);
      [x] + s
    else
      var tail := s[1..];
      assert Sorted(tail);
      var rest := Insert(x, tail);
      LowerBoundCarries(s[0], x, tail, rest);
      SortedCons(s[0], rest);
      assert s == [s[0]] + tail;
      [s[0]] + rest
  }

  /** The moves ordered ascending, as `sort((a, b) => a - b)` leaves them. */
  function SortAscending(s: seq<real>): (r: seq<real>)
    ensures |r| == |s|
    ensures Sorted(r)
    ensures multiset(r) == multiset(s)
  {
    if |s| == 0 then []
    else
      assert s == [s[0]] + s[1..];
      Insert(s[0], SortAscending(s[1..]))
  }

  // One candle

  /** The draws of one candle: the direction draw and one draw per move. */
  datatype CandleDraws = CandleDraws(direction: real, r0: real, r1: real, r2: real, r3: real)

  predicate ValidDraws(d: CandleDraws)
  {
    IsDraw(d.direction) && IsDraw(d.r0) && IsDraw(d.r1) && IsDraw(d.r2) && IsDraw(d.r3)
  }

  /** `dir`: rising above one half, falling otherwise. */
  function Direction(d: CandleDraws): (dir: int)
    ensures dir == 1 || dir == -1
    ensures dir == 1 <==> d.direction > 0.5
  {
    if d.direction > 0.5 then 1 else -1
  }

  /** One move: `change = r * volatility * dir`, flipped when it would take
      the previous close below zero, added to the previous close. */
  function Move(prevClose: real, r: real, volatility: real, dir: int): (m: real)
    ensures var change := r * volatility * dir as real;
      prevClose + change >= 0.0 ==> m == prevClose + change
    ensures var change := r * volatility * dir as real;
      prevClose + change < 0.0 ==> m == prevClose - change
    ensures prevClose >= 0.0 ==> m >= 0.0
  {
    var change := r * volatility * dir as real;
    var change' := if prevClose + change < 0.0 then change * -1.0 else change;
    prevClose + change'
  }

  /** A move stays within the volatility of the previous close, and does
      not go below zero from a non-negative close. */
  lemma MoveBounds(prevClose: real, r: real, volatility: real, dir: int)
    requires IsDraw(r) && volatility >= 0.0 && (dir == 1 || dir == -1)
    ensures prevClose - volatility <= Move(prevClose, r, volatility, dir) <= prevClose + volatility
    ensures prevClose >= 0.0 ==> Move(prevClose, r, volatility, dir) >= 0.0
  {
    var m := r * volatility;
    ScaleDraw(r, volatility, m);
    assert r * volatility * dir as real == if dir == 1 then m else -m;
  }

  function Moves(prevClose: real, volatility: real, d: CandleDraws): (s: seq<real>)
    ensures |s| == 4
    ensures s[0] == Move(prevClose, d.r0, volatility, Direction(d))
    ensures s[1] == Move(prevClose, d.r1, volatility, Direction(d))
    ensures s[2] == Move(prevClose, d.r2, volatility, Direction(d))
    ensures s[3] == Move(prevClose, d.r3, volatility, Direction(d))
    ensures prevClose >= 0.0 ==> forall i :: 0 <= i < 4 ==> s[i] >= 0.0
  {
    var dir := Direction(d);
    [Move(prevClose, d.r0, volatility, dir), Move(prevClose, d.r1, volatility, dir),
     Move(prevClose, d.r2, volatility, dir), Move(prevClose, d.r3, volatility, dir)]
  }

  /** The candle built from four moves: sorted ascending, the lowest is the
      low and the highest the high; the middle two are the open and the
      close, in ascending order for a rising candle and descending for a
      falling one. */
  function Candle(timeStamp: real, moves: seq<real>, dir: int): (c: XOHLC)
    requires |moves| == 4
    ensures c.x == timeStamp
    ensures dir != -1 ==> [c.low, c.open, c.close, c.high] == SortAscending(moves)
    ensures dir == -1 ==> [c.low, c.close, c.open, c.high] == SortAscending(moves)
  {
    var sorted := SortAscending(moves);
    var newPoints := if dir == -1 then [sorted[0], sorted[2], sorted[1], sorted[3]] else sorted;
    XOHLC(timeStamp, newPoints[1], newPoints[3], newPoints[0], newPoints[2])
  }

  /** A candle's low and high bound its open and close, which are ordered
      by the direction. */
  lemma CandleOrder(timeStamp: real, moves: seq<real>, dir: int)
    requires |moves| == 4
    ensures var c := Candle(timeStamp, moves, dir);
      c.low <= c.open <= c.high && c.low <= c.close <= c.high
      && (dir == 1 ==> c.open <= c.close)
      && (dir == -1 ==> c.close <= c.open)
  {
    var sorted := SortAscending(moves);
    assert sorted[0] <= sorted[1] && sorted[1] <= sorted[2] && sorted[2] <= sorted[3];
  }

  lemma MultisetOfFour(s: seq<real>)
    requires |s| == 4
    ensures multiset(s) == multiset{s[0], s[1], s[2], s[3]}
  {
    assert s == [s[0], s[1], s[2], s[3]];
  }

  /** A candle's four prices are exactly the four moves. */
  lemma CandlePrices(timeStamp: real, moves: seq<real>, dir: int)
    requires |moves| == 4
    ensures var c := Candle(timeStamp, moves, dir);
      multiset{c.low, c.open, c.close, c.high} == multiset(moves)
  {
    var c := Candle(timeStamp, moves, dir);
    var sorted := SortAscending(moves);
    MultisetOfFour(sorted);
    if dir == -1 {
      assert sorted[0] == c.low && sorted[1] == c.close && sorted[2] == c.open && sorted[3] == c.high;
    } else {
      assert sorted[0] == c.low && sorted[1] == c.open && sorted[2] == c.close && sorted[3] == c.high;
    }
  }

  /** `generateDataPoint(i)`: the candle at `startTimestamp + dataFreq * i`
      built from four moves away from the previous close. */
  function GenerateDataPoint(o: OhlcOptions, prev: XOHLC, i: int, d: CandleDraws): (c: XOHLC)
    ensures c.x == Stamp(o.startTimestamp, o.dataFreq, i)
  {
    var timeStamp := Stamp(o.startTimestamp, o.dataFreq, i);
    Candle(timeStamp, Moves(prev.close, o.volatility, d), Direction(d))
  }

  /** A generated candle has its open and close between its low and high,
      closes above its open when rising and below when falling, and its four
      prices are the four moves from the previous close. */
  lemma GeneratedCandleShape(o: OhlcOptions, prev: XOHLC, i: int, d: CandleDraws)
    ensures var c := GenerateDataPoint(o, prev, i, d);
      c.low <= c.open <= c.high && c.low <= c.close <= c.high
      && (Direction(d) == 1 ==> c.open <= c.close)
      && (Direction(d) == -1 ==> c.close <= c.open)
      && multiset{c.low, c.open, c.close, c.high} == multiset(Moves(prev.close, o.volatility, d))
  {
    var moves := Moves(prev.close, o.volatility, d);
    var timeStamp := Stamp(o.startTimestamp, o.dataFreq, i);
    CandleOrder(timeStamp, moves, Direction(d));
    CandlePrices(timeStamp, moves, Direction(d));
  }

  /** A price within the volatility of the previous close, and not negative
      when that close was not. */
  predicate Near(v: real, prevClose: real, volatility: real)
  {
    prevClose - volatility <= v <= prevClose + volatility
    && (prevClose >= 0.0 ==> v >= 0.0)
  }

  /** Every price of a candle lies within the volatility of the previous
      close, and none is negative when that close was not. */
  lemma CandleNearPreviousClose(o: OhlcOptions, prev: XOHLC, i: int, d: CandleDraws)
    requires ValidDraws(d) && o.volatility >= 0.0
    ensures var c := GenerateDataPoint(o, prev, i, d);
      Near(c.open, prev.close, o.volatility) && Near(c.high, prev.close, o.volatility)
      && Near(c.low, prev.close, o.volatility) && Near(c.close, prev.close, o.volatility)
  {
    var dir := Direction(d);
    var moves := Moves(prev.close, o.volatility, d);
    MoveBounds(prev.close, d.r0, o.volatility, dir);
    MoveBounds(prev.close, d.r1, o.volatility, dir);
    MoveBounds(prev.close, d.r2, o.volatility, dir);
    MoveBounds(prev.close, d.r3, o.volatility, dir);
    assert forall j :: 0 <= j < 4 ==> Near(moves[j], prev.close, o.volatility);
    var sorted := SortAscending(moves);
    forall k | 0 <= k < 4
      ensures Near(sorted[k], prev.close, o.volatility)
    {
      assert sorted[k] in multiset(moves);
    }
    var c := GenerateDataPoint(o, prev, i, d);
    assert c == Candle(c.x, moves, dir);
  }

  /** The generator as a state-threading function: the state is the
      previous candle, and `draws(i)` the random values of index `i`. */
  function Candles(o: OhlcOptions, draws: int -> CandleDraws): (XOHLC, int) -> (XOHLC, XOHLC)
  {
    Emitting(NextCandle(o, draws))
  }

  /** The candle of index `i` from the previous one. */
  function NextCandle(o: OhlcOptions, draws: int -> CandleDraws): (XOHLC, int) -> XOHLC
  {
    (prev: XOHLC, i: int) => GenerateDataPoint(o, prev, i, draws(i))
  }

  predicate NonNegativePrices(c: XOHLC)
  {
    c.open >= 0.0 && c.high >= 0.0 && c.low >= 0.0 && c.close >= 0.0
  }

  /** From a candle with non-negative prices (the initial candle of a
      fresh generator with a non-negative start, or the last candle of the
      previous run), no price of any later candle goes negative. */
  lemma RunStaysNonNegative(o: OhlcOptions, draws: int -> CandleDraws, start: XOHLC, n: nat)
    requires NonNegativePrices(start) && o.volatility >= 0.0
    requires forall i :: ValidDraws(draws(i))
    ensures NonNegativePrices(Produce(Candles(o, draws), start, 0, n).0)
  {
    forall prev: XOHLC, i: int | NonNegativePrices(prev)
      ensures NonNegativePrices(NextCandle(o, draws)(prev, i))
    {
      CandleNearPreviousClose(o, prev, i, draws(i));
    }
    EmittingInvariant(NextCandle(o, draws), NonNegativePrices, start, 0, n);
  }

  /** Candle `k` of a run is the candle generated at index `k` from the
      state the first `k` candles left; the run starts from the candle the
      generator holds. */
  lemma RunCandleIs(o: OhlcOptions, draws: int -> CandleDraws, start: XOHLC, n: nat, k: nat)
    requires k < n
    ensures var prev := Produce(Candles(o, draws), start, 0, k).0;
      Produce(Candles(o, draws), start, 0, n).1[k] == GenerateDataPoint(o, prev, k, draws(k))
  {
    var prev := Produce(Candles(o, draws), start, 0, k).0;
    EmittingPoint(NextCandle(o, draws), start, 0, n, k);
    var f := NextCandle(o, draws);
    assert Produce(Candles(o, draws), start, 0, n).1[k] == f(prev, k);
    assert f(prev, k) == GenerateDataPoint(o, prev, k, draws(k));
  }

  /** Candle `k` of a run is stamped `startTimestamp + dataFreq * k`,
      whatever candle the run starts from: the time axis restarts with
      every run. */
  lemma RunTimestamps(o: OhlcOptions, draws: int -> CandleDraws, start: XOHLC, n: nat, k: nat)
    requires k < n
    ensures Produce(Candles(o, draws), start, 0, n).1[k].x == Stamp(o.startTimestamp, o.dataFreq, k)
  {
    var prev := Produce(Candles(o, draws), start, 0, k).0;
    RunCandleIs(o, draws, start, n, k);
    var c := GenerateDataPoint(o, prev, k, draws(k));
    assert c.x == Stamp(o.startTimestamp, o.dataFreq, k);
  }

  /** From a candle with non-negative prices, every candle of a run has
      non-negative prices. */
  lemma RunCandlesNonNegative(o: OhlcOptions, draws: int -> CandleDraws, start: XOHLC, n: nat, k: nat)
    requires k < n
    requires NonNegativePrices(start) && o.volatility >= 0.0
    requires forall i :: ValidDraws(draws(i))
    ensures NonNegativePrices(Produce(Candles(o, draws), start, 0, n).1[k])
  {
    var prev := Produce(Candles(o, draws), start, 0, k).0;
    RunCandleIs(o, draws, start, n, k);
    RunStaysNonNegative(o, draws, start, k);
    CandleNearPreviousClose(o, prev, k, draws(k));
  }

  /** `infiniteReset`: the candle moves in time by the data length times
      the spacing of the last two candles. With fewer than two candles the
      source reads past the start of the array and throws. */
  function InfiniteReset(p: XOHLC, data: seq<XOHLC>): (r: Option<XOHLC>)
    ensures |data| < 2 <==> r.None?
    ensures r.Some? ==> r.value.(x := p.x) == p
  {
    if |data| < 2 then None
    else
      var n := |data|;
      Some(p.(x := Advance(p.x, n, data[n - 1].x - data[n - 2].x)))
  }

  /** `x + n * spacing`: `n` steps of the given spacing on from `x`. */
  function Advance(x: real, n: int, spacing: real): real
  {
    x + n as real * spacing
  }

  lemma StampArithmetic(t0: real, freq: real, i: int, n: int)
    ensures Stamp(t0, freq, i + 1) - Stamp(t0, freq, i) == freq
    ensures Advance(Stamp(t0, freq, i), n, freq) == Stamp(t0, freq, i + n)
  {
    assert (i + 1) as real == i as real + 1.0;
    assert freq * (i as real + 1.0) == freq * i as real + freq;
    assert (i + n) as real == i as real + n as real;
    assert freq * (i as real + n as real) == freq * i as real + freq * n as real;
  }

  /** Resetting evenly stamped data continues its time axis: candle `k` of
      `n` moves to the stamp of index `n + k`. */
  lemma ResetContinuesTime(data: seq<XOHLC>, t0: real, freq: real, k: nat)
    requires 2 <= |data| && k < |data|
    requires forall i :: 0 <= i < |data| ==> data[i].x == Stamp(t0, freq, i)
    ensures InfiniteReset(data[k], data) == Some(data[k].(x := Stamp(t0, freq, |data| + k)))
  {
    var n := |data|;
    StampArithmetic(t0, freq, n - 2, n);
    StampArithmetic(t0, freq, k, n);
    assert data[n - 1].x - data[n - 2].x == freq;
    assert k + n == |data| + k;
  }
}
