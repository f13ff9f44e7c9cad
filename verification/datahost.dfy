/** The data host of src/dataHost.ts: it stores the generated data (the
    value its promise resolves to), hands it out as a promise or as a
    stream, and supplies the reset that shifts XY data when a stream loops. */
module DataHost {
  import opened Common

  /** The options a stream is created with; `R` is the type of the reset. */
  datatype StreamSettings<R> = StreamSettings(
    interval: Option<int>,
    batchSize: Option<int>,
    infinite: Option<bool>,
    infiniteReset: R)

  /** What `toStream` constructs a stream from: the host's data and the
      adjusted options. */
  datatype StreamRequest<R> = StreamRequest(source: seq<Point>, settings: StreamSettings<R>)

  /** A point data host, holding the data its promise resolves to. */
  datatype PointDataHost = PointDataHost(data: seq<Point>)

  /** The reset a point host attaches to its streams. */
  type PointReset = (seq<Point>, Option<real>) -> seq<Point>

  /** `{ ...options, infiniteReset: own }`: the caller's interval, batch
      size and infinite flag are kept (absent when no options are given),
      and whatever reset the caller passed is replaced by the host's own. */
  function OverrideReset<R>(options: Option<StreamSettings<R>>, own: R): (o: StreamSettings<R>)
    ensures o.infiniteReset == own
    ensures options.Some? ==>
      o.interval == options.value.interval && o.batchSize == options.value.batchSize
      && o.infinite == options.value.infinite
    ensures options.None? ==> o.interval.None? && o.batchSize.None? && o.infinite.None?
  {
    match options
    case Some(given) => given.(infiniteReset := own)
    case None => StreamSettings(None, None, None, own)
  }

  /** Two option sets yield the same stream options exactly when they agree
      on everything but the reset: the caller's reset never survives. */
  lemma OverrideForgetsReset<R>(a: StreamSettings<R>, b: StreamSettings<R>, own: R)
    ensures OverrideReset(Some(a), own) == OverrideReset(Some(b), own)
      <==> a.interval == b.interval && a.batchSize == b.batchSize && a.infinite == b.infinite
  {
  }

  /** The shift `PointDataHost.infiniteReset` applies: `offset || data.length`. */
  function ResetOffset(data: seq<Point>, offset: Option<real>): (n: real)
    ensures offset.None? || offset.value == 0.0 ==> n == |data| as real
    ensures offset.Some? && offset.value != 0.0 ==> n == offset.value
  {
    OrReal(offset, |data| as real)
  }

  /** `PointDataHost.infiniteReset`: every point moved right by the offset
      (by default the data length), y untouched, length and order kept. */
  function InfiniteReset(data: seq<Point>, offset: Option<real>): (r: seq<Point>)
    ensures |r| == |data|
    ensures forall i :: 0 <= i < |data| ==>
      r[i].x == data[i].x + ResetOffset(data, offset) && r[i].y == data[i].y
  {
    var shift := ResetOffset(data, offset);
    MapSeq((p: Point) => Point(p.x + shift, p.y), data)
  }

  /** Resetting by a non-zero offset and then by its negation gives the
      data back. */
  lemma ResetUndo(data: seq<Point>, k: real)
    requires k != 0.0
    ensures InfiniteReset(InfiniteReset(data, Some(k)), Some(-k)) == data
  {
    var back := InfiniteReset(InfiniteReset(data, Some(k)), Some(-k));
    assert forall i :: 0 <= i < |data| ==> back[i] == data[i];
  }

  /** Two resets with explicit offsets add up, as long as neither the
      offsets nor their sum fall back to the length. */
  lemma ResetCompose(data: seq<Point>, a: real, b: real)
    requires a != 0.0 && b != 0.0 && a + b != 0.0
    ensures InfiniteReset(InfiniteReset(data, Some(a)), Some(b)) == InfiniteReset(data, Some(a + b))
  {
    var lhs := InfiniteReset(InfiniteReset(data, Some(a)), Some(b));
    var rhs := InfiniteReset(data, Some(a + b));
    assert forall i :: 0 <= i < |data| ==> lhs[i] == rhs[i];
  }

  /** Without an offset the data moves by its own length, so the reset copy
      of points at x = 0, 1, ..., n-1 continues at x = n, ..., 2n-1. */
  lemma ResetContinuesAxis(data: seq<Point>)
    requires forall i :: 0 <= i < |data| ==> data[i].x == i as real
    ensures forall i :: 0 <= i < |data| ==> InfiniteReset(data, None)[i].x == (|data| + i) as real
  {
  }

  /** Without an offset the host's reset of the whole data agrees point by
      point with the generators' per-point reset. */
  lemma HostResetMatchesGenerators(data: seq<Point>)
    ensures InfiniteReset(data, None) == MapSeq((p: Point) => ShiftByLength(p, data), data)
  {
    var host := InfiniteReset(data, None);
    var each := MapSeq((p: Point) => ShiftByLength(p, data), data);
    assert forall i :: 0 <= i < |data| ==> host[i] == each[i];
  }

  /** `toPromise`: the stored data, unchanged. */
  function ToPromise(host: PointDataHost): (data: seq<Point>)
    ensures data == host.data
  {
    host.data
  }

  /** `toStream`: a stream over the host's data whose options are the
      caller's with the reset replaced by the host's own. */
  function ToStream(host: PointDataHost, options: Option<StreamSettings<PointReset>>): (r: StreamRequest<PointReset>)
    ensures r.source == ToPromise(host)
    ensures r.settings.infiniteReset == InfiniteReset
    ensures options.Some? ==> r.settings == options.value.(infiniteReset := InfiniteReset)
  {
    StreamRequest(host.data, OverrideReset(options, InfiniteReset))
  }

  /** The host never changes what it hands out: the promise and every
      stream requested from it carry the same data, whatever the options. */
  lemma SameDataEverywhere(host: PointDataHost, a: Option<StreamSettings<PointReset>>, b: Option<StreamSettings<PointReset>>)
    ensures ToStream(host, a).source == ToStream(host, b).source == ToPromise(host) == host.data
  {
  }
}
