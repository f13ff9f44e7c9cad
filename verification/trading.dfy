/** The simple moving average of src/trading.ts, over reals. */
module Trading {
  import opened Common

  /** The sum of the closes of `values[lo..hi]`. */
  function CloseSum(values: seq<XOHLC>, lo: nat, hi: nat): real
    requires lo <= hi <= |values|
    decreases hi - lo
  {
    if lo == hi then 0.0 else CloseSum(values, lo, hi - 1) + values[hi - 1].close
  }

  /** Taking the first close out of a range sum leaves the sum of the rest. */
  lemma {:induction false} CloseSumDropFirst(values: seq<XOHLC>, lo: nat, hi: nat)
    requires lo < hi <= |values|
    ensures CloseSum(values, lo, hi) == values[lo].close + CloseSum(values, lo + 1, hi)
    decreases hi - lo
  {
    if lo + 1 < hi {
      CloseSumDropFirst(values, lo, hi - 1);
    }
  }

  /** The average point of the frame ending at index `last`: x of the last
      entry, y the mean close over the frame. */
  function FramePoint(values: seq<XOHLC>, frame: nat, last: nat): Point
    requires 1 <= frame && frame - 1 <= last < |values|
  {
    Point(values[last].x, CloseSum(values, last + 1 - frame, last + 1) / frame as real)
  }

  /** The first entry whose close is still buffered after `i` entries. */
  function WindowStart(frame: nat, i: nat): nat
  {
    if i < frame then 0 else i - (frame - 1)
  }

  /** `simpleMovingAverage`: one point per complete frame of
      `averagingFrameLength` consecutive entries, in order. Output `k`
      averages the closes of entries `k .. k + frame - 1` and takes the x
      of the last of them; input shorter than a frame gives nothing. */
  method SimpleMovingAverage(values: seq<XOHLC>, frame: nat) returns (result: seq<Point>)
    requires frame >= 2
    ensures |values| < frame ==> result == []
    ensures |values| >= frame ==> |result| == |values| - frame + 1
    ensures forall k :: 0 <= k < |result| ==>
      result[k].x == values[k + frame - 1].x
      && result[k].y == CloseSum(values, k, k + frame) / frame as real
  {
    var len := |values|;
    result := [];
    var buffer: seq<real> := [];
    var sum := 0.0;
    var i := 0;
    while i < len
      invariant 0 <= i <= len
      invariant WindowStart(frame, i) <= i
      invariant |buffer| == i - WindowStart(frame, i)
      invariant forall j :: 0 <= j < |buffer| ==> buffer[j] == values[WindowStart(frame, i) + j].close
      invariant sum == CloseSum(values, WindowStart(frame, i), i)
      invariant |result| == (if i >= frame then i - frame + 1 else 0)
      invariant forall k :: 0 <= k < |result| ==> result[k] == FramePoint(values, frame, k + frame - 1)
    {
      var value := values[i].close;
      sum := sum + value;
      if i >= frame - 1 {
        assert WindowStart(frame, i) == i + 1 - frame && WindowStart(frame, i + 1) == i + 2 - frame;
        var average := sum / frame as real;
        assert Point(values[i].x, average) == FramePoint(values, frame, i);
        result := result + [Point(values[i].x, average)];
        var dropped := buffer[0];
        buffer := buffer[1..];
        CloseSumDropFirst(values, i + 1 - frame, i + 1);
        sum := sum - dropped;
      } else {
        assert WindowStart(frame, i + 1) == 0;
      }
      buffer := buffer + [value];
      i := i + 1;
    }
  }

  /** A range of equal closes sums to the count times the close. */
  lemma {:induction false} CloseSumConstant(values: seq<XOHLC>, lo: nat, hi: nat, c: real)
    requires lo <= hi <= |values|
    requires forall j :: lo <= j < hi ==> values[j].close == c
    ensures CloseSum(values, lo, hi) == (hi - lo) as real * c
    decreases hi - lo
  {
    if lo < hi {
      CloseSumConstant(values, lo, hi - 1, c);
    }
  }

  /** The moving average of a series whose closes are all equal is that
      close, at every frame. */
  lemma ConstantFrameAverage(values: seq<XOHLC>, frame: nat, last: nat, c: real)
    requires 1 <= frame && frame - 1 <= last < |values|
    requires forall j :: 0 <= j < |values| ==> values[j].close == c
    ensures FramePoint(values, frame, last).y == c
  {
    CloseSumConstant(values, last + 1 - frame, last + 1, c);
  }
}
