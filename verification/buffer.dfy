/** The buffer arithmetic of a stream's `consume` step (src/stream.ts).

    A stream holds a buffer and takes a batch from its front on every tick.
    In infinite mode the taken elements are corrected by `infiniteReset`
    and re-appended, so the buffer behaves as a window sliding over the
    sequence obtained by repeating the buffer forever, every repetition
    corrected once more: the "unrolled" buffer `Ext` below. */
module StreamBuffer {
  import opened Common

  /** The batch handed to the handler and the buffer left behind. */
  datatype Consumed<T> = Consumed(batch: seq<T>, rest: seq<T>)

  /** Element `j` of buffer `d` unrolled forever: the buffer itself, then
      the reset images of its elements, then their reset images, ... */
  function Ext<T>(d: seq<T>, reset: T -> T, j: nat): T
    requires |d| > 0
    decreases j
  {
    if j < |d| then d[j] else reset(Ext(d, reset, j - |d|))
  }

  /** The `len` elements of the unrolled buffer starting at position `from`. */
  function Unrolled<T>(d: seq<T>, reset: T -> T, from: nat, len: nat): (w: seq<T>)
    requires |d| > 0
    ensures |w| == len
    ensures forall k :: 0 <= k < len ==> w[k] == Ext(d, reset, from + k)
  {
    seq(len, k requires 0 <= k < len => Ext(d, reset, from + k))
  }

  /** Unrolling a full-length window of the unrolled buffer continues the
      unrolled buffer: the window carries all the information. */
  lemma {:induction false} WindowExt<T>(d: seq<T>, reset: T -> T, a: nat, j: nat)
    requires |d| > 0
    ensures Ext(Unrolled(d, reset, a, |d|), reset, j) == Ext(d, reset, a + j)
    decreases j
  {
    if j >= |d| {
      WindowExt(d, reset, a, j - |d|);
    }
  }

  lemma WindowOfWindow<T>(d: seq<T>, reset: T -> T, a: nat, from: nat, len: nat)
    requires |d| > 0
    ensures Unrolled(Unrolled(d, reset, a, |d|), reset, from, len) == Unrolled(d, reset, a + from, len)
  {
    forall k | 0 <= k < len
      ensures Unrolled(Unrolled(d, reset, a, |d|), reset, from, len)[k] == Unrolled(d, reset, a + from, len)[k]
    {
      WindowExt(d, reset, a, from + k);
    }
  }

  lemma UnrolledStart<T>(d: seq<T>, reset: T -> T)
    requires |d| > 0
    ensures Unrolled(d, reset, 0, |d|) == d
    ensures Unrolled(d, reset, |d|, |d|) == MapSeq(reset, d)
  {
  }

  /** One rotation step of the unrolled buffer: drop the front element and
      append its reset image. */
  lemma RotateOnce<T>(buf: seq<T>, reset: T -> T)
    requires |buf| > 0
    ensures buf[1..] + [reset(buf[0])] == Unrolled(buf, reset, 1, |buf|)
  {
    var rotated := buf[1..] + [reset(buf[0])];
    forall k | 0 <= k < |buf|
      ensures rotated[k] == Ext(buf, reset, 1 + k)
    {
      if k == |buf| - 1 {
        assert Ext(buf, reset, 1 + k) == reset(Ext(buf, reset, 0));
      }
    }
  }

  lemma UnrolledAppend<T>(d: seq<T>, reset: T -> T, a: nat, k: nat, m: nat)
    requires |d| > 0
    ensures Unrolled(d, reset, a, k) + Unrolled(d, reset, a + k, m) == Unrolled(d, reset, a, k + m)
  {
  }

  /** How many elements `data.splice(0, cutCount)` removes: the batch size,
      cut down to the buffer length; a negative count removes nothing. */
  function CutCount(len: nat, batchSize: int): (n: nat)
    ensures n <= len
    ensures batchSize <= 0 ==> n == 0
    ensures batchSize > 0 ==> n == (if len < batchSize then len else batchSize)
  {
    var cut := if len < batchSize then len else batchSize;
    if cut < 0 then 0 else cut
  }

  /** The `while` loop that tops a short batch up to `batchSize` in infinite
      mode: take the front element into the batch and re-append its reset
      image to the back of the buffer. */
  function Fill<T>(batch: seq<T>, buf: seq<T>, batchSize: int, reset: T -> T): (c: Consumed<T>)
    requires |buf| > 0 && |batch| <= batchSize
    ensures c.batch == batch + Unrolled(buf, reset, 0, batchSize - |batch|)
    ensures c.rest == Unrolled(buf, reset, batchSize - |batch|, |buf|)
    decreases batchSize - |batch|
  {
    if |batch| >= batchSize then
      UnrolledStart(buf, reset);
      Consumed(batch, buf)
    else
      var next := buf[0];
      var rotated := buf[1..] + [reset(next)];
      RotateOnce(buf, reset);
      WindowOfWindow(buf, reset, 1, 0, batchSize - |batch| - 1);
      WindowOfWindow(buf, reset, 1, batchSize - |batch| - 1, |buf|);
      UnrolledAppend(buf, reset, 0, 1, batchSize - |batch| - 1);
      Fill(batch + [next], rotated, batchSize, reset)
  }

  /** `Stream.consume`: takes up to `batchSize` elements from the front of
      `data`; in infinite mode re-appends their reset images and, when the
      buffer was shorter than a batch, tops the batch up by rotation. */
  function Consume<T>(data: seq<T>, batchSize: int, infinite: bool, reset: T -> T): (c: Consumed<T>)
    ensures !infinite ==> c.batch + c.rest == data
    ensures infinite ==> |c.rest| == |data|
  {
    var n := CutCount(|data|, batchSize);
    var consumed := data[..n];
    var remaining := data[n..];
    if infinite && |consumed| > 0 then
      var rotated := remaining + MapSeq(reset, consumed);
      if |consumed| < batchSize then Fill(consumed, rotated, batchSize, reset)
      else Consumed(consumed, rotated)
    else
      Consumed(consumed, remaining)
  }

  /** Without the infinite flag a consume is a plain split of the buffer:
      the batch is its first min(batchSize, |data|) elements (none for a
      non-positive batch size) and the rest is what follows. */
  lemma ConsumeFinite<T>(data: seq<T>, batchSize: int, reset: T -> T)
    ensures var c := Consume(data, batchSize, false, reset);
      && c.batch == data[..CutCount(|data|, batchSize)]
      && c.rest == data[CutCount(|data|, batchSize)..]
      && (batchSize > 0 ==> |c.batch| == (if |data| < batchSize then |data| else batchSize))
  {
  }

  /** Consuming an empty buffer yields an empty batch and leaves the buffer
      empty, in both modes: the infinite branch is skipped. */
  lemma ConsumeEmpty<T>(batchSize: int, infinite: bool, reset: T -> T)
    ensures Consume([], batchSize, infinite, reset) == Consumed([], [])
  {
  }

  /** In infinite mode, with data and a positive batch size, a consume
      delivers the next `batchSize` elements of the unrolled buffer and
      leaves the `|data|` elements after them. */
  lemma ConsumeInfinite<T>(data: seq<T>, batchSize: int, reset: T -> T)
    requires |data| > 0 && batchSize > 0
    ensures var c := Consume(data, batchSize, true, reset);
      && c.batch == Unrolled(data, reset, 0, batchSize)
      && c.rest == Unrolled(data, reset, batchSize, |data|)
  {
    var n := CutCount(|data|, batchSize);
    if n < batchSize {
      assert data[..n] == data && data[n..] == [];
      UnrolledStart(data, reset);
      var rotated := MapSeq(reset, data);
      assert data[n..] + MapSeq(reset, data[..n]) == rotated;
      assert rotated == Unrolled(data, reset, |data|, |data|);
      var c := Fill(data, rotated, batchSize, reset);
      assert Consume(data, batchSize, true, reset) == c;
      WindowOfWindow(data, reset, |data|, 0, batchSize - n);
      WindowOfWindow(data, reset, |data|, batchSize - n, |data|);
      UnrolledAppend(data, reset, 0, n, batchSize - n);
      assert c.batch == data + Unrolled(data, reset, |data|, batchSize - n);
    } else {
      assert data[..n] == Unrolled(data, reset, 0, batchSize);
      assert data[n..] + MapSeq(reset, data[..n]) == Unrolled(data, reset, batchSize, |data|);
    }
  }

  /** Infinite mode, buffer at least one batch long: the batch is the
      buffer's prefix and the buffer becomes its suffix followed by the
      reset images of the batch. */
  lemma ConsumeInfiniteLong<T>(data: seq<T>, batchSize: int, reset: T -> T)
    requires 0 < batchSize <= |data|
    ensures var c := Consume(data, batchSize, true, reset);
      && c.batch == data[..batchSize]
      && c.rest == data[batchSize..] + MapSeq(reset, data[..batchSize])
  {
  }

  /** Infinite mode, buffer shorter than a batch: the batch is still a full
      batch; it starts with the whole buffer and each later element is the
      reset image of the element one buffer-length earlier. */
  lemma ConsumeInfiniteShort<T>(data: seq<T>, batchSize: int, reset: T -> T)
    requires 0 < |data| < batchSize
    ensures var c := Consume(data, batchSize, true, reset);
      && |c.batch| == batchSize
      && c.batch[..|data|] == data
      && (forall j :: |data| <= j < batchSize ==> c.batch[j] == reset(c.batch[j - |data|]))
      && |c.rest| == |data|
  {
    ConsumeInfinite(data, batchSize, reset);
    var c := Consume(data, batchSize, true, reset);
    forall j | |data| <= j < batchSize
      ensures c.batch[j] == reset(c.batch[j - |data|])
    {
      assert c.batch[j] == Ext(data, reset, j);
    }
  }

  /** A window taken `a` positions in, followed by a window of that window,
      is one longer window of the original unrolled buffer. */
  lemma ChainWindows<T>(d: seq<T>, reset: T -> T, a: nat, m: nat)
    requires |d| > 0
    ensures Unrolled(d, reset, 0, a) + Unrolled(Unrolled(d, reset, a, |d|), reset, 0, m) == Unrolled(d, reset, 0, a + m)
    ensures Unrolled(Unrolled(d, reset, a, |d|), reset, m, |d|) == Unrolled(d, reset, a + m, |d|)
  {
    WindowOfWindow(d, reset, a, 0, m);
    WindowOfWindow(d, reset, a, m, |d|);
    UnrolledAppend(d, reset, 0, a, m);
  }

  /** A first window of `a` elements and a buffer, followed by the first
      `m` elements of that buffer's unrolled sequence and the buffer after
      them, continue the unrolled sequence of the original data. */
  lemma NextWindows<T>(d: seq<T>, reset: T -> T, a: nat, m: nat, batch: seq<T>, rest: seq<T>, more: seq<T>, left: seq<T>)
    requires |d| > 0
    requires batch == Unrolled(d, reset, 0, a) && rest == Unrolled(d, reset, a, |d|)
    requires more == Unrolled(rest, reset, 0, m) && left == Unrolled(rest, reset, m, |rest|)
    ensures batch + more == Unrolled(d, reset, 0, a + m)
    ensures left == Unrolled(d, reset, a + m, |d|)
  {
    ChainWindows(d, reset, a, m);
  }

  /** `k` consumes in a row: the concatenated batches and the final buffer. */
  function ConsumeTimes<T>(data: seq<T>, batchSize: int, infinite: bool, reset: T -> T, k: nat): Consumed<T>
    decreases k
  {
    if k == 0 then Consumed([], data)
    else
      var c := Consume(data, batchSize, infinite, reset);
      var more := ConsumeTimes(c.rest, batchSize, infinite, reset, k - 1);
      Consumed(c.batch + more.batch, more.rest)
  }

  /** Without the infinite flag, any number of consumes delivers a prefix
      of the buffer, each element once and in order, and leaves the rest. */
  lemma {:induction false} ConsumeTimesFinite<T>(data: seq<T>, batchSize: int, reset: T -> T, k: nat)
    ensures var c := ConsumeTimes(data, batchSize, false, reset, k);
      c.batch + c.rest == data
    decreases k
  {
    if k > 0 {
      var c := Consume(data, batchSize, false, reset);
      ConsumeTimesFinite(c.rest, batchSize, reset, k - 1);
    }
  }

  /** In infinite mode, `k` consumes deliver the first `k * batchSize`
      elements of the unrolled buffer and leave the next `|data|`: the
      stream replays the buffer forever, each lap corrected once more, and
      the buffer length never changes. */
  lemma {:induction false} ConsumeTimesInfinite<T>(data: seq<T>, batchSize: int, reset: T -> T, k: nat)
    requires |data| > 0 && batchSize > 0
    ensures var c := ConsumeTimes(data, batchSize, true, reset, k);
      && c.batch == Unrolled(data, reset, 0, k * batchSize)
      && c.rest == Unrolled(data, reset, k * batchSize, |data|)
    decreases k
  {
    if k > 0 {
      ConsumeInfinite(data, batchSize, reset);
      var c := Consume(data, batchSize, true, reset);
      var m: nat := (k - 1) * batchSize;
      assert batchSize + m == k * batchSize;
      ConsumeTimesInfinite(c.rest, batchSize, reset, k - 1);
      var more := ConsumeTimes(c.rest, batchSize, true, reset, k - 1);
      assert ConsumeTimes(data, batchSize, true, reset, k) == Consumed(c.batch + more.batch, more.rest);
      NextWindows(data, reset, batchSize, m, c.batch, c.rest, more.batch, more.rest);
    } else {
      UnrolledStart(data, reset);
    }
  }
}
