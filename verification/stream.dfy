/** The stream state machine of src/stream.ts.

    A stream owns a buffer, an active flag and at most one per-tick
    handler: a map handler forwarding each consumed batch, transformed
    elementwise, into the stream's output stream, or a forEach handler.
    Timers are not modelled: the tick that `setTimeout` re-arms after
    `interval` is an explicit call of `Tick`; `push`, `map` and `forEach`
    activate a stale stream, which runs one tick synchronously.

    The output stream `map` returns is the very object the mapping stream
    keeps pushing into. It is held here as the `output` field, and a
    `Call` addressed `OnOutput` acts on it in place: its `forEach`, its
    `map` and its own timer ticks.

    Every call returns a `Step`: the new stream, the batch this stream
    handed to its own handler (if it called one), and the batches handed to
    forEach handlers, its own or those of output streams reached through
    `OnOutput`, in call order, which is what a user of the stream
    observes. */
module Streams {
  import opened Common
  import opened StreamBuffer

  /** The constructor options; `infiniteReset` corrects one element before
      it is re-appended in infinite mode. */
  datatype StreamOptions<!T> = StreamOptions(
    interval: Option<int>,
    batchSize: Option<int>,
    infinite: bool,
    infiniteReset: T -> T)

  /** The active internal handler (`streamHandler`). The map handler takes
      the element, its index in the batch and the batch, like
      `Array.prototype.map`. */
  datatype Handler<!T> = Unset | Mapping(f: (T, int, seq<T>) -> T) | Iterating

  datatype Stream<!T> = Stream(
    options: StreamOptions<T>,
    active: bool,
    data: seq<T>,
    handler: Handler<T>,
    output: Option<Stream<T>>)

  datatype Step<!T> = Step(stream: Stream<T>, consumed: Option<seq<T>>, observed: seq<seq<T>>)

  /** Milliseconds between ticks: `options.interval || 1000`. */
  function Interval<T>(s: Stream<T>): (ms: int)
    ensures s.options.interval.None? || s.options.interval == Some(0) ==> ms == 1000
    ensures s.options.interval.Some? && s.options.interval.value != 0 ==> ms == s.options.interval.value
    ensures ms != 0
  {
    OrInt(s.options.interval, 1000)
  }

  /** Elements per tick: `options.batchSize || 1`. */
  function BatchSize<T>(s: Stream<T>): (n: int)
    ensures s.options.batchSize.None? || s.options.batchSize == Some(0) ==> n == 1
    ensures s.options.batchSize.Some? && s.options.batchSize.value != 0 ==> n == s.options.batchSize.value
    ensures n != 0
  {
    OrInt(s.options.batchSize, 1)
  }

  /** A freshly constructed stream: inactive, empty, no handler. */
  function NewStream<T>(options: StreamOptions<T>): (s: Stream<T>)
    ensures s.options == options
    ensures !s.active && s.data == [] && s.handler.Unset?
    ensures s.output.None? && Depth(s) == 0
  {
    Stream(options, false, [], Unset, None)
  }

  /** Length of the chain of output streams hanging off a stream. */
  function Depth<T>(s: Stream<T>): nat
  {
    match s.output
    case None => 0
    case Some(o) => 1 + Depth(o)
  }

  /** `data.map(mapHandler)`: every element transformed with its index and
      the whole batch. */
  function MapBatch<T>(f: (T, int, seq<T>) -> T, batch: seq<T>): (m: seq<T>)
    ensures |m| == |batch|
    ensures forall i :: 0 <= i < |batch| ==> m[i] == f(batch[i], i, batch)
  {
    seq(|batch|, i requires 0 <= i < |batch| => f(batch[i], i, batch))
  }

  /** The batch a consume takes from this stream's buffer. */
  function Next<T>(s: Stream<T>): Consumed<T>
  {
    Consume(s.data, BatchSize(s), s.options.infinite, s.options.infiniteReset)
  }

  /** `runStream`: one tick. */
  function Tick<T>(s: Stream<T>): (r: Step<T>)
    ensures Depth(r.stream) == Depth(s)
    ensures r.stream.options == s.options && r.stream.handler == s.handler
    ensures |s.data| == 0 ==> r == Step(s.(active := false), None, [])
    ensures |s.data| > 0 ==> r.stream.active == s.active
    ensures |s.data| > 0 && s.handler.Unset? ==> r == Step(s, None, [])
    ensures |s.data| > 0 && !s.handler.Unset? ==>
      r.consumed == Some(Next(s).batch) && r.stream.data == Next(s).rest
    ensures s.handler.Iterating? ==> r.stream.output == s.output
    ensures s.handler.Iterating? && |s.data| > 0 ==> r.observed == [Next(s).batch]
    ensures s.options.infinite ==> |r.stream.data| == |s.data|
    decreases Depth(s), 0
  {
    if |s.data| > 0 then
      match s.handler
      case Unset => Step(s, None, [])
      case Iterating =>
        var c := Next(s);
        Step(s.(data := c.rest), Some(c.batch), [c.batch])
      case Mapping(f) =>
        var c := Next(s);
        match s.output
        case Some(o) =>
          var forwarded := Push(o, MapBatch(f, c.batch));
          Step(s.(data := c.rest, output := Some(forwarded.stream)), Some(c.batch), forwarded.observed)
        case None =>
          Step(s.(data := c.rest), Some(c.batch), [])
    else
      Step(s.(active := false), None, [])
  }

  /** `activateStream`: a stale stream is marked active and ticks at once;
      an active one is left alone (its timer is already armed). */
  function Activate<T>(s: Stream<T>): (r: Step<T>)
    ensures Depth(r.stream) == Depth(s)
    ensures r.stream.options == s.options && r.stream.handler == s.handler
    ensures s.active ==> r == Step(s, None, [])
    ensures !s.active ==> r == Tick(s.(active := true))
    decreases Depth(s), 1
  {
    if !s.active then Tick(s.(active := true)) else Step(s, None, [])
  }

  /** `push`: appends the new data behind the buffer and activates. */
  function Push<T>(s: Stream<T>, xs: seq<T>): (r: Step<T>)
    ensures Depth(r.stream) == Depth(s)
    ensures r.stream.options == s.options && r.stream.handler == s.handler
    ensures s.active ==> r == Step(s.(data := s.data + xs), None, [])
    ensures !s.active ==> r == Tick(s.(data := s.data + xs, active := true))
    decreases Depth(s), 2
  {
    Activate(s.(data := s.data + xs))
  }

  /** `map`: a new non-infinite output stream with the same options, the
      map handler installed in place of any earlier handler, and the
      stream activated. The output stream is `r.stream.output`. */
  function Map<T>(s: Stream<T>, f: (T, int, seq<T>) -> T): (r: Step<T>)
    ensures r.stream.handler == Mapping(f)
    ensures r.stream.options == s.options
    ensures r.stream.output.Some?
    ensures r.stream.output.value.options == s.options.(infinite := false)
    ensures s.active ==> r.stream.data == s.data && r.stream.output == Some(NewStream(s.options.(infinite := false)))
    ensures !s.active && |s.data| > 0 ==>
      && r.stream.active
      && r.stream.data == Next(s).rest
      && r.stream.output.value.data == MapBatch(f, Next(s).batch)
      && r.consumed == Some(Next(s).batch)
    ensures !s.active && |s.data| == 0 ==>
      !r.stream.active && r.stream.output == Some(NewStream(s.options.(infinite := false)))
  {
    var out := NewStream(s.options.(infinite := false));
    var s1 := s.(output := Some(out), handler := Mapping(f));
    var r := Activate(s1);
    assert r.stream.output.value.options == out.options by {
      if !s1.active && |s1.data| > 0 {
        assert r.stream.output == Some(Push(out, MapBatch(f, Next(s1).batch)).stream);
      }
    }
    r
  }

  /** `forEach`: installs the forEach handler in place of any earlier
      handler and activates the stream. */
  function ForEach<T>(s: Stream<T>): (r: Step<T>)
    ensures r.stream.handler == Iterating
    ensures r.stream.options == s.options
    ensures r.stream.output == s.output
    ensures s.active ==> r.stream.data == s.data
    ensures !s.active && |s.data| > 0 ==> r.observed == [Next(s).batch] && r.stream.data == Next(s).rest
    ensures !s.active && |s.data| == 0 ==> r.observed == [] && !r.stream.active
  {
    Activate(s.(handler := Iterating))
  }

  /** Something that happens to a stream: a timer tick or a push. */
  datatype Event<T> = TickEvent | PushEvent(items: seq<T>)

  function Apply<T>(s: Stream<T>, e: Event<T>): Step<T>
  {
    match e
    case TickEvent => Tick(s)
    case PushEvent(xs) => Push(s, xs)
  }

  /** The stream after a sequence of events, with everything observed. */
  function Run<T>(s: Stream<T>, events: seq<Event<T>>): (r: Step<T>)
    decreases |events|
  {
    if |events| == 0 then Step(s, None, [])
    else
      var first := Apply(s, events[0]);
      var rest := Run(first.stream, events[1..]);
      Step(rest.stream, None, first.observed + rest.observed)
  }

  /** Everything pushed by a sequence of events, in order. */
  function Pushed<T>(events: seq<Event<T>>): seq<T>
    decreases |events|
  {
    if |events| == 0 then []
    else (if events[0].PushEvent? then events[0].items else []) + Pushed(events[1..])
  }

  /** `k` timer ticks in a row. */
  function TickTimes<T>(s: Stream<T>, k: nat): Step<T>
    decreases k
  {
    if k == 0 then Step(s, None, [])
    else
      var first := Tick(s);
      var rest := TickTimes(first.stream, k - 1);
      Step(rest.stream, None, first.observed + rest.observed)
  }

  /** One tick or push of a forEach stream without the infinite flag hands
      the front of the buffer to the handler: what is observed followed by
      the new buffer is the old buffer followed by what was pushed. */
  lemma ApplyFinite<T>(s: Stream<T>, e: Event<T>)
    requires s.handler.Iterating? && !s.options.infinite
    ensures var r := Apply(s, e);
      && r.stream.handler.Iterating? && r.stream.options == s.options
      && Flatten(r.observed) + r.stream.data == s.data + (if e.PushEvent? then e.items else [])
  {
    match e
    case TickEvent =>
      if |s.data| > 0 {
        assert Flatten([Next(s).batch]) == Next(s).batch + Flatten([]);
      }
    case PushEvent(xs) =>
      if !s.active {
        var s1 := s.(data := s.data + xs, active := true);
        if |s1.data| > 0 {
          assert Flatten([Next(s1).batch]) == Next(s1).batch + Flatten([]);
        }
      }
  }

  /** A forEach stream without the infinite flag delivers every element
      ever pushed exactly once and in order: at any point, all batches
      observed so far followed by the buffer equal the initial buffer
      followed by everything pushed. */
  lemma {:induction false} FiniteDeliveryInOrder<T>(s: Stream<T>, events: seq<Event<T>>)
    requires s.handler.Iterating? && !s.options.infinite
    ensures var r := Run(s, events);
      Flatten(r.observed) + r.stream.data == s.data + Pushed(events)
    decreases |events|
  {
    if |events| > 0 {
      var first := Apply(s, events[0]);
      var rest := Run(first.stream, events[1..]);
      assert Run(s, events) == Step(rest.stream, None, first.observed + rest.observed);
      var items := if events[0].PushEvent? then events[0].items else [];
      assert Pushed(events) == items + Pushed(events[1..]);
      ApplyFinite(s, events[0]);
      FiniteDeliveryInOrder(first.stream, events[1..]);
      FlattenAppend(first.observed, rest.observed);
      SpliceLaw(Flatten(first.observed), Flatten(rest.observed), first.stream.data, rest.stream.data,
        s.data, items, Pushed(events[1..]));
    }
  }

  lemma SpliceLaw<T>(obsA: seq<T>, obsB: seq<T>, dA: seq<T>, dB: seq<T>, s0: seq<T>, items: seq<T>, later: seq<T>)
    requires obsA + dA == s0 + items
    requires obsB + dB == dA + later
    ensures (obsA + obsB) + dB == s0 + (items + later)
  {
    calc {
      (obsA + obsB) + dB;
      obsA + (obsB + dB);
      obsA + (dA + later);
      (obsA + dA) + later;
    }
  }

  /** In infinite mode no tick changes the buffer length: only pushes
      grow it, by exactly what they push. */
  lemma {:induction false} InfiniteLengthInvariant<T>(s: Stream<T>, events: seq<Event<T>>)
    requires s.options.infinite
    ensures |Run(s, events).stream.data| == |s.data| + |Pushed(events)|
    decreases |events|
  {
    if |events| > 0 {
      var first := Apply(s, events[0]);
      if events[0].PushEvent? && !s.active {
        assert first == Tick(s.(data := s.data + events[0].items, active := true));
      }
      InfiniteLengthInvariant(first.stream, events[1..]);
    }
  }

  /** `k` ticks of a forEach stream observe exactly the batches of `k`
      consumes in a row and leave the buffer those consumes leave. */
  lemma {:induction false} TickTimesConsume<T>(s: Stream<T>, k: nat)
    requires s.handler.Iterating?
    ensures var r := TickTimes(s, k);
      var c := ConsumeTimes(s.data, BatchSize(s), s.options.infinite, s.options.infiniteReset, k);
      Flatten(r.observed) == c.batch && r.stream.data == c.rest
    decreases k
  {
    if k > 0 {
      var first := Tick(s);
      TickTimesConsume(first.stream, k - 1);
      var rest := TickTimes(first.stream, k - 1);
      FlattenAppend(first.observed, rest.observed);
      if |s.data| > 0 {
        assert Flatten([Next(s).batch]) == Next(s).batch + Flatten([]);
      } else {
        ConsumeEmpty(BatchSize(s), s.options.infinite, s.options.infiniteReset);
      }
    }
  }

  /** An infinite forEach stream replays its buffer forever: `k` ticks
      observe the first `k * batchSize` elements of the unrolled buffer,
      each lap corrected once more by `infiniteReset`. */
  lemma InfiniteReplay<T>(s: Stream<T>, k: nat)
    requires s.handler.Iterating? && s.options.infinite
    requires |s.data| > 0 && BatchSize(s) > 0
    ensures var r := TickTimes(s, k);
      && Flatten(r.observed) == Unrolled(s.data, s.options.infiniteReset, 0, k * BatchSize(s))
      && r.stream.data == Unrolled(s.data, s.options.infiniteReset, k * BatchSize(s), |s.data|)
  {
    TickTimesConsume(s, k);
    ConsumeTimesInfinite(s.data, BatchSize(s), s.options.infiniteReset, k);
  }

  /** A tick of a map stream hands its batch, transformed elementwise, to
      the output stream. An output stream without a handler of its own, or
      an active one, just buffers the images behind its data, and nothing
      is observed yet. */
  lemma MapTickForwards<T>(s: Stream<T>, f: (T, int, seq<T>) -> T)
    requires s.handler == Mapping(f) && s.output.Some? && |s.data| > 0
    ensures var r := Tick(s);
      && r.consumed == Some(Next(s).batch)
      && r.stream.data == Next(s).rest
      && r.stream.output.Some?
      && r.stream.output.value.handler == s.output.value.handler
      && r.stream.output.value.options == s.output.value.options
      && ((s.output.value.active || s.output.value.handler.Unset?) ==>
            r.stream.output.value.data == s.output.value.data + MapBatch(f, Next(s).batch)
            && r.observed == [])
  {
  }

  /** The images a map handler forwards over `k` ticks: the batch of each
      of `k` consumes in a row, mapped elementwise, in order. */
  function MappedBatches<T>(f: (T, int, seq<T>) -> T, data: seq<T>, batchSize: int, infinite: bool, reset: T -> T, k: nat): seq<T>
    decreases k
  {
    if k == 0 then []
    else
      var c := Consume(data, batchSize, infinite, reset);
      MapBatch(f, c.batch) + MappedBatches(f, c.rest, batchSize, infinite, reset, k - 1)
  }

  /** One tick of a map stream whose output stream has no handler of its
      own, with or without data: the batch's image is appended to the
      output stream, which stays without a handler, and nothing is
      observed. */
  lemma MapTickOnce<T>(s: Stream<T>, f: (T, int, seq<T>) -> T)
    requires s.handler == Mapping(f) && s.output.Some? && s.output.value.handler.Unset?
    ensures var r := Tick(s);
      && r.observed == []
      && r.stream.handler == Mapping(f)
      && r.stream.options == s.options
      && r.stream.data == Next(s).rest
      && r.stream.output.Some? && r.stream.output.value.handler.Unset?
      && r.stream.output.value.data == s.output.value.data + MapBatch(f, Next(s).batch)
  {
    if |s.data| > 0 {
      MapTickForwards(s, f);
    } else {
      ConsumeEmpty(BatchSize(s), s.options.infinite, s.options.infiniteReset);
      assert MapBatch(f, Next(s).batch) == [];
    }
  }

  /** `k` ticks of a map stream whose output stream has no handler of its
      own keep the map handler and an output stream without a handler,
      leave the buffer that `k` consumes leave, and observe nothing. */
  lemma {:induction false} MapTickTimesShape<T>(s: Stream<T>, f: (T, int, seq<T>) -> T, k: nat)
    requires s.handler == Mapping(f) && s.output.Some? && s.output.value.handler.Unset?
    ensures var r := TickTimes(s, k);
      && r.observed == []
      && r.stream.handler == Mapping(f)
      && r.stream.options == s.options
      && r.stream.data == ConsumeTimes(s.data, BatchSize(s), s.options.infinite, s.options.infiniteReset, k).rest
      && r.stream.output.Some? && r.stream.output.value.handler.Unset?
    decreases k
  {
    if k > 0 {
      MapTickOnce(s, f);
      MapTickTimesShape(Tick(s).stream, f, k - 1);
    }
  }

  /** `k` ticks of a map stream whose output stream has no handler of its
      own: the stream's buffer is what `k` consumes leave, the output
      stream's buffer grows by the mapped batches of those consumes, in
      order, and nothing is observed. */
  lemma {:induction false} MapTickTimes<T>(s: Stream<T>, f: (T, int, seq<T>) -> T, k: nat)
    requires s.handler == Mapping(f) && s.output.Some? && s.output.value.handler.Unset?
    ensures var r := TickTimes(s, k);
      && r.observed == []
      && r.stream.handler == Mapping(f)
      && r.stream.data == ConsumeTimes(s.data, BatchSize(s), s.options.infinite, s.options.infiniteReset, k).rest
      && r.stream.output.Some? && r.stream.output.value.handler.Unset?
      && r.stream.output.value.data == s.output.value.data
           + MappedBatches(f, s.data, BatchSize(s), s.options.infinite, s.options.infiniteReset, k)
    decreases k
  {
    MapTickTimesShape(s, f, k);
    if k > 0 {
      var first := Tick(s).stream;
      var c := Next(s);
      MapTickOnce(s, f);
      MapTickTimes(first, f, k - 1);
      var r, r1 := TickTimes(s, k), TickTimes(first, k - 1);
      assert r.stream == r1.stream;
      var more := MappedBatches(f, c.rest, BatchSize(s), s.options.infinite, s.options.infiniteReset, k - 1);
      assert r1.stream.output.value.data == first.output.value.data + more;
      AppendAssoc(s.output.value.data, MapBatch(f, c.batch), more);
    }
  }

  /** A call a user makes on a stream they hold. `OnOutput(c)` makes the
      call `c` on the stream a `map` call returned. The mapping stream keeps
      pushing into that same object, so the call acts on the mapping
      stream's own output, in place. A stream's timer firing is
      `TickCall`, so `OnOutput(TickCall)` is a tick of the output stream's
      own timer, and `OnOutput(OnOutput(c))` reaches one stream further
      down the chain. */
  datatype Call<!T> =
    | TickCall
    | PushCall(items: seq<T>)
    | ForEachCall
    | MapCall(f: (T, int, seq<T>) -> T)
    | OnOutput(inner: Call<T>)

  /** One call. A call addressed to the output stream leaves this stream's
      own buffer, flag, handler and options alone; the output stream
      changes exactly as if the call had been made on it directly, and its
      handlers' observations are what the caller observes. A stream that
      never had `map` called on it has no output stream for the caller to
      hold, so such a call changes nothing. */
  function Perform<T>(s: Stream<T>, c: Call<T>): (r: Step<T>)
    ensures c.OnOutput? ==>
      && r.stream.options == s.options && r.stream.active == s.active
      && r.stream.data == s.data && r.stream.handler == s.handler
      && r.stream.output.Some? == s.output.Some?
    ensures c.OnOutput? && s.output.None? ==> r.observed == []
    decreases c
  {
    match c
    case TickCall => Tick(s)
    case PushCall(xs) => Push(s, xs)
    case ForEachCall => ForEach(s)
    case MapCall(f) => Map(s, f)
    case OnOutput(inner) =>
      match s.output
      case None => Step(s, None, [])
      case Some(o) =>
        var r := Perform(o, inner);
        Step(s.(output := Some(r.stream)), None, r.observed)
  }

  /** The output stream a caller holds and the one the mapping stream
      pushes into are one object: a call on it made through `OnOutput`
      leaves it exactly as the same call made on it directly, and the
      caller observes what that call observes. */
  lemma OnOutputActsInPlace<T>(s: Stream<T>, c: Call<T>)
    requires s.output.Some?
    ensures var r := Perform(s, OnOutput(c));
      var direct := Perform(s.output.value, c);
      && r.stream == s.(output := Some(direct.stream))
      && r.observed == direct.observed
  {
    var direct := Perform(s.output.value, c);
    assert Perform(s, OnOutput(c)) == Step(s.(output := Some(direct.stream)), None, direct.observed);
  }

  /** One timer firing in a chain of a stream and its output stream:
      `own` is the stream's own timer, otherwise the output stream's timer,
      which ticks the output stream in place. */
  function TimerCall<T>(own: bool): (c: Call<T>)
    ensures own <==> c == TickCall
    ensures !own <==> c == OnOutput(TickCall)
  {
    if own then TickCall else OnOutput(TickCall)
  }

  /** The two timers firing in the given order, with everything
      observed. */
  function RunTimers<T>(s: Stream<T>, order: seq<bool>): Step<T>
    decreases |order|
  {
    if |order| == 0 then Step(s, None, [])
    else
      var first := Perform(s, TimerCall(order[0]));
      var rest := RunTimers(first.stream, order[1..]);
      Step(rest.stream, None, first.observed + rest.observed)
  }

  /** How often the stream's own timer fires in the order. */
  function OwnTicks(order: seq<bool>): nat
    decreases |order|
  {
    if |order| == 0 then 0
    else (if order[0] then 1 else 0) + OwnTicks(order[1..])
  }

  /** A map stream feeding a finite output stream with a forEach handler.
      The stream's own tick pushes the image of its batch into the output
      stream; the output stream's tick hands the front of its buffer to
      its handler. Either way nothing forwarded is lost: what the output's
      handler observed, then the output's buffer, is its old buffer
      followed by the image of whatever the stream consumed. */
  lemma ChainTickOnce<T>(s: Stream<T>, f: (T, int, seq<T>) -> T, own: bool)
    requires s.handler == Mapping(f) && s.output.Some?
    requires s.output.value.handler.Iterating? && !s.output.value.options.infinite
    ensures var r := Perform(s, TimerCall(own));
      && r.stream.handler == Mapping(f) && r.stream.options == s.options
      && r.stream.data == (if own then Next(s).rest else s.data)
      && r.stream.output.Some? && r.stream.output.value.handler.Iterating?
      && r.stream.output.value.options == s.output.value.options
      && Flatten(r.observed) + r.stream.output.value.data
           == s.output.value.data + (if own then MapBatch(f, Next(s).batch) else [])
  {
    var o := s.output.value;
    if own {
      assert Perform(s, TimerCall(own)) == Tick(s);
      if |s.data| > 0 {
        ApplyFinite(o, PushEvent(MapBatch(f, Next(s).batch)));
      } else {
        ConsumeEmpty(BatchSize(s), s.options.infinite, s.options.infiniteReset);
        assert MapBatch(f, Next(s).batch) == [];
      }
    } else {
      OnOutputActsInPlace(s, TickCall);
      ApplyFinite(o, TickEvent);
    }
  }

  /** Any interleaving of the map stream's timer and its output stream's
      timer delivers to the output's forEach handler, once each and in
      order, the mapped batches of the consumes the map stream made:
      everything observed, then the output's buffer, is the output's old
      buffer followed by those images. */
  lemma {:induction false} ChainDelivery<T>(s: Stream<T>, f: (T, int, seq<T>) -> T, order: seq<bool>)
    requires s.handler == Mapping(f) && s.output.Some?
    requires s.output.value.handler.Iterating? && !s.output.value.options.infinite
    ensures var r := RunTimers(s, order);
      var n := OwnTicks(order);
      && r.stream.handler == Mapping(f) && r.stream.options == s.options
      && r.stream.data == ConsumeTimes(s.data, BatchSize(s), s.options.infinite, s.options.infiniteReset, n).rest
      && r.stream.output.Some? && r.stream.output.value.handler.Iterating?
      && r.stream.output.value.options == s.output.value.options
      && Flatten(r.observed) + r.stream.output.value.data
           == s.output.value.data + MappedBatches(f, s.data, BatchSize(s), s.options.infinite, s.options.infiniteReset, n)
    decreases |order|
  {
    if |order| > 0 {
      var first := Perform(s, TimerCall(order[0]));
      var rest := RunTimers(first.stream, order[1..]);
      ChainTickOnce(s, f, order[0]);
      ChainDelivery(first.stream, f, order[1..]);
      ChainStep(s, f, order[0], first, rest, OwnTicks(order[1..]));
    }
  }

  /** The bookkeeping behind one step of `ChainDelivery`: one tick, which
      consumed a batch or not, followed by the ticks after it. */
  lemma ChainStep<T>(s: Stream<T>, f: (T, int, seq<T>) -> T, consumed: bool, first: Step<T>, rest: Step<T>, n1: nat)
    requires s.output.Some?
    requires first.stream.options == s.options && first.stream.output.Some?
    requires first.stream.data == (if consumed then Next(s).rest else s.data)
    requires Flatten(first.observed) + first.stream.output.value.data
      == s.output.value.data + (if consumed then MapBatch(f, Next(s).batch) else [])
    requires rest.stream.data
      == ConsumeTimes(first.stream.data, BatchSize(first.stream), s.options.infinite, s.options.infiniteReset, n1).rest
    requires rest.stream.output.Some?
    requires Flatten(rest.observed) + rest.stream.output.value.data
      == first.stream.output.value.data
         + MappedBatches(f, first.stream.data, BatchSize(first.stream), s.options.infinite, s.options.infiniteReset, n1)
    ensures var n := (if consumed then 1 else 0) + n1;
      && rest.stream.data == ConsumeTimes(s.data, BatchSize(s), s.options.infinite, s.options.infiniteReset, n).rest
      && Flatten(first.observed + rest.observed) + rest.stream.output.value.data
           == s.output.value.data + MappedBatches(f, s.data, BatchSize(s), s.options.infinite, s.options.infiniteReset, n)
  {
    var bs, inf, reset := BatchSize(s), s.options.infinite, s.options.infiniteReset;
    assert BatchSize(first.stream) == bs;
    FlattenAppend(first.observed, rest.observed);
    var images := if consumed then MapBatch(f, Next(s).batch) else [];
    var later := MappedBatches(f, first.stream.data, bs, inf, reset, n1);
    if consumed {
      assert MappedBatches(f, s.data, bs, inf, reset, 1 + n1) == images + later;
      assert ConsumeTimes(s.data, bs, inf, reset, 1 + n1).rest == ConsumeTimes(Next(s).rest, bs, inf, reset, n1).rest;
    } else {
      assert images + later == later;
    }
    SpliceLaw(Flatten(first.observed), Flatten(rest.observed),
      first.stream.output.value.data, rest.stream.output.value.data,
      s.output.value.data, images, later);
  }

  /** How many batches `map` consumes when it is called: one when it
      activates an idle stream, none when the stream is already running. */
  function MapConsumes<T>(s: Stream<T>): nat
  {
    if s.active then 0 else 1
  }

  /** How many batches the mapping stream has consumed after `map` and
      then the timers in the given order: the one `map` takes from an idle
      stream, plus one per firing of its own timer. */
  function ChainConsumes<T>(s: Stream<T>, order: seq<bool>): nat
  {
    MapConsumes(s) + OwnTicks(order)
  }

  /** `map`, then `forEach` on the stream it returned, with everything
      observed along the way. */
  function MapForEach<T>(s: Stream<T>, f: (T, int, seq<T>) -> T): Step<T>
  {
    var r0 := Map(s, f);
    var r1 := Perform(r0.stream, OnOutput(ForEachCall));
    Step(r1.stream, None, r0.observed + r1.observed)
  }

  /** `map`, then `forEach` on the stream it returned, then the timers
      firing in the given order. */
  function MapForEachThen<T>(s: Stream<T>, f: (T, int, seq<T>) -> T, order: seq<bool>): Step<T>
  {
    var r1 := MapForEach(s, f);
    var r2 := RunTimers(r1.stream, order);
    Step(r2.stream, None, r1.observed + r2.observed)
  }

  /** `map`, then `forEach` on the stream it returned, then any interleaving
      of the two streams' timers: the forEach handler observes the mapped
      batches of the map stream's consumes, in order and none twice, and
      the output stream buffers the images it has not delivered yet. The
      consumes counted are the ticks plus the one `map` runs when it
      activates an idle stream. */
  lemma MapThenForEach<T>(s: Stream<T>, f: (T, int, seq<T>) -> T, order: seq<bool>)
    ensures var r := MapForEachThen(s, f, order);
      var k := ChainConsumes(s, order);
      && r.stream.data == ConsumeTimes(s.data, BatchSize(s), s.options.infinite, s.options.infiniteReset, k).rest
      && r.stream.output.Some?
      && Flatten(r.observed) + r.stream.output.value.data
           == MappedBatches(f, s.data, BatchSize(s), s.options.infinite, s.options.infiniteReset, k)
  {
    var r1 := MapForEach(s, f);
    var r2 := RunTimers(r1.stream, order);
    var n := OwnTicks(order);
    MapThenForEachSetup(s, f);
    ChainDelivery(r1.stream, f, order);
    ComposeChain(s, f, r1, r2, n);
    assert ChainConsumes(s, order) == MapConsumes(s) + n;
    assert MapForEachThen(s, f, order) == Step(r2.stream, None, r1.observed + r2.observed);
  }

  /** The bookkeeping behind `MapThenForEach`: what `map` consumed when it
      started, followed by what the timers consumed later. */
  lemma ComposeChain<T>(s: Stream<T>, f: (T, int, seq<T>) -> T, r1: Step<T>, r2: Step<T>, n: nat)
    requires r1.observed == [] && r1.stream.options == s.options && r1.stream.output.Some?
    requires s.active ==> r1.stream.data == s.data && r1.stream.output.value.data == []
    requires !s.active ==>
      r1.stream.data == Next(s).rest && r1.stream.output.value.data == MapBatch(f, Next(s).batch)
    requires r2.stream.data == ConsumeTimes(r1.stream.data, BatchSize(r1.stream), s.options.infinite, s.options.infiniteReset, n).rest
    requires r2.stream.output.Some?
    requires Flatten(r2.observed) + r2.stream.output.value.data
      == r1.stream.output.value.data + MappedBatches(f, r1.stream.data, BatchSize(r1.stream), s.options.infinite, s.options.infiniteReset, n)
    ensures var k := MapConsumes(s) + n;
      && r2.stream.data == ConsumeTimes(s.data, BatchSize(s), s.options.infinite, s.options.infiniteReset, k).rest
      && Flatten(r1.observed + r2.observed) + r2.stream.output.value.data
           == MappedBatches(f, s.data, BatchSize(s), s.options.infinite, s.options.infiniteReset, k)
  {
    assert r1.observed + r2.observed == r2.observed;
    assert BatchSize(r1.stream) == BatchSize(s);
  }

  /** Right after `map` and `forEach` on the returned stream nothing has
      been observed and the chain is ready for `ChainDelivery`. A running
      stream has consumed nothing; an idle one has consumed one batch,
      whose images wait in the output stream. */
  lemma MapThenForEachSetup<T>(s: Stream<T>, f: (T, int, seq<T>) -> T)
    ensures var r := MapForEach(s, f);
      && r.observed == []
      && r.stream.handler == Mapping(f) && r.stream.options == s.options
      && r.stream.output.Some? && r.stream.output.value.handler.Iterating?
      && !r.stream.output.value.options.infinite
      && (s.active ==> r.stream.data == s.data && r.stream.output.value.data == [])
      && (!s.active ==>
            r.stream.data == Next(s).rest && r.stream.output.value.data == MapBatch(f, Next(s).batch))
  {
    var r0 := Map(s, f);
    MapStartsOutput(s, f);
    var o := r0.stream.output.value;
    ForEachOnStartedOutput(o);
    assert Perform(r0.stream, OnOutput(ForEachCall)) == Step(r0.stream.(output := Some(ForEach(o).stream)), None, ForEach(o).observed);
  }

  /** What `map` leaves behind: nothing observed, and an output stream
      without a handler that is either running or empty. */
  lemma MapStartsOutput<T>(s: Stream<T>, f: (T, int, seq<T>) -> T)
    ensures var r := Map(s, f);
      && r.observed == []
      && r.stream.handler == Mapping(f) && r.stream.options == s.options
      && r.stream.output.Some? && r.stream.output.value.handler.Unset?
      && !r.stream.output.value.options.infinite
      && (r.stream.output.value.active || r.stream.output.value.data == [])
      && (s.active ==> r.stream.data == s.data && r.stream.output.value.data == [])
      && (!s.active ==>
            r.stream.data == Next(s).rest && r.stream.output.value.data == MapBatch(f, Next(s).batch))
  {
    var bs, inf, reset := BatchSize(s), s.options.infinite, s.options.infiniteReset;
    var out := NewStream(s.options.(infinite := false));
    var s1 := s.(output := Some(out), handler := Mapping(f));
    if s.active {
      assert Map(s, f) == Step(s1, None, []);
    } else if |s.data| == 0 {
      ConsumeEmpty(bs, inf, reset);
      assert Map(s, f) == Step(s1.(active := false), None, []);
      assert MapBatch(f, Next(s).batch) == [];
    } else {
      var c := Next(s);
      var images := MapBatch(f, c.batch);
      var pushed := Push(out, images);
      assert Map(s, f) == Tick(s1.(active := true));
      assert Next(s1.(active := true)) == c;
      assert Map(s, f) == Step(s1.(active := true, data := c.rest, output := Some(pushed.stream)), Some(c.batch), pushed.observed);
      MapOneBatchIntoFreshOutput(out, images);
    }
  }

  /** `forEach` on an output stream `map` just made: a running one only
      switches handler, an empty one ticks once and finds nothing, so
      either way nothing is observed and the buffer is kept. */
  lemma ForEachOnStartedOutput<T>(o: Stream<T>)
    requires o.handler.Unset? && (o.active || o.data == [])
    ensures var r := ForEach(o);
      && r.observed == [] && r.stream.data == o.data
      && r.stream.handler.Iterating? && r.stream.options == o.options
  {
  }

  /** Pushing into a fresh output stream, which has no handler, buffers
      the items, keeps the stream running, and observes nothing. */
  lemma MapOneBatchIntoFreshOutput<T>(out: Stream<T>, items: seq<T>)
    requires out.handler.Unset? && !out.active && out.data == []
    ensures var p := Push(out, items);
      && p.observed == [] && p.stream.data == items && p.stream.handler.Unset?
      && p.stream.options == out.options
      && (|items| > 0 ==> p.stream.active)
  {
  }

  /** Installing a forEach handler after a map replaces the map handler:
      later ticks no longer feed the output stream. */
  lemma ForEachReplacesMap<T>(s: Stream<T>, f: (T, int, seq<T>) -> T)
    ensures var e := ForEach(Map(s, f).stream).stream;
      && e.handler.Iterating?
      && Tick(e).stream.output == e.output
  {
  }

  /** Pushing [1, 2, 3] into a forEach stream with batch size 2: the push
      ticks at once and delivers [1, 2]; the next tick delivers [3]; the
      tick after that finds the buffer empty and deactivates the stream. */
  lemma PushThenDrain()
    ensures var s0 := ForEach(NewStream(StreamOptions(Some(10), Some(2), false, (x: int) => x))).stream;
      var p := Push(s0, [1, 2, 3]);
      var t1 := Tick(p.stream);
      var t2 := Tick(t1.stream);
      && p.observed == [[1, 2]]
      && t1.observed == [[3]]
      && t2.observed == [] && !t2.stream.active
  {
    var s0 := ForEach(NewStream(StreamOptions(Some(10), Some(2), false, (x: int) => x))).stream;
    assert !s0.active && s0.data == [];
    var p := Push(s0, [1, 2, 3]);
    var s1 := s0.(data := s0.data + [1, 2, 3], active := true);
    assert s1.data == [1, 2, 3];
    assert p == Tick(s1);
    assert Next(s1).batch == [1, 2];
    assert p.stream.data == [3];
    var t1 := Tick(p.stream);
    assert Next(p.stream).batch == [3];
  }
}
