/** The chunked generation scheduler of src/dataGenerator.ts.

    `generate()` creates a host and schedules `generateChunks(0, total)`;
    every chunk generates points for consecutive indices while its time
    budget lasts, pushes them to the host in one call, and either
    reschedules itself at the reached index or freezes the host.

    The clock is replaced by an oracle: the budget of a chunk is the number
    of loop iterations for which `Date.now() - startTime < 15` holds (the
    elapsed time only grows, so once the test fails it keeps failing).
    A generator is a state-threading function `next(state, index)`, so
    generators that remember their previous point fit the same shape. */
module Scheduler {
  import opened Common

  /** A call the scheduler makes on the host. */
  datatype HostCall<T> = PushCall(points: seq<T>) | FreezeCall

  /** The stream settings `generate` gives a new host. */
  datatype HostOptions = HostOptions(interval: int, batchSize: int, repeat: bool)

  const GenerateOptions := HostOptions(500, 10, false)

  /** `n` points for indices `from`, `from + 1`, ... and the final state. */
  function Produce<S, T>(next: (S, int) -> (S, T), s: S, from: int, n: nat): (r: (S, seq<T>))
    ensures |r.1| == n
    decreases n
  {
    if n == 0 then (s, [])
    else
      var first := next(s, from);
      var rest := Produce(next, first.0, from + 1, n - 1);
      (rest.0, [first.1] + rest.1)
  }

  /** Producing `a + b` points is producing `a` and then `b` more from the
      state and index reached. */
  lemma {:induction false} ProduceAppend<S, T>(next: (S, int) -> (S, T), s: S, from: int, a: nat, b: nat)
    ensures var first := Produce(next, s, from, a);
      var second := Produce(next, first.0, from + a, b);
      Produce(next, s, from, a + b) == (second.0, first.1 + second.1)
    decreases a
  {
    if a > 0 {
      var step := next(s, from);
      ProduceAppend(next, step.0, from + 1, a - 1, b);
      var first' := Produce(next, step.0, from + 1, a - 1);
      assert Produce(next, s, from, a) == (first'.0, [step.1] + first'.1);
      var whole := Produce(next, step.0, from + 1, a - 1 + b);
      assert Produce(next, s, from, a + b) == (whole.0, [step.1] + whole.1);
      var second := Produce(next, first'.0, from + 1 + (a - 1), b);
      assert from + 1 + (a - 1) == from + a;
      assert whole == (second.0, first'.1 + second.1);
      assert [step.1] + (first'.1 + second.1) == ([step.1] + first'.1) + second.1;
    } else {
      var second := Produce(next, s, from, b);
      assert [] + second.1 == second.1;
    }
  }

  lemma ProduceOne<S, T>(next: (S, int) -> (S, T), s: S, from: int)
    ensures Produce(next, s, from, 1) == (next(s, from).0, [next(s, from).1])
  {
    var step := next(s, from);
    assert Produce(next, step.0, from + 1, 0) == (step.0, []);
    assert [step.1] + [] == [step.1];
  }

  /** Producing one more point applies the generator once more, to the
      state and index reached. */
  lemma ProduceSnoc<S, T>(next: (S, int) -> (S, T), s: S, from: int, n: nat)
    ensures var p := Produce(next, s, from, n);
      var q := next(p.0, from + n);
      Produce(next, s, from, n + 1) == (q.0, p.1 + [q.1])
  {
    ProduceAppend(next, s, from, n, 1);
    ProduceOne(next, Produce(next, s, from, n).0, from + n);
  }

  /** Point `k` of a run is what the generator returns for index
      `from + k` in the state the first `k` points left behind. */
  lemma ProducePoint<S, T>(next: (S, int) -> (S, T), s: S, from: int, n: nat, k: nat)
    requires k < n
    ensures Produce(next, s, from, n).1[k] == next(Produce(next, s, from, k).0, from + k).1
  {
    ProduceAppend(next, s, from, k, n - k);
    var p := Produce(next, s, from, k);
    var q := next(p.0, from + k);
    assert Produce(next, p.0, from + k, n - k).1[0] == q.1;
  }

  /** A property of the state that every step preserves holds after any
      number of points. */
  lemma {:induction false} ProduceInvariant<S, T>(next: (S, int) -> (S, T), inv: S -> bool, s: S, from: int, n: nat)
    requires inv(s)
    requires forall t, i :: inv(t) ==> inv(next(t, i).0)
    ensures inv(Produce(next, s, from, n).0)
    decreases n
  {
    if n > 0 {
      ProduceInvariant(next, inv, next(s, from).0, from + 1, n - 1);
    }
  }

  /** A generator whose output is also its next state, built from the
      function computing the next point from the previous one. */
  function Emitting<S>(f: (S, int) -> S): (S, int) -> (S, S)
  {
    (t: S, i: int) => Emit(f(t, i))
  }

  /** Point `k` of such a generator is `f` applied to the state the first
      `k` points left behind. */
  lemma EmittingPoint<S>(f: (S, int) -> S, s: S, from: int, n: nat, k: nat)
    requires k < n
    ensures Produce(Emitting(f), s, from, n).1[k] == f(Produce(Emitting(f), s, from, k).0, from + k)
  {
    ProducePoint(Emitting(f), s, from, n, k);
  }

  /** A property of points that `f` preserves holds of the state after
      any number of points. */
  lemma EmittingInvariant<S>(f: (S, int) -> S, inv: S -> bool, s: S, from: int, n: nat)
    requires inv(s)
    requires forall t, i :: inv(t) ==> inv(f(t, i))
    ensures inv(Produce(Emitting(f), s, from, n).0)
  {
    forall t, i | inv(t)
      ensures inv(Emitting(f)(t, i).0)
    {
      assert Emitting(f)(t, i).0 == f(t, i);
    }
    ProduceInvariant(Emitting(f), inv, s, from, n);
  }

  /** For such a generator the state after `k` points is point `k - 1`. */
  lemma StateIsLastOutput<S>(f: (S, int) -> S, s: S, from: int, n: nat, k: nat)
    requires 0 < k <= n
    ensures Produce(Emitting(f), s, from, k).0 == Produce(Emitting(f), s, from, n).1[k - 1]
  {
    var prev := Produce(Emitting(f), s, from, k - 1).0;
    ProducePoint(Emitting(f), s, from, n, k - 1);
    ProduceSnoc(Emitting(f), s, from, k - 1);
    assert Produce(Emitting(f), s, from, k).0 == f(prev, from + (k - 1));
  }

  /** How many points a chunk with this budget generates: it stops at the
      budget or at `total`, whichever comes first. */
  function ChunkSize(baseIndex: int, total: int, budget: nat): (n: nat)
    ensures n <= budget
    ensures baseIndex < total ==> baseIndex + n <= total
    ensures baseIndex >= total ==> n == 0
  {
    if baseIndex >= total then 0
    else if budget < total - baseIndex then budget
    else total - baseIndex
  }

  /** The loop of `generateChunks`: generate points while the budget lasts
      and the index is below `total`. Returns the points in generation
      order, the generator state and the index reached. */
  method GenerateChunk<S, T>(next: (S, int) -> (S, T), s: S, baseIndex: int, total: int, budget: nat)
    returns (points: seq<T>, state: S, reached: int)
    ensures reached == baseIndex + ChunkSize(baseIndex, total, budget)
    ensures baseIndex <= total ==> reached <= total
    ensures (state, points) == Produce(next, s, baseIndex, ChunkSize(baseIndex, total, budget))
  {
    var i := 0;
    points, state, reached := [], s, baseIndex;
    while i < budget && reached < total
      invariant 0 <= i <= budget
      invariant reached == baseIndex + i
      invariant i <= ChunkSize(baseIndex, total, budget)
      invariant (state, points) == Produce(next, s, baseIndex, i)
      decreases budget - i
    {
      var step := next(state, reached);
      ProduceAppend(next, s, baseIndex, i, 1);
      ProduceOne(next, state, reached);
      state, points := step.0, points + [step.1];
      reached, i := reached + 1, i + 1;
    }
  }

  /** The host calls made by the chunks that run, one chunk per budget:
      each chunk pushes once, then either the next chunk resumes at the
      reached index or the host is frozen. When the budgets run out before
      `total` is reached, the remaining chunks have not run yet. */
  function Schedule<S, T>(next: (S, int) -> (S, T), s: S, baseIndex: int, total: int, budgets: seq<nat>)
    : (calls: seq<HostCall<T>>)
    ensures |calls| <= |budgets| + 1
    ensures |budgets| > 0 ==> |calls| > 0 && calls[0].PushCall?
    ensures forall i :: 0 <= i < |calls| && calls[i].FreezeCall? ==> i == |calls| - 1
    decreases |budgets|
  {
    if |budgets| == 0 then []
    else
      var n := ChunkSize(baseIndex, total, budgets[0]);
      var chunk := Produce(next, s, baseIndex, n);
      if baseIndex + n < total then
        [PushCall(chunk.1)] + Schedule(next, chunk.0, baseIndex + n, total, budgets[1..])
      else
        [PushCall(chunk.1), FreezeCall]
  }

  /** The points of the push calls, in call order. */
  function Pushes<T>(calls: seq<HostCall<T>>): seq<seq<T>>
    decreases |calls|
  {
    if |calls| == 0 then []
    else (if calls[0].PushCall? then [calls[0].points] else []) + Pushes(calls[1..])
  }

  predicate Frozen<T>(calls: seq<HostCall<T>>)
  {
    exists i :: 0 <= i < |calls| && calls[i].FreezeCall?
  }

  /** Points still to generate from `baseIndex`. */
  function Remaining(baseIndex: int, total: int): nat
  {
    if baseIndex < total then total - baseIndex else 0
  }

  /** A push in front adds its points in front of the pushed points and
      does not freeze the host. */
  lemma PushInFront<T>(points: seq<T>, rest: seq<HostCall<T>>)
    ensures Flatten(Pushes([PushCall(points)] + rest)) == points + Flatten(Pushes(rest))
    ensures Frozen([PushCall(points)] + rest) <==> Frozen(rest)
  {
    var calls := [PushCall(points)] + rest;
    assert calls[1..] == rest;
    assert Pushes(calls) == [points] + Pushes(rest);
    if Frozen(calls) {
      var i :| 0 <= i < |calls| && calls[i].FreezeCall?;
      assert rest[i - 1].FreezeCall?;
    }
    if Frozen(rest) {
      var i :| 0 <= i < |rest| && rest[i].FreezeCall?;
      assert calls[i + 1].FreezeCall?;
    }
  }

  /** The last chunk's calls: its push and the freeze. */
  lemma LastChunk<T>(points: seq<T>)
    ensures Flatten(Pushes([PushCall(points), FreezeCall])) == points
    ensures Frozen([PushCall(points), FreezeCall])
  {
    var calls := [PushCall(points), FreezeCall];
    assert Pushes(calls) == [points] + Pushes(calls[1..]);
    assert Pushes(calls[1..]) == [] + Pushes(calls[2..]);
    assert calls[1].FreezeCall?;
  }

  /** Whatever the budgets, the pushed points concatenated are a prefix of
      the points for indices `baseIndex .. total - 1` in order, and the
      host is frozen exactly when some chunk ran and all of them have been
      pushed. */
  lemma {:induction false} SchedulePrefix<S, T>(next: (S, int) -> (S, T), s: S, baseIndex: int, total: int, budgets: seq<nat>)
    ensures var calls := Schedule(next, s, baseIndex, total, budgets);
      var all := Produce(next, s, baseIndex, Remaining(baseIndex, total)).1;
      && Flatten(Pushes(calls)) <= all
      && (Frozen(calls) <==> |budgets| > 0 && Flatten(Pushes(calls)) == all)
    decreases |budgets|
  {
    var calls := Schedule(next, s, baseIndex, total, budgets);
    var all := Produce(next, s, baseIndex, Remaining(baseIndex, total)).1;
    if |budgets| > 0 {
      var n := ChunkSize(baseIndex, total, budgets[0]);
      var chunk := Produce(next, s, baseIndex, n);
      var s1, points := chunk.0, chunk.1;
      if baseIndex + n < total {
        var rest := Schedule(next, s1, baseIndex + n, total, budgets[1..]);
        assert calls == [PushCall(points)] + rest;
        PushInFront(points, rest);
        SchedulePrefix(next, s1, baseIndex + n, total, budgets[1..]);
        var more := Remaining(baseIndex + n, total);
        ProduceAppend(next, s, baseIndex, n, more);
        assert n + more == Remaining(baseIndex, total);
        var tail := Produce(next, s1, baseIndex + n, more).1;
        assert all == points + tail;
        if |budgets[1..]| == 0 {
          assert |tail| > 0;
        }
      } else {
        assert n == Remaining(baseIndex, total);
        assert calls == [PushCall(points), FreezeCall];
        LastChunk(points);
      }
    }
  }

  /** If every chunk can generate at least one point and enough chunks
      run, the calls are pushes followed by exactly one freeze, and the
      pushes concatenated are the points for `baseIndex .. total - 1`. */
  lemma {:induction false} ScheduleCompletes<S, T>(next: (S, int) -> (S, T), s: S, baseIndex: int, total: int, budgets: seq<nat>)
    requires forall i :: 0 <= i < |budgets| ==> budgets[i] >= 1
    requires |budgets| > Remaining(baseIndex, total) || (|budgets| > 0 && |budgets| == Remaining(baseIndex, total))
    ensures var calls := Schedule(next, s, baseIndex, total, budgets);
      && Frozen(calls)
      && calls[|calls| - 1].FreezeCall?
      && (forall i :: 0 <= i < |calls| - 1 ==> calls[i].PushCall?)
      && Flatten(Pushes(calls)) == Produce(next, s, baseIndex, Remaining(baseIndex, total)).1
    decreases |budgets|
  {
    var calls := Schedule(next, s, baseIndex, total, budgets);
    SchedulePrefix(next, s, baseIndex, total, budgets);
    var n := ChunkSize(baseIndex, total, budgets[0]);
    var chunk := Produce(next, s, baseIndex, n);
      var s1, points := chunk.0, chunk.1;
    if baseIndex + n < total {
      assert n >= 1;
      ScheduleCompletes(next, s1, baseIndex + n, total, budgets[1..]);
      var rest := Schedule(next, s1, baseIndex + n, total, budgets[1..]);
      assert calls == [PushCall(points)] + rest;
      assert rest[|rest| - 1].FreezeCall?;
      assert Frozen(calls) by { assert calls[|calls| - 1].FreezeCall?; }
    } else {
      assert calls == [PushCall(points), FreezeCall];
      assert calls[1].FreezeCall?;
    }
  }

  /** With nothing to generate the first chunk pushes an empty batch and
      freezes the host straight away. */
  lemma NothingToGenerate<S, T>(next: (S, int) -> (S, T), s: S, baseIndex: int, total: int, budgets: seq<nat>)
    requires total <= baseIndex && |budgets| > 0
    ensures Schedule(next, s, baseIndex, total, budgets) == [PushCall([]), FreezeCall]
  {
  }

  /** `generate`: the host's stream settings and the calls the chunks make
      on it, starting from index 0 with `total` set to the point count. */
  function Generate<S, T>(pointCount: int, next: (S, int) -> (S, T), s0: S, budgets: seq<nat>)
    : (r: (HostOptions, seq<HostCall<T>>))
    ensures r.0 == HostOptions(500, 10, false)
    ensures forall i :: 0 <= i < |r.1| && r.1[i].FreezeCall? ==> i == |r.1| - 1
    ensures Flatten(Pushes(r.1)) <= Produce(next, s0, 0, Remaining(0, pointCount)).1
  {
    SchedulePrefix(next, s0, 0, pointCount, budgets);
    (GenerateOptions, Schedule(next, s0, 0, pointCount, budgets))
  }

  /** More points than one budget but no more than two: the first chunk
      pushes points 0 .. b - 1, the second the rest, and then the host is
      frozen. */
  lemma TwoChunks<S, T>(next: (S, int) -> (S, T), s0: S, total: nat, b: nat)
    requires b < total <= 2 * b
    ensures var calls := Schedule(next, s0, 0, total, [b, b]);
      var all := Produce(next, s0, 0, total);
      && |calls| == 3
      && calls[0] == PushCall(all.1[..b])
      && calls[1] == PushCall(all.1[b..])
      && calls[2] == FreezeCall
  {
    var first := Produce(next, s0, 0, b);
    var second := Produce(next, first.0, b, total - b);
    assert [b, b][1..] == [b];
    assert Schedule(next, first.0, b, total, [b]) == [PushCall(second.1), FreezeCall];
    ProduceAppend(next, s0, 0, b, total - b);
    assert Produce(next, s0, 0, total).1 == first.1 + second.1;
  }
}
