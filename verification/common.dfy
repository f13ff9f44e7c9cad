/** Shared vocabulary of the chart-data generators: optional values, the two
    point shapes the generators emit, and JavaScript's `value || default`
    idiom for numeric options. */
module Common {

  /** An optional value: `None` stands for an absent (undefined) option or
      for an operation that throws in the original program. */
  datatype Option<+T> = None | Some(value: T) {
    function GetOr(default: T): T {
      match this
      case Some(v) => v
      case None => default
    }
  }

  /** An XY data point. */
  datatype Point = Point(x: real, y: real)

  /** The ordered tuple [x, open, high, low, close] used for trading data. */
  datatype XOHLC = XOHLC(x: real, open: real, high: real, low: real, close: real)

  /** A draw of `Math.random()`: a real in [0, 1). */
  predicate IsDraw(r: real) {
    0.0 <= r < 1.0
  }

  function Min(a: real, b: real): real { if a <= b then a else b }
  function Max(a: real, b: real): real { if a <= b then b else a }

  /** `r * (b - a) + a`: the point a draw `r` picks between `a` and `b`. */
  function Lerp(r: real, a: real, b: real): (y: real)
    ensures IsDraw(r) ==> Min(a, b) <= y <= Max(a, b)
    ensures IsDraw(r) && a < b ==> y < b
    ensures r == 0.0 ==> y == a
  {
    var m := r * (b - a);
    if IsDraw(r) then
      ScaleDraw(r, b - a, m);
      m + a
    else m + a
  }

  /** A draw scales a width `w` to a product `m` between zero (inclusive)
      and the width (exclusive), whatever the width's sign. */
  lemma ScaleDraw(r: real, w: real, m: real)
    requires IsDraw(r) && m == r * w
    ensures w >= 0.0 ==> 0.0 <= m <= w
    ensures w > 0.0 ==> m < w
    ensures w < 0.0 ==> w < m <= 0.0
  {
    if w > 0.0 {
      assert (1.0 - r) * w > 0.0;
    } else if w < 0.0 {
      assert (1.0 - r) * (-w) > 0.0;
      assert r * (-w) >= 0.0;
    }
  }

  /** `t0 + d * i`: term `i` of the progression that starts at `t0` and
      advances by `d` per index (timestamps, sampled x positions). */
  function Stamp(t0: real, d: real, i: int): real
  {
    t0 + d * i as real
  }

  /** `(r - 0.5) * 2`: a draw spread over [-1, 1). */
  function Jitter(r: real): (j: real)
    ensures IsDraw(r) <==> -1.0 <= j < 1.0
    ensures (j + 1.0) / 2.0 == r
  {
    (r - 0.5) * 2.0
  }

  /** A generated value that is both the output and the next state, for
      generators that remember their previous point. */
  function Emit<T>(p: T): (T, T)
  {
    (p, p)
  }

  /** The reset that adds the last point's coordinates to a point, or
      nothing when there is no last point (the source reads an undefined
      element and throws). */
  function AddLast(p: Point, data: seq<Point>): (r: Option<Point>)
    ensures r.None? <==> |data| == 0
    ensures r.Some? ==> r.value.x - p.x == data[|data| - 1].x && r.value.y - p.y == data[|data| - 1].y
  {
    if |data| == 0 then None
    else Some(Point(p.x + data[|data| - 1].x, p.y + data[|data| - 1].y))
  }

  /** The copies `AddLast` makes of the data keep every step between
      neighbours, and the first copy lies the first point's offset away
      from the last point: the data is re-attached at its own end. */
  lemma AddLastKeepsSteps(data: seq<Point>, k: nat)
    requires 0 < k < |data|
    ensures var a, b := AddLast(data[k - 1], data).value, AddLast(data[k], data).value;
      b.x - a.x == data[k].x - data[k - 1].x && b.y - a.y == data[k].y - data[k - 1].y
    ensures var first := AddLast(data[0], data).value;
      first.x - data[|data| - 1].x == data[0].x && first.y - data[|data| - 1].y == data[0].y
  {
  }

  /** The reset of the generators whose points sit on an index axis: the
      point moves right by the length of the data and keeps its y. */
  function ShiftByLength(p: Point, data: seq<Point>): (r: Point)
    ensures r.y == p.y
    ensures r.x - p.x == |data| as real
  {
    Point(p.x + |data| as real, p.y)
  }

  /** Data at x = 0 .. n-1 continues at x = n .. 2n-1 after the reset, and
      the copies land on no x the data already uses. */
  lemma ShiftContinuesIndexAxis(data: seq<Point>, j: nat, k: nat)
    requires j < |data| && k < |data|
    requires forall i :: 0 <= i < |data| ==> data[i].x == i as real
    ensures ShiftByLength(data[k], data).x == (|data| + k) as real
    ensures ShiftByLength(data[k], data).x != data[j].x
  {
  }

  /** The next term is one step of `d` further on, so adding `d` to a
      running value keeps it on the progression. */
  lemma StampNext(t0: real, d: real, i: int)
    ensures Stamp(t0, d, i + 1) == Stamp(t0, d, i) + d
  {
    assert d * (i + 1) as real == d * i as real + d;
  }

  /** `opt || default` for an integer option: undefined and 0 are falsy. */
  function OrInt(opt: Option<int>, default: int): (v: int)
    ensures opt.None? || opt.value == 0 ==> v == default
    ensures opt.Some? && opt.value != 0 ==> v == opt.value
  {
    match opt
    case Some(n) => if n != 0 then n else default
    case None => default
  }

  /** `opt || default` for a real option: undefined and 0 are falsy. */
  function OrReal(opt: Option<real>, default: real): (v: real)
    ensures opt.None? || opt.value == 0.0 ==> v == default
    ensures opt.Some? && opt.value != 0.0 ==> v == opt.value
  {
    match opt
    case Some(r) => if r != 0.0 then r else default
    case None => default
  }

  function Abs(r: real): (a: real)
    ensures a >= 0.0 && (a == r || a == -r)
  {
    if r < 0.0 then -r else r
  }

  /** `Math.ceil` on a real. */
  function Ceil(r: real): (c: int)
    ensures c as real >= r > c as real - 1.0
  {
    -((-r).Floor)
  }

  /** `Math.trunc`: rounds toward zero. */
  function Trunc(r: real): (t: int)
    ensures 0.0 <= r ==> 0.0 <= t as real <= r < t as real + 1.0
    ensures r < 0.0 ==> t as real - 1.0 < r <= t as real <= 0.0
  {
    if r >= 0.0 then r.Floor else -((-r).Floor)
  }

  /** JavaScript's `%` on numbers: the remainder of truncating division,
      which takes the sign of the dividend and is smaller in magnitude than
      the divisor. */
  function FMod(a: real, b: real): (m: real)
    requires b != 0.0
    ensures a - m == Trunc(a / b) as real * b
    ensures a >= 0.0 ==> 0.0 <= m < Abs(b)
    ensures a < 0.0 ==> -Abs(b) < m <= 0.0
    ensures 0.0 <= a < Abs(b) ==> m == a
  {
    RemainderBounds(a, b);
    SmallQuotient(a, b);
    a - Trunc(a / b) as real * b
  }

  /** The remainder `a - trunc(a / b) * b` lies between zero and the
      divisor's magnitude, on the side of the dividend's sign. */
  lemma RemainderBounds(a: real, b: real)
    requires b != 0.0
    ensures var m := a - Trunc(a / b) as real * b;
      && (a >= 0.0 ==> 0.0 <= m < Abs(b))
      && (a < 0.0 ==> -Abs(b) < m <= 0.0)
  {
    QuotientSign(a, b);
    var t := Trunc(a / b) as real;
    if b > 0.0 && 0.0 <= a {
      RemainderPositive(a, b, t);
    } else if b > 0.0 {
      RemainderNegative(a, b, t);
    } else if 0.0 <= a {
      RemainderPositiveByNegative(a, b, t);
    } else {
      RemainderNegativeByNegative(a, b, t);
    }
  }

  /** The four sign cases, for a `t` within one of the quotient. */
  lemma RemainderPositive(a: real, b: real, t: real)
    requires 0.0 < b && 0.0 <= a / b - t < 1.0
    ensures 0.0 <= a - t * b < b
  {
    var r := a / b - t;
    Distribute(a, b, t);
    assert r * b == a - t * b;
    ScaleUnit(r, b);
  }

  lemma RemainderNegative(a: real, b: real, t: real)
    requires 0.0 < b && -1.0 < a / b - t <= 0.0
    ensures -b < a - t * b <= 0.0
  {
    var r := a / b - t;
    Distribute(a, b, t);
    assert r * b == a - t * b;
    ScaleNegative(r, b);
  }

  lemma RemainderPositiveByNegative(a: real, b: real, t: real)
    requires b < 0.0 && -1.0 < a / b - t <= 0.0
    ensures 0.0 <= a - t * b < -b
  {
    var r := a / b - t;
    Distribute(a, b, t);
    assert r * b == a - t * b;
    ScaleNegativeByNegative(r, b);
  }

  lemma RemainderNegativeByNegative(a: real, b: real, t: real)
    requires b < 0.0 && 0.0 <= a / b - t < 1.0
    ensures b < a - t * b <= 0.0
  {
    var r := a / b - t;
    Distribute(a, b, t);
    assert r * b == a - t * b;
    ScaleByNegative(r, b);
  }

  lemma Distribute(a: real, b: real, t: real)
    requires b != 0.0
    ensures (a / b - t) * b == a - t * b
  {
    assert a / b * b == a;
  }

  lemma QuotientSign(a: real, b: real)
    requires b != 0.0
    ensures b > 0.0 ==> (0.0 <= a / b <==> 0.0 <= a)
    ensures b < 0.0 ==> (0.0 <= a / b <==> a <= 0.0)
    ensures a == 0.0 ==> a / b == 0.0
  {
  }

  /** Scaling by a fraction of one keeps a number within its magnitude;
      the three lemmas after it are the same fact for the other signs. */
  lemma ScaleUnit(r: real, b: real)
    requires 0.0 <= r < 1.0 && b > 0.0
    ensures 0.0 <= r * b < b
  {
    assert b - r * b == (1.0 - r) * b;
  }

  lemma ScaleByNegative(r: real, b: real)
    requires 0.0 <= r < 1.0 && b < 0.0
    ensures b < r * b <= 0.0
  {
    ScaleUnit(r, -b);
    assert r * (-b) == -(r * b);
  }

  lemma ScaleNegative(r: real, b: real)
    requires -1.0 < r <= 0.0 && b > 0.0
    ensures -b < r * b <= 0.0
  {
    ScaleUnit(-r, b);
    assert (-r) * b == -(r * b);
  }

  lemma ScaleNegativeByNegative(r: real, b: real)
    requires -1.0 < r <= 0.0 && b < 0.0
    ensures 0.0 <= r * b < -b
  {
    ScaleUnit(-r, -b);
    assert (-r) * (-b) == r * b;
  }

  lemma SmallQuotient(a: real, b: real)
    requires b != 0.0
    ensures 0.0 <= a < Abs(b) ==> Trunc(a / b) == 0
  {
    if 0.0 <= a < Abs(b) {
      if b > 0.0 {
        assert a / b < 1.0 by { assert a < b; }
      } else {
        assert -1.0 < a / b by { assert a < -b; }
      }
    }
  }

  /** The elementwise image of a sequence (`xs.map(f)`). */
  function MapSeq<A, B>(f: A -> B, xs: seq<A>): (ys: seq<B>)
    ensures |ys| == |xs|
    ensures forall i :: 0 <= i < |xs| ==> ys[i] == f(xs[i])
  {
    seq(|xs|, i requires 0 <= i < |xs| => f(xs[i]))
  }

  /** The concatenation of a sequence of sequences. */
  function Flatten<T>(xss: seq<seq<T>>): seq<T>
  {
    if |xss| == 0 then [] else xss[0] + Flatten(xss[1..])
  }

  lemma {:induction false} FlattenSnoc<T>(xss: seq<seq<T>>, xs: seq<T>)
    ensures Flatten(xss + [xs]) == Flatten(xss) + xs
  {
    if |xss| == 0 {
      assert xss + [xs] == [xs];
    } else {
      assert (xss + [xs])[1..] == xss[1..] + [xs];
      FlattenSnoc(xss[1..], xs);
    }
  }

  /** Concatenation is associative. */
  lemma AppendAssoc<T>(a: seq<T>, b: seq<T>, c: seq<T>)
    ensures a + b + c == a + (b + c)
  {
  }

  lemma {:induction false} FlattenAppend<T>(a: seq<seq<T>>, b: seq<seq<T>>)
    ensures Flatten(a + b) == Flatten(a) + Flatten(b)
    decreases |a|
  {
    if |a| == 0 {
      assert a + b == b;
    } else {
      assert (a + b)[1..] == a[1..] + b;
      FlattenAppend(a[1..], b);
    }
  }
}
