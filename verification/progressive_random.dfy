/** The progressive random generator of src/generators/progressiveRandom.ts:
    one loop builds the whole array. Point `i` lies just below
    `curStep = step * (i + 1)`, and its y averages a fresh draw with a level
    that is redrawn every `randomStep` indices. */
module ProgressiveRandom {
  import opened Common

  /** The generator's arguments: every field may be undefined. */
  datatype ProgressiveRandomArgs = ProgressiveRandomArgs(
    numberOfPoints: Option<int>,
    randomStep: Option<int>,
    step: Option<real>)

  /** `{}`. */
  const NoArgs := ProgressiveRandomArgs(None, None, None)

  /** The `Math.random()` values of one run: the level drawn before the
      loop, and at index `i` the level drawn when it is redrawn there, the
      draw for x and the draw for y, in the order the loop takes them. */
  datatype RandomDraws = RandomDraws(initial: real, level: int -> real, rx: int -> real, ry: int -> real)

  ghost predicate ValidDraws(d: RandomDraws)
  {
    IsDraw(d.initial)
    && (forall i :: IsDraw(d.level(i)))
    && (forall i :: IsDraw(d.rx(i)))
    && (forall i :: IsDraw(d.ry(i)))
  }

  /** `numberOfPoints || 10000`. */
  function Count(args: ProgressiveRandomArgs): (n: int)
    ensures args.numberOfPoints.None? || args.numberOfPoints == Some(0) ==> n == 10000
    ensures args.numberOfPoints.Some? && args.numberOfPoints.value != 0 ==> n == args.numberOfPoints.value
  {
    OrInt(args.numberOfPoints, 10000)
  }

  /** `randomStep || 250`: never zero. */
  function RandomStep(args: ProgressiveRandomArgs): (rs: int)
    ensures args.randomStep.None? || args.randomStep == Some(0) ==> rs == 250
    ensures args.randomStep.Some? && args.randomStep.value != 0 ==> rs == args.randomStep.value
    ensures rs != 0
  {
    OrInt(args.randomStep, 250)
  }

  /** `step || 1`: never zero. */
  function Step(args: ProgressiveRandomArgs): (s: real)
    ensures args.step.None? || args.step == Some(0.0) ==> s == 1.0
    ensures args.step.Some? && args.step.value != 0.0 ==> s == args.step.value
    ensures s != 0.0
  {
    OrReal(args.step, 1.0)
  }

  /** The index at or before `i` where the level in use at `i` was drawn:
      the loop redraws exactly at the indices divisible by the random step,
      index 0 among them. */
  function LastRedraw(rs: int, i: nat): (j: nat)
    requires rs != 0
    ensures j <= i && j % rs == 0
    ensures j == i <==> i % rs == 0
  {
    if i % rs == 0 then i else LastRedraw(rs, i - 1)
  }

  /** No index after the last redraw, up to `i`, is a redraw index: the
      level in use is the latest one drawn. */
  lemma {:induction false} LastRedrawIsLatest(rs: int, i: nat, j: nat)
    requires rs != 0
    requires LastRedraw(rs, i) < j <= i
    ensures j % rs != 0
  {
    if i % rs != 0 && j < i {
      LastRedrawIsLatest(rs, i - 1, j);
    }
  }

  /** `curStep` at index `i`: the step added up `i + 1` times. */
  function CurStep(args: ProgressiveRandomArgs, i: int): real
  {
    Stamp(Step(args), Step(args), i)
  }

  /** `curStep` at index `i` is `step * (i + 1)`, and is never zero at an
      index of the loop. */
  lemma CurStepIsMultiple(args: ProgressiveRandomArgs, i: nat)
    ensures CurStep(args, i) == Step(args) * (i + 1) as real
    ensures CurStep(args, i) != 0.0
  {
    var s := Step(args);
    assert s + s * i as real == s * (i + 1) as real;
    if s > 0.0 {
      assert s * (i + 1) as real > 0.0;
    } else {
      assert (-s) * (i + 1) as real > 0.0;
    }
  }

  /** The point the loop pushes at index `i`: x lies in the upper half of
      the running step (just below it when the step is at least 1), and y
      is the mean of two draws. */
  function PointAt(args: ProgressiveRandomArgs, d: RandomDraws, i: nat): (p: Point)
    ensures IsDraw(d.rx(i)) ==> CurStep(args, i) - Abs(CurStep(args, i)) / 2.0 < p.x <= CurStep(args, i)
    ensures IsDraw(d.rx(i)) && Step(args) >= 1.0 ==> CurStep(args, i) - 0.5 < p.x <= CurStep(args, i)
    ensures IsDraw(d.ry(i)) && IsDraw(d.level(LastRedraw(RandomStep(args), i))) ==> 0.0 <= p.y < 1.0
  {
    var cur := CurStep(args, i);
    CurStepIsMultiple(args, i);
    assert Step(args) >= 1.0 ==> Step(args) * (i + 1) as real >= Step(args);
    Point(cur - FMod(d.rx(i), cur) / 2.0, (d.ry(i) + d.level(LastRedraw(RandomStep(args), i))) / 2.0)
  }

  /** The data of a run: one point per index below the count. */
  function Series(args: ProgressiveRandomArgs, d: RandomDraws): (data: seq<Point>)
    ensures |data| == if Count(args) > 0 then Count(args) else 0
  {
    var n := if Count(args) > 0 then Count(args) else 0;
    seq(n, i requires 0 <= i < n => PointAt(args, d, i))
  }

  /** `generator(args)`: the loop. Its data is the series, so the level
      drawn before the loop never reaches the data: index 0 always redraws
      it. */
  method Generator(args: ProgressiveRandomArgs, d: RandomDraws) returns (data: seq<Point>)
    ensures data == Series(args, d)
  {
    var numberOfPoints := Count(args);
    var randomStep := RandomStep(args);
    var step := Step(args);
    var random := d.initial;
    var curStep := step;
    data := [];
    var i := 0;
    while i < numberOfPoints
      invariant 0 <= i && (if numberOfPoints > 0 then i <= numberOfPoints else i == 0)
      invariant curStep == CurStep(args, i)
      invariant i > 0 ==> random == d.level(LastRedraw(randomStep, i - 1))
      invariant |data| == i
      invariant forall k :: 0 <= k < i ==> data[k] == PointAt(args, d, k)
    {
      if i % randomStep == 0 {
        random := d.level(i);
      }
      CurStepIsMultiple(args, i);
      data := data + [Point(curStep - FMod(d.rx(i), curStep) / 2.0, (d.ry(i) + random) / 2.0)];
      StampNext(step, step, i);
      curStep := curStep + step;
      i := i + 1;
    }
  }

  /** Every y lies in [0, 1): the average of two draws. */
  lemma SeriesWithinUnitRange(args: ProgressiveRandomArgs, d: RandomDraws, k: nat)
    requires ValidDraws(d)
    requires k < |Series(args, d)|
    ensures 0.0 <= Series(args, d)[k].y < 1.0
  {
    assert IsDraw(d.level(LastRedraw(RandomStep(args), k)));
    assert IsDraw(d.ry(k));
  }

  /** With a step of at least one every x lies in (curStep - 0.5, curStep]:
      the draw is below `curStep`, so the remainder is the draw itself. */
  lemma SeriesNearCurStep(args: ProgressiveRandomArgs, d: RandomDraws, k: nat)
    requires ValidDraws(d)
    requires Step(args) >= 1.0
    requires k < |Series(args, d)|
    ensures CurStep(args, k) - 0.5 < Series(args, d)[k].x <= CurStep(args, k)
  {
    var cur := CurStep(args, k);
    CurStepIsMultiple(args, k);
    assert Step(args) * (k + 1) as real >= Step(args);
    assert IsDraw(d.rx(k));
    assert FMod(d.rx(k), cur) == d.rx(k);
  }

  /** Points between two redraws share their level: with no redraw index in
      (i, j], index `j` uses the level drawn for index `i`. */
  lemma {:induction false} LevelKept(rs: int, i: nat, j: nat)
    requires rs != 0
    requires i <= j
    requires forall m :: i < m <= j ==> m % rs != 0
    ensures LastRedraw(rs, j) == LastRedraw(rs, i)
    decreases j - i
  {
    if i < j {
      LevelKept(rs, i, j - 1);
    }
  }
}
