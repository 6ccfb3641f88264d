/** The mouse motion integrator: axis values times gain are added into two real
    accumulators; each tick the integer part (truncated toward zero) of an
    accumulator that reached magnitude 1 is moved out and emitted as one relative
    move, and the fractional remainder is carried to the next tick. */
module Mouse {
  import opened Events

  /** Python's `int(r)` on a float: truncation toward zero. */
  function Trunc(r: real): (n: int)
    ensures r >= 0.0 ==> 0.0 <= n as real <= r < n as real + 1.0
    ensures r < 0.0 ==> n as real - 1.0 < r <= n as real <= 0.0
  {
    if r >= 0.0 then r.Floor else -((-r).Floor)
  }

  /** An accumulator split into the part moved out and the part kept. */
  datatype Carried = Carried(whole: int, rest: real)

  /** `if int(abs(acc)) > 0: whole = int(acc); acc -= int(acc)`. Nothing is lost,
      the remainder is below 1 in magnitude and has the sign of the input, and an
      integer part is moved out exactly when the accumulator reached magnitude 1. */
  function Carry(acc: real): (c: Carried)
    ensures c.whole as real + c.rest == acc
    ensures -1.0 < c.rest < 1.0
    ensures c.whole != 0 <==> Abs(acc) >= 1.0
    ensures acc >= 0.0 ==> c.whole >= 0 && c.rest >= 0.0
    ensures acc <= 0.0 ==> c.whole <= 0 && c.rest <= 0.0
  {
    if Trunc(Abs(acc)) > 0 then Carried(Trunc(acc), acc - Trunc(acc) as real) else Carried(0, acc)
  }

  /** What one mapping adds to its accumulator: its axis value times its gain. */
  function Share(m: MouseMapping, axes: map<string, real>): (s: real)
    requires m.axis in axes
  {
    axes[m.axis] * m.gain
  }

  /** The sum of axis value times gain over the mappings whose target is `target`,
      in mapping order. Only the axes of those mappings are read; mappings with
      another target contribute nothing. */
  function Increment(ms: seq<MouseMapping>, target: string, axes: map<string, real>): (inc: real)
    requires forall i | 0 <= i < |ms| :: ms[i].target == target ==> ms[i].axis in axes
    ensures (forall i | 0 <= i < |ms| :: ms[i].target != target) ==> inc == 0.0
    decreases |ms|
  {
    if ms == [] then 0.0
    else
      var m := ms[|ms| - 1];
      Increment(ms[..|ms| - 1], target, axes) + (if m.target == target then Share(m, axes) else 0.0)
  }

  /** One more mapping adds its own contribution. */
  lemma IncrementSnoc(ms: seq<MouseMapping>, i: nat, target: string, axes: map<string, real>)
    requires i < |ms|
    requires forall j | 0 <= j < |ms| :: ms[j].target == target ==> ms[j].axis in axes
    ensures Increment(ms[..i + 1], target, axes) ==
            Increment(ms[..i], target, axes) + (if ms[i].target == target then Share(ms[i], axes) else 0.0)
  {
    assert ms[..i + 1][..i] == ms[..i];
  }

  /** The total displacement of the moves in a trace, along x and along y. */
  function MovedX(out: seq<Output>): (x: int)
  {
    if out == [] then 0 else MovedX(out[..|out| - 1]) + (if out[|out| - 1].MouseMove? then out[|out| - 1].x else 0)
  }

  function MovedY(out: seq<Output>): (y: int)
  {
    if out == [] then 0 else MovedY(out[..|out| - 1]) + (if out[|out| - 1].MouseMove? then out[|out| - 1].y else 0)
  }

  lemma {:induction false} MovedConcat(a: seq<Output>, b: seq<Output>)
    ensures MovedX(a + b) == MovedX(a) + MovedX(b)
    ensures MovedY(a + b) == MovedY(a) + MovedY(b)
    decreases |b|
  {
    if b == [] {
      assert a + b == a;
    } else {
      assert (a + b)[..|a + b| - 1] == a + b[..|b| - 1];
      MovedConcat(a, b[..|b| - 1]);
    }
  }

  /** The accumulators after a tick and the move it emitted, if any. */
  datatype MouseTick = MouseTick(dx: real, dy: real, out: seq<Output>)

  /** One tick of the integrator, given the tick's increments. */
  function MouseStep(dx: real, dy: real, incX: real, incY: real): (t: MouseTick)
    ensures -1.0 < t.dx < 1.0 && -1.0 < t.dy < 1.0
    ensures |t.out| <= 1
  {
    var cx, cy := Carry(dx + incX), Carry(dy + incY);
    MouseTick(cx.rest, cy.rest, if cx.whole != 0 || cy.whole != 0 then [MouseMove(cx.whole, cy.whole)] else [])
  }

  /** A tick carries the accumulators after the increments are added. */
  lemma MouseStepOfSums(dx: real, dy: real, incX: real, incY: real, sx: real, sy: real)
    requires sx == dx + incX && sy == dy + incY
    ensures var cx, cy := Carry(sx), Carry(sy);
      MouseStep(dx, dy, incX, incY) ==
      MouseTick(cx.rest, cy.rest, if cx.whole != 0 || cy.whole != 0 then [MouseMove(cx.whole, cy.whole)] else [])
  {
  }

  /** A tick keeps both remainders below 1 in magnitude, loses no motion (what it
      moves plus what it keeps is what it had plus what it was given), and emits at
      most one move, never a move by (0, 0). */
  lemma MouseStepSpec(dx: real, dy: real, incX: real, incY: real)
    ensures var t := MouseStep(dx, dy, incX, incY);
      -1.0 < t.dx < 1.0 && -1.0 < t.dy < 1.0 &&
      MovedX(t.out) as real + t.dx == dx + incX &&
      MovedY(t.out) as real + t.dy == dy + incY &&
      (t.out == [] <==> Abs(dx + incX) < 1.0 && Abs(dy + incY) < 1.0) &&
      (t.out != [] ==> |t.out| == 1 && t.out[0].MouseMove? && (t.out[0].x != 0 || t.out[0].y != 0))
  {
    var t := MouseStep(dx, dy, incX, incY);
    if t.out != [] {
      assert t.out[..0] == [];
    }
  }

  /** One tick's increments. */
  datatype Push = Push(x: real, y: real)

  function SumX(ps: seq<Push>): (sx: real)
  {
    if ps == [] then 0.0 else ps[0].x + SumX(ps[1..])
  }

  function SumY(ps: seq<Push>): (sy: real)
  {
    if ps == [] then 0.0 else ps[0].y + SumY(ps[1..])
  }

  /** The integrator driven through several ticks. */
  function MouseRun(dx: real, dy: real, ps: seq<Push>): (r: MouseTick)
    decreases |ps|
  {
    if ps == [] then MouseTick(dx, dy, [])
    else
      var t := MouseStep(dx, dy, ps[0].x, ps[0].y);
      var rest := MouseRun(t.dx, t.dy, ps[1..]);
      MouseTick(rest.dx, rest.dy, t.out + rest.out)
  }

  /** No motion is lost over any number of ticks: the moves emitted plus the final
      remainder equal the initial remainder plus everything added. */
  lemma {:induction false} MouseRunConserves(dx: real, dy: real, ps: seq<Push>)
    ensures var r := MouseRun(dx, dy, ps);
      MovedX(r.out) as real + r.dx == dx + SumX(ps) &&
      MovedY(r.out) as real + r.dy == dy + SumY(ps)
    decreases |ps|
  {
    if ps != [] {
      var t := MouseStep(dx, dy, ps[0].x, ps[0].y);
      MouseStepSpec(dx, dy, ps[0].x, ps[0].y);
      var rest := MouseRun(t.dx, t.dy, ps[1..]);
      MouseRunConserves(t.dx, t.dy, ps[1..]);
      MovedConcat(t.out, rest.out);
    }
  }

  /** No drift: starting from empty accumulators, the emitted motion differs from
      the exact integral by less than one unit along each axis, after any number
      of ticks. */
  lemma {:induction false} MouseRunNoDrift(ps: seq<Push>)
    ensures var r := MouseRun(0.0, 0.0, ps);
      Abs(SumX(ps) - MovedX(r.out) as real) < 1.0 &&
      Abs(SumY(ps) - MovedY(r.out) as real) < 1.0
  {
    MouseRunConserves(0.0, 0.0, ps);
    MouseRunRemainder(0.0, 0.0, ps);
  }

  /** The remainders stay below 1 in magnitude over any number of ticks. */
  lemma {:induction false} MouseRunRemainder(dx: real, dy: real, ps: seq<Push>)
    requires -1.0 < dx < 1.0 && -1.0 < dy < 1.0
    ensures var r := MouseRun(dx, dy, ps); -1.0 < r.dx < 1.0 && -1.0 < r.dy < 1.0
    decreases |ps|
  {
    if ps != [] {
      var t := MouseStep(dx, dy, ps[0].x, ps[0].y);
      MouseStepSpec(dx, dy, ps[0].x, ps[0].y);
      MouseRunRemainder(t.dx, t.dy, ps[1..]);
    }
  }

  /** Four ticks of the shipped mapping ("rx" at 0.5, gain 0.5) add 0.25 each: one
      move by 1 on the fourth tick, and nothing left over. */
  lemma QuarterSteps()
    ensures Increment(Default.mouse, MouseX, map["rx" := 0.5, "ry" := 0.0]) == 0.25
    ensures var r := MouseRun(0.0, 0.0, seq(4, _ => Push(0.25, 0.0)));
      r.out == [MouseMove(1, 0)] && r.dx == 0.0 && r.dy == 0.0
  {
    var ps := seq(4, _ => Push(0.25, 0.0));
    var q := Push(0.25, 0.0);
    assert ps == [q, q, q, q];
    assert ps[1..] == [q, q, q] && ps[2..] == [q, q] && ps[3..] == [q];
    assert MouseStep(0.75, 0.0, 0.25, 0.0) == MouseTick(0.0, 0.0, [MouseMove(1, 0)]);
    assert MouseRun(0.75, 0.0, [q]) == MouseTick(0.0, 0.0, [MouseMove(1, 0)]);
    assert MouseStep(0.5, 0.0, 0.25, 0.0) == MouseTick(0.75, 0.0, []);
    assert MouseRun(0.5, 0.0, [q, q]) == MouseTick(0.0, 0.0, [MouseMove(1, 0)]);
    assert MouseStep(0.25, 0.0, 0.25, 0.0) == MouseTick(0.5, 0.0, []);
    assert MouseRun(0.25, 0.0, [q, q, q]) == MouseTick(0.0, 0.0, [MouseMove(1, 0)]);
    assert MouseStep(0.0, 0.0, 0.25, 0.0) == MouseTick(0.25, 0.0, []);
    var axes := map["rx" := 0.5, "ry" := 0.0];
    assert Default.mouse[..1][..0] == [];
    assert Increment(Default.mouse[..1], MouseX, axes) == 0.25;
    assert Default.mouse[..|Default.mouse| - 1] == Default.mouse[..1];
  }
}
