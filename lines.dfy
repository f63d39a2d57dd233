/** The line demo: Bresenham's integer line, the 16.16 fixed-point DDA
    line, both writing through an unchecked `putPixel`, and the integer
    part of the rough polygon (the perturbed vertex distance). */
module LinesDemo {
  import opened Colors
  import opened Canvas

  datatype Point = Point(x: int, y: int)

  // ----- Integer arithmetic of the source -----

  /** C#'s `/` on `int` by a positive divisor: the quotient is truncated
      toward zero, so a negative numerator rounds up. */
  function TruncDiv(n: int, d: int): (q: int)
    requires d > 0
    ensures n >= 0 ==> q >= 0
    ensures n < 0 ==> q <= 0
  {
    if n >= 0 then n / d else -((-n) / d)
  }

  /** The truncated quotient never overshoots: `q * d` lies between zero
      and the numerator. */
  lemma TruncDivBounds(n: int, d: int)
    requires d > 0
    ensures n >= 0 ==> TruncDiv(n, d) * d <= n
    ensures n < 0 ==> n <= TruncDiv(n, d) * d
  {
    if n >= 0 {
      var q := n / d;
      assert n == d * q + n % d;
    } else {
      var q := (-n) / d;
      assert -n == d * q + (-n) % d;
    }
  }

  /** Truncation is symmetric about zero, unlike Euclidean division:
      `-1 / 2` is 0 in C# and -1 in Dafny. */
  lemma TruncDivOdd(n: int, d: int)
    requires d > 0
    ensures TruncDiv(-n, d) == -TruncDiv(n, d)
    ensures TruncDiv(-1, 2) == 0 != -1 / 2
  {
  }

  /** C#'s `>> 16` on `int`: an arithmetic shift, which rounds toward minus
      infinity, as Dafny's `/` by a positive constant does. */
  function Shr16(v: int): (r: int)
    ensures r * 65536 <= v < r * 65536 + 65536
  {
    v / 65536
  }

  /** If `d * q <= n < d * q + d`, then `q` is the quotient. */
  lemma DivUnique(n: int, d: int, q: int)
    requires d > 0 && d * q <= n < d * q + d
    ensures n / d == q
  {
    var r := n / d;
    assert n == d * r + n % d;
    if r < q {
      MulLeftMonotone(d, r + 1, q);
      assert false;
    } else if q < r {
      MulLeftMonotone(d, q + 1, r);
      assert false;
    }
  }

  // ----- Bresenham -----

  /** How many unit steps the minor coordinate has taken after `k` steps of
      the major one, for a line `a` long on its major axis and `b` on its
      minor axis. The error term of the algorithm rounds `b * k / a` to the
      nearest integer; `bias` settles the ties (`a` rounds them up, `a - 1`
      down). */
  function MinorSteps(b: nat, a: nat, k: nat, bias: nat): int
  {
    if a == 0 then 0 else (2 * b * k + bias) / (2 * a)
  }

  /** One more major step moves the minor coordinate by one exactly when the
      numerator reaches the next multiple of `2 * a`. */
  lemma MinorStepsStep(b: nat, a: nat, k: nat, bias: nat)
    requires 0 < a && b <= a
    ensures var m := MinorSteps(b, a, k, bias);
            MinorSteps(b, a, k + 1, bias) == if 2 * b * (k + 1) + bias >= 2 * a * (m + 1) then m + 1 else m
  {
    var m := MinorSteps(b, a, k, bias);
    var n0 := 2 * b * k + bias;
    var n := 2 * b * (k + 1) + bias;
    assert n0 == 2 * a * m + n0 % (2 * a);
    assert n == n0 + 2 * b;
    assert 2 * a * (m + 1) == 2 * a * m + 2 * a;
    if n >= 2 * a * (m + 1) {
      DivUnique(n, 2 * a, m + 1);
    } else {
      DivUnique(n, 2 * a, m);
    }
  }

  /** The minor coordinate starts unmoved and, after all `a` major steps,
      has moved `b`. */
  lemma MinorStepsEnds(b: nat, a: nat, bias: nat)
    requires 0 < a && b <= a && bias < 2 * a
    ensures MinorSteps(b, a, 0, bias) == 0
    ensures MinorSteps(b, a, a, bias) == b
  {
    assert 2 * b * 0 == 0;
    DivUnique(bias, 2 * a, 0);
    assert 2 * b * a == 2 * a * b;
    DivUnique(2 * b * a + bias, 2 * a, b);
  }

  /** The minor coordinate never moves back and moves at most one unit per
      step, so it stays between 0 and `b`. */
  lemma {:induction false} MinorStepsRange(b: nat, a: nat, k: nat, bias: nat)
    requires 0 < a && b <= a && bias < 2 * a && k <= a
    ensures 0 <= MinorSteps(b, a, k, bias) <= b
    ensures k < a ==> MinorSteps(b, a, k, bias) <= MinorSteps(b, a, k + 1, bias) <= MinorSteps(b, a, k, bias) + 1
    decreases a - k
  {
    if k == a {
      MinorStepsEnds(b, a, bias);
    } else {
      MinorStepsStep(b, a, k, bias);
      MinorStepsRange(b, a, k + 1, bias);
      assert 0 <= 2 * b * k + bias;
    }
  }

  /** The source's test for the direction of the minor steps: up when both
      deltas have the same sign, down otherwise. */
  predicate SameSign(deltaX: int, deltaY: int)
  {
    (deltaX < 0 && deltaY < 0) || (deltaX > 0 && deltaY > 0)
  }

  /** `v` moved `m` units up or down. */
  function Offset(v: int, up: bool, m: int): int
  {
    if up then v + m else v - m
  }

  /** The points `drawLineBresenham` plots, in order. The line is walked
      along its longer axis (x when `|deltaY| <= |deltaX|`, so diagonals
      and single points go along x) from the endpoint with the smaller
      coordinate on that axis; after `k` steps the other coordinate has
      moved `MinorSteps` units, up when the deltas have the same sign. */
  function BresenhamLine(x1: int, y1: int, x2: int, y2: int): (pts: seq<Point>)
    ensures |pts| == Max(Abs(x2 - x1), Abs(y2 - y1)) + 1
  {
    if Abs(y2 - y1) <= Abs(x2 - x1) then XMajorLine(x1, y1, x2, y2) else YMajorLine(x1, y1, x2, y2)
  }

  /** The walk along x: one point per column, `y` moving by `MinorSteps`
      with the rounding bias `absDeltaX`. */
  function XMajorLine(x1: int, y1: int, x2: int, y2: int): (pts: seq<Point>)
    ensures |pts| == Abs(x2 - x1) + 1
  {
    var deltaX, deltaY := x2 - x1, y2 - y1;
    var absDeltaX, absDeltaY := Abs(deltaX), Abs(deltaY);
    var x, y := if deltaX >= 0 then x1 else x2, if deltaX >= 0 then y1 else y2;
    seq(absDeltaX + 1, k requires 0 <= k <= absDeltaX =>
      Point(x + k, Offset(y, SameSign(deltaX, deltaY), MinorSteps(absDeltaY, absDeltaX, k, absDeltaX))))
  }

  /** The walk along y of a steep line: one point per row, `x` moving by
      `MinorSteps` with the rounding bias `absDeltaY - 1`. */
  function YMajorLine(x1: int, y1: int, x2: int, y2: int): (pts: seq<Point>)
    requires Abs(x2 - x1) < Abs(y2 - y1)
    ensures |pts| == Abs(y2 - y1) + 1
  {
    var deltaX, deltaY := x2 - x1, y2 - y1;
    var absDeltaX, absDeltaY := Abs(deltaX), Abs(deltaY);
    var x, y := if deltaY >= 0 then x1 else x2, if deltaY >= 0 then y1 else y2;
    seq(absDeltaY + 1, k requires 0 <= k <= absDeltaY =>
      Point(Offset(x, SameSign(deltaX, deltaY), MinorSteps(absDeltaX, absDeltaY, k, absDeltaY - 1)), y + k))
  }

  /** The line starts at one endpoint and ends at the other: both are
      plotted. */
  lemma BresenhamEndpoints(x1: int, y1: int, x2: int, y2: int)
    ensures var pts := BresenhamLine(x1, y1, x2, y2);
            (pts[0] == Point(x1, y1) && pts[|pts| - 1] == Point(x2, y2))
            || (pts[0] == Point(x2, y2) && pts[|pts| - 1] == Point(x1, y1))
  {
    if Abs(y2 - y1) <= Abs(x2 - x1) {
      XMajorEndpoints(x1, y1, x2, y2);
    } else {
      YMajorEndpoints(x1, y1, x2, y2);
    }
  }

  lemma XMajorEndpoints(x1: int, y1: int, x2: int, y2: int)
    requires Abs(y2 - y1) <= Abs(x2 - x1)
    ensures var pts := XMajorLine(x1, y1, x2, y2);
            if x2 - x1 >= 0 then pts[0] == Point(x1, y1) && pts[|pts| - 1] == Point(x2, y2)
            else pts[0] == Point(x2, y2) && pts[|pts| - 1] == Point(x1, y1)
  {
    var absDeltaX, absDeltaY := Abs(x2 - x1), Abs(y2 - y1);
    var pts := XMajorLine(x1, y1, x2, y2);
    if absDeltaX > 0 {
      MinorStepsEnds(absDeltaY, absDeltaX, absDeltaX);
    }
    assert pts[0].y == Offset(pts[0].y, SameSign(x2 - x1, y2 - y1), 0);
  }

  lemma YMajorEndpoints(x1: int, y1: int, x2: int, y2: int)
    requires Abs(x2 - x1) < Abs(y2 - y1)
    ensures var pts := YMajorLine(x1, y1, x2, y2);
            if y2 - y1 >= 0 then pts[0] == Point(x1, y1) && pts[|pts| - 1] == Point(x2, y2)
            else pts[0] == Point(x2, y2) && pts[|pts| - 1] == Point(x1, y1)
  {
    MinorStepsEnds(Abs(x2 - x1), Abs(y2 - y1), Abs(y2 - y1) - 1);
  }

  /** Consecutive points are 8-neighbours: the longer axis advances by one
      every step, and the other coordinate stays or moves one unit toward
      the far endpoint. So the points are all distinct, and the longer axis
      is walked from the smaller coordinate up. */
  lemma BresenhamSteps(x1: int, y1: int, x2: int, y2: int, k: nat)
    requires k + 1 < |BresenhamLine(x1, y1, x2, y2)|
    ensures var pts := BresenhamLine(x1, y1, x2, y2);
            var first, last := pts[0], pts[|pts| - 1];
            if Abs(y2 - y1) <= Abs(x2 - x1) then
              pts[k].x == Min(x1, x2) + k && pts[k + 1].x == pts[k].x + 1 &&
              (pts[k + 1].y == pts[k].y || pts[k + 1].y == pts[k].y + Sign(last.y - first.y))
            else
              pts[k].y == Min(y1, y2) + k && pts[k + 1].y == pts[k].y + 1 &&
              (pts[k + 1].x == pts[k].x || pts[k + 1].x == pts[k].x + Sign(last.x - first.x))
  {
    if Abs(y2 - y1) <= Abs(x2 - x1) {
      XMajorSteps(x1, y1, x2, y2, k);
    } else {
      YMajorSteps(x1, y1, x2, y2, k);
    }
  }

  lemma XMajorSteps(x1: int, y1: int, x2: int, y2: int, k: nat)
    requires Abs(y2 - y1) <= Abs(x2 - x1) && k < Abs(x2 - x1)
    ensures var pts := XMajorLine(x1, y1, x2, y2);
            var first, last := pts[0], pts[|pts| - 1];
            pts[k].x == Min(x1, x2) + k && pts[k + 1].x == pts[k].x + 1 &&
            (pts[k + 1].y == pts[k].y || pts[k + 1].y == pts[k].y + Sign(last.y - first.y))
  {
    XMajorEndpoints(x1, y1, x2, y2);
    MinorStepsRange(Abs(y2 - y1), Abs(x2 - x1), k, Abs(x2 - x1));
  }

  lemma YMajorSteps(x1: int, y1: int, x2: int, y2: int, k: nat)
    requires Abs(x2 - x1) < Abs(y2 - y1) && k < Abs(y2 - y1)
    ensures var pts := YMajorLine(x1, y1, x2, y2);
            var first, last := pts[0], pts[|pts| - 1];
            pts[k].y == Min(y1, y2) + k && pts[k + 1].y == pts[k].y + 1 &&
            (pts[k + 1].x == pts[k].x || pts[k + 1].x == pts[k].x + Sign(last.x - first.x))
  {
    YMajorEndpoints(x1, y1, x2, y2);
    MinorStepsRange(Abs(x2 - x1), Abs(y2 - y1), k, Abs(y2 - y1) - 1);
  }

  /** Whether `p` lies in the bounding box of the two endpoints. */
  predicate InBox(p: Point, x1: int, y1: int, x2: int, y2: int)
  {
    Min(x1, x2) <= p.x <= Max(x1, x2) && Min(y1, y2) <= p.y <= Max(y1, y2)
  }

  /** Every plotted point lies in the bounding box of the endpoints. */
  lemma BresenhamInBox(x1: int, y1: int, x2: int, y2: int, k: nat)
    requires k < |BresenhamLine(x1, y1, x2, y2)|
    ensures InBox(BresenhamLine(x1, y1, x2, y2)[k], x1, y1, x2, y2)
  {
    var absDeltaX, absDeltaY := Abs(x2 - x1), Abs(y2 - y1);
    if absDeltaY <= absDeltaX {
      if absDeltaX > 0 {
        MinorStepsRange(absDeltaY, absDeltaX, k, absDeltaX);
      }
    } else {
      MinorStepsRange(absDeltaX, absDeltaY, k, absDeltaY - 1);
    }
  }

  /** The horizontal line from (0, 0) to (3, 0) is four points. */
  lemma BresenhamExample()
    ensures BresenhamLine(0, 0, 3, 0) == [Point(0, 0), Point(1, 0), Point(2, 0), Point(3, 0)]
  {
  }

  /** The error term the walk keeps after `k` steps along the major
      axis (the source's `px` or `py`). */
  function ErrorTerm(b: nat, a: nat, k: nat, bias: nat): int
  {
    2 * b * (k + 1) - a * (2 * MinorSteps(b, a, k, bias) + 1)
  }

  /** The minor coordinate steps exactly when `e + bias - a` is
      non-negative (`px >= 0` on the x-major walk, `py > 0` on the y-major
      one), and the error term moves by the source's increments. */
  lemma ErrorTermStep(b: nat, a: nat, k: nat, bias: nat)
    requires 0 < a && b <= a
    ensures var e, m := ErrorTerm(b, a, k, bias), MinorSteps(b, a, k, bias);
            if e + bias - a >= 0 then
              MinorSteps(b, a, k + 1, bias) == m + 1 && ErrorTerm(b, a, k + 1, bias) == e + 2 * (b - a)
            else
              MinorSteps(b, a, k + 1, bias) == m && ErrorTerm(b, a, k + 1, bias) == e + 2 * b
  {
    var m := MinorSteps(b, a, k, bias);
    MinorStepsStep(b, a, k, bias);
    assert 2 * b * (k + 2) == 2 * b * (k + 1) + 2 * b;
    assert a * (2 * (m + 1) + 1) == a * (2 * m + 1) + 2 * a;
    assert 2 * a * (m + 1) == a * (2 * m + 1) + a;
  }

  /** The x-major walk's first point and initial `px`. */
  lemma XMajorStart(x1: int, y1: int, x2: int, y2: int)
    requires Abs(y2 - y1) <= Abs(x2 - x1)
    ensures XMajorLine(x1, y1, x2, y2)[0] == if x2 - x1 >= 0 then Point(x1, y1) else Point(x2, y2)
    ensures 2 * Abs(y2 - y1) - Abs(x2 - x1) == ErrorTerm(Abs(y2 - y1), Abs(x2 - x1), 0, Abs(x2 - x1))
  {
    XMajorEndpoints(x1, y1, x2, y2);
    var a, b := Abs(x2 - x1), Abs(y2 - y1);
    if a > 0 {
      MinorStepsEnds(b, a, a);
    }
    var m := MinorSteps(b, a, 0, a);
    assert m == 0;
    assert a * (2 * m + 1) == a;
  }

  /** The y-major walk's first point and initial `py`. */
  lemma YMajorStart(x1: int, y1: int, x2: int, y2: int)
    requires Abs(x2 - x1) < Abs(y2 - y1)
    ensures YMajorLine(x1, y1, x2, y2)[0] == if y2 - y1 >= 0 then Point(x1, y1) else Point(x2, y2)
    ensures 2 * Abs(x2 - x1) - Abs(y2 - y1) == ErrorTerm(Abs(x2 - x1), Abs(y2 - y1), 0, Abs(y2 - y1) - 1)
  {
    YMajorEndpoints(x1, y1, x2, y2);
    var a, b := Abs(y2 - y1), Abs(x2 - x1);
    MinorStepsEnds(b, a, a - 1);
    var m := MinorSteps(b, a, 0, a - 1);
    assert m == 0;
    assert a * (2 * m + 1) == a;
  }

  /** One step of the x-major loop of `drawLineBresenham` moves from point
      `k` of `XMajorLine` to point `k + 1` and keeps `px` the error
      term; `a` and `b` are the loop's `absDeltaX` and `absDeltaY`. */
  lemma XMajorStep(x1: int, y1: int, x2: int, y2: int, a: nat, b: nat, k: nat, x: int, y: int, px: int)
    requires a == Abs(x2 - x1) && b == Abs(y2 - y1) && b <= a && k < a
    requires Point(x, y) == XMajorLine(x1, y1, x2, y2)[k]
    requires px == ErrorTerm(b, a, k, a)
    ensures px < 0 ==> Point(x + 1, y) == XMajorLine(x1, y1, x2, y2)[k + 1]
                       && px + 2 * b == ErrorTerm(b, a, k + 1, a)
    ensures px >= 0 ==> Point(x + 1, if SameSign(x2 - x1, y2 - y1) then y + 1 else y - 1) == XMajorLine(x1, y1, x2, y2)[k + 1]
                        && px + 2 * (b - a) == ErrorTerm(b, a, k + 1, a)
  {
    ErrorTermStep(b, a, k, a);
  }

  /** One step of the y-major loop, likewise with `py`; `a` and `b` are
      the loop's `absDeltaY` and `absDeltaX`. */
  lemma YMajorStep(x1: int, y1: int, x2: int, y2: int, a: nat, b: nat, k: nat, x: int, y: int, py: int)
    requires a == Abs(y2 - y1) && b == Abs(x2 - x1) && b < a && k < a
    requires Point(x, y) == YMajorLine(x1, y1, x2, y2)[k]
    requires py == ErrorTerm(b, a, k, a - 1)
    ensures py <= 0 ==> Point(x, y + 1) == YMajorLine(x1, y1, x2, y2)[k + 1]
                        && py + 2 * b == ErrorTerm(b, a, k + 1, a - 1)
    ensures py > 0 ==> Point(if SameSign(x2 - x1, y2 - y1) then x + 1 else x - 1, y + 1) == YMajorLine(x1, y1, x2, y2)[k + 1]
                       && py + 2 * (b - a) == ErrorTerm(b, a, k + 1, a - 1)
  {
    ErrorTermStep(b, a, k, a - 1);
  }

  /** The state of `drawLineBresenham`'s loop: the point just plotted and
      the error term (`px` or `py`). */
  datatype WalkState = WalkState(p: Point, err: int)

  /** One iteration of the x-major loop of `drawLineBresenham`: `x` moves
      one unit, and `y` moves one unit (up when `up`) and `px` drops by
      `2 * (absDeltaX - absDeltaY)` when `px` is non-negative; otherwise
      `px` grows by `2 * absDeltaY`. */
  function XMajorStepState(s: WalkState, absDeltaX: int, absDeltaY: int, up: bool): WalkState
  {
    if s.err < 0 then WalkState(Point(s.p.x + 1, s.p.y), s.err + 2 * absDeltaY)
    else WalkState(Point(s.p.x + 1, if up then s.p.y + 1 else s.p.y - 1), s.err + 2 * (absDeltaY - absDeltaX))
  }

  /** One iteration of the y-major loop: `y` moves one unit, and `x` moves
      one unit when `py` is positive. */
  function YMajorStepState(s: WalkState, absDeltaX: int, absDeltaY: int, up: bool): WalkState
  {
    if s.err <= 0 then WalkState(Point(s.p.x, s.p.y + 1), s.err + 2 * absDeltaX)
    else WalkState(Point(if up then s.p.x + 1 else s.p.x - 1, s.p.y + 1), s.err + 2 * (absDeltaX - absDeltaY))
  }

  /** The x-major loop after `k` iterations, from the endpoint with the
      smaller `x` and `px = 2 * absDeltaY - absDeltaX`. */
  function XMajorWalk(x1: int, y1: int, x2: int, y2: int, k: nat): WalkState
    decreases k
  {
    var deltaX, deltaY := x2 - x1, y2 - y1;
    if k == 0 then
      WalkState(if deltaX >= 0 then Point(x1, y1) else Point(x2, y2), 2 * Abs(deltaY) - Abs(deltaX))
    else
      XMajorStepState(XMajorWalk(x1, y1, x2, y2, k - 1), Abs(deltaX), Abs(deltaY), SameSign(deltaX, deltaY))
  }

  /** The y-major loop after `k` iterations, from the endpoint with the
      smaller `y` and `py = 2 * absDeltaX - absDeltaY`. */
  function YMajorWalk(x1: int, y1: int, x2: int, y2: int, k: nat): WalkState
    decreases k
  {
    var deltaX, deltaY := x2 - x1, y2 - y1;
    if k == 0 then
      WalkState(if deltaY >= 0 then Point(x1, y1) else Point(x2, y2), 2 * Abs(deltaX) - Abs(deltaY))
    else
      YMajorStepState(YMajorWalk(x1, y1, x2, y2, k - 1), Abs(deltaX), Abs(deltaY), SameSign(deltaX, deltaY))
  }

  /** The incremental x-major loop plots exactly the closed-form line: after
      `k` iterations it stands on point `k` of `XMajorLine`, with `px` the
      error term of that point. */
  lemma {:induction false} XMajorWalkIsLine(x1: int, y1: int, x2: int, y2: int, k: nat)
    requires Abs(y2 - y1) <= Abs(x2 - x1) && k <= Abs(x2 - x1)
    ensures XMajorWalk(x1, y1, x2, y2, k).p == XMajorLine(x1, y1, x2, y2)[k]
    ensures XMajorWalk(x1, y1, x2, y2, k).err == ErrorTerm(Abs(y2 - y1), Abs(x2 - x1), k, Abs(x2 - x1))
    decreases k
  {
    if k == 0 {
      XMajorStart(x1, y1, x2, y2);
    } else {
      XMajorWalkIsLine(x1, y1, x2, y2, k - 1);
      var s := XMajorWalk(x1, y1, x2, y2, k - 1);
      XMajorWalkNext(x1, y1, x2, y2, k - 1);
      XMajorStep(x1, y1, x2, y2, Abs(x2 - x1), Abs(y2 - y1), k - 1, s.p.x, s.p.y, s.err);
    }
  }

  /** Likewise the y-major loop and `YMajorLine`. */
  lemma {:induction false} YMajorWalkIsLine(x1: int, y1: int, x2: int, y2: int, k: nat)
    requires Abs(x2 - x1) < Abs(y2 - y1) && k <= Abs(y2 - y1)
    ensures YMajorWalk(x1, y1, x2, y2, k).p == YMajorLine(x1, y1, x2, y2)[k]
    ensures YMajorWalk(x1, y1, x2, y2, k).err == ErrorTerm(Abs(x2 - x1), Abs(y2 - y1), k, Abs(y2 - y1) - 1)
    decreases k
  {
    if k == 0 {
      YMajorStart(x1, y1, x2, y2);
    } else {
      YMajorWalkIsLine(x1, y1, x2, y2, k - 1);
      var s := YMajorWalk(x1, y1, x2, y2, k - 1);
      YMajorWalkNext(x1, y1, x2, y2, k - 1);
      YMajorStep(x1, y1, x2, y2, Abs(y2 - y1), Abs(x2 - x1), k - 1, s.p.x, s.p.y, s.err);
    }
  }

  /** The points the x-major loop plots: the walk's point after each of
      its `absDeltaX` iterations and before the first. */
  function XMajorPoints(x1: int, y1: int, x2: int, y2: int): (pts: seq<Point>)
    ensures |pts| == Abs(x2 - x1) + 1
  {
    seq(Abs(x2 - x1) + 1, k requires 0 <= k <= Abs(x2 - x1) => XMajorWalk(x1, y1, x2, y2, k).p)
  }

  /** The points the y-major loop plots. */
  function YMajorPoints(x1: int, y1: int, x2: int, y2: int): (pts: seq<Point>)
    ensures |pts| == Abs(y2 - y1) + 1
  {
    seq(Abs(y2 - y1) + 1, k requires 0 <= k <= Abs(y2 - y1) => YMajorWalk(x1, y1, x2, y2, k).p)
  }

  lemma XMajorPointsAt(x1: int, y1: int, x2: int, y2: int, k: nat)
    requires k <= Abs(x2 - x1)
    ensures XMajorPoints(x1, y1, x2, y2)[k] == XMajorWalk(x1, y1, x2, y2, k).p
  {
  }

  lemma YMajorPointsAt(x1: int, y1: int, x2: int, y2: int, k: nat)
    requires k <= Abs(y2 - y1)
    ensures YMajorPoints(x1, y1, x2, y2)[k] == YMajorWalk(x1, y1, x2, y2, k).p
  {
  }

  lemma XMajorWalkNext(x1: int, y1: int, x2: int, y2: int, k: nat)
    ensures XMajorWalk(x1, y1, x2, y2, k + 1)
         == XMajorStepState(XMajorWalk(x1, y1, x2, y2, k), Abs(x2 - x1), Abs(y2 - y1), SameSign(x2 - x1, y2 - y1))
  {
  }

  lemma YMajorWalkNext(x1: int, y1: int, x2: int, y2: int, k: nat)
    ensures YMajorWalk(x1, y1, x2, y2, k + 1)
         == YMajorStepState(YMajorWalk(x1, y1, x2, y2, k), Abs(x2 - x1), Abs(y2 - y1), SameSign(x2 - x1, y2 - y1))
  {
  }

  /** The body of the x-major loop of `drawLineBresenham`, on the loop's
      variables. */
  method StepAlongX(x: int, y: int, px: int, absDeltaX: int, absDeltaY: int, deltaX: int, deltaY: int)
    returns (x': int, y': int, px': int)
    ensures WalkState(Point(x', y'), px') == XMajorStepState(WalkState(Point(x, y), px), absDeltaX, absDeltaY, SameSign(deltaX, deltaY))
  {
    x', y', px' := x + 1, y, px;
    if px' < 0 {
      px' := px' + 2 * absDeltaY;
    } else {
      if (deltaX < 0 && deltaY < 0) || (deltaX > 0 && deltaY > 0) {
        y' := y' + 1;
      } else {
        y' := y' - 1;
      }
      px' := px' + 2 * (absDeltaY - absDeltaX);
    }
  }

  /** The body of the y-major loop of `drawLineBresenham`. */
  method StepAlongY(x: int, y: int, py: int, absDeltaX: int, absDeltaY: int, deltaX: int, deltaY: int)
    returns (x': int, y': int, py': int)
    ensures WalkState(Point(x', y'), py') == YMajorStepState(WalkState(Point(x, y), py), absDeltaX, absDeltaY, SameSign(deltaX, deltaY))
  {
    x', y', py' := x, y + 1, py;
    if py' <= 0 {
      py' := py' + 2 * absDeltaX;
    } else {
      if (deltaX < 0 && deltaY < 0) || (deltaX > 0 && deltaY > 0) {
        x' := x' + 1;
      } else {
        x' := x' - 1;
      }
      py' := py' + 2 * (absDeltaX - absDeltaY);
    }
  }

  /** The loop of `drawLineBresenham` plots `BresenhamLine`. */
  lemma WalkIsBresenhamLine(x1: int, y1: int, x2: int, y2: int)
    ensures Abs(y2 - y1) <= Abs(x2 - x1) ==> XMajorPoints(x1, y1, x2, y2) == BresenhamLine(x1, y1, x2, y2)
    ensures Abs(x2 - x1) < Abs(y2 - y1) ==> YMajorPoints(x1, y1, x2, y2) == BresenhamLine(x1, y1, x2, y2)
  {
    if Abs(y2 - y1) <= Abs(x2 - x1) {
      var walk, line := XMajorPoints(x1, y1, x2, y2), XMajorLine(x1, y1, x2, y2);
      forall k | 0 <= k <= Abs(x2 - x1)
        ensures walk[k] == line[k]
      {
        XMajorWalkIsLine(x1, y1, x2, y2, k);
      }
    } else {
      var walk, line := YMajorPoints(x1, y1, x2, y2), YMajorLine(x1, y1, x2, y2);
      forall k | 0 <= k <= Abs(y2 - y1)
        ensures walk[k] == line[k]
      {
        YMajorWalkIsLine(x1, y1, x2, y2, k);
      }
    }
  }

  // ----- Fixed-point DDA -----

  /** The minor coordinate of step `i` of the DDA: the 16.16 accumulator
      starts at `start * 65536`, grows by the truncated quotient
      `delta * 65536 / steps` each step, and is rounded by adding a half
      and shifting right by 16. */
  function DdaMinor(start: int, delta: int, steps: nat, i: nat): (m: int)
    requires steps > 0
    ensures i == 0 ==> m == start
  {
    Shr16(start * 65536 + i * TruncDiv(delta * 65536, steps) + 32768)
  }

  /** The points `drawLine` plots, in order: `max(|deltaX|, |deltaY|)` of
      them, the major coordinate moving by the sign of its delta from the
      first endpoint. The endpoints must differ. */
  function DdaLine(x1: int, y1: int, x2: int, y2: int): (pts: seq<Point>)
    requires x1 != x2 || y1 != y2
    ensures |pts| == Max(Abs(x2 - x1), Abs(y2 - y1))
  {
    var deltaX, deltaY := x2 - x1, y2 - y1;
    var absDeltaX, absDeltaY := Abs(deltaX), Abs(deltaY);
    if absDeltaX >= absDeltaY then
      seq(absDeltaX, i requires 0 <= i < absDeltaX => Point(x1 + Sign(deltaX) * i, DdaMinor(y1, deltaY, absDeltaX, i)))
    else
      seq(absDeltaY, i requires 0 <= i < absDeltaY => Point(DdaMinor(x1, deltaX, absDeltaY, i), y1 + Sign(deltaY) * i))
  }

  /** Rounding the accumulator at step `i < steps` gives a value between
      the two ends of the minor axis, and the start itself at step 0. */
  lemma DdaMinorRange(start: int, delta: int, steps: nat, i: nat)
    requires 0 <= i < steps
    ensures Min(start, start + delta) <= DdaMinor(start, delta, steps, i) <= Max(start, start + delta)
    ensures i == 0 ==> DdaMinor(start, delta, steps, i) == start
  {
    var inc := TruncDiv(delta * 65536, steps);
    TruncDivBounds(delta * 65536, steps);
    if delta >= 0 {
      MulLeftMonotone(inc, i, steps);
      assert 0 <= i * inc <= delta * 65536;
    } else {
      var q := -inc;
      MulLeftMonotone(q, i, steps);
      assert i * inc == -(i * q);
      assert delta * 65536 <= i * inc <= 0;
    }
    assert i == 0 ==> i * inc == 0;
  }

  /** The DDA's first point is the first endpoint, its major coordinate
      moves one unit in the direction of the line every step, it never
      reaches the second endpoint, and every point lies in the bounding
      box of the endpoints. */
  lemma DdaShape(x1: int, y1: int, x2: int, y2: int, i: nat)
    requires x1 != x2 || y1 != y2
    requires i < |DdaLine(x1, y1, x2, y2)|
    ensures DdaLine(x1, y1, x2, y2)[0] == Point(x1, y1)
    ensures Abs(x2 - x1) >= Abs(y2 - y1) ==> DdaLine(x1, y1, x2, y2)[i].x == x1 + Sign(x2 - x1) * i
    ensures Abs(x2 - x1) < Abs(y2 - y1) ==> DdaLine(x1, y1, x2, y2)[i].y == y1 + Sign(y2 - y1) * i
    ensures DdaLine(x1, y1, x2, y2)[i] != Point(x2, y2)
    ensures InBox(DdaLine(x1, y1, x2, y2)[i], x1, y1, x2, y2)
  {
    if Abs(x2 - x1) >= Abs(y2 - y1) {
      DdaXShape(x1, y1, x2, y2, i);
      DdaXShape(x1, y1, x2, y2, 0);
    } else {
      DdaYShape(x1, y1, x2, y2, i);
      DdaYShape(x1, y1, x2, y2, 0);
    }
  }

  lemma DdaXShape(x1: int, y1: int, x2: int, y2: int, i: nat)
    requires Abs(y2 - y1) <= Abs(x2 - x1) && i < Abs(x2 - x1)
    ensures var p := DdaLine(x1, y1, x2, y2)[i];
            p.x == x1 + Sign(x2 - x1) * i && p.x != x2 && Min(x1, x2) <= p.x <= Max(x1, x2)
            && Min(y1, y2) <= p.y <= Max(y1, y2) && (i == 0 ==> p.y == y1)
  {
    var p := DdaLine(x1, y1, x2, y2)[i];
    assert p.x == x1 + Sign(x2 - x1) * i && p.y == DdaMinor(y1, y2 - y1, Abs(x2 - x1), i);
    DdaMinorRange(y1, y2 - y1, Abs(x2 - x1), i);
    if x2 > x1 {
      assert Sign(x2 - x1) * i == i;
    } else {
      assert Sign(x2 - x1) * i == -(i as int);
    }
  }

  lemma DdaYShape(x1: int, y1: int, x2: int, y2: int, i: nat)
    requires Abs(x2 - x1) < Abs(y2 - y1) && i < Abs(y2 - y1)
    ensures var p := DdaLine(x1, y1, x2, y2)[i];
            p.y == y1 + Sign(y2 - y1) * i && p.y != y2 && Min(y1, y2) <= p.y <= Max(y1, y2)
            && Min(x1, x2) <= p.x <= Max(x1, x2) && (i == 0 ==> p.x == x1)
  {
    var p := DdaLine(x1, y1, x2, y2)[i];
    assert p.y == y1 + Sign(y2 - y1) * i && p.x == DdaMinor(x1, x2 - x1, Abs(y2 - y1), i);
    DdaMinorRange(x1, x2 - x1, Abs(y2 - y1), i);
    if y2 > y1 {
      assert Sign(y2 - y1) * i == i;
    } else {
      assert Sign(y2 - y1) * i == -(i as int);
    }
  }

  /** A horizontal DDA line of length `n` is the `n` points from its start,
      one short of its end. */
  lemma DdaHorizontal(x1: int, y: int, n: nat)
    requires n > 0
    ensures DdaLine(x1, y, x1 + n, y) == seq(n, i requires 0 <= i < n => Point(x1 + i, y))
  {
    var pts := DdaLine(x1, y, x1 + n, y);
    forall i | 0 <= i < n
      ensures pts[i] == Point(x1 + i, y)
    {
      DdaShape(x1, y, x1 + n, y, i);
    }
  }

  // ----- Writing points into the buffer -----

  /** Every point has an index inside a buffer `len` bytes long, rows
      `width` wide. */
  predicate Indexable(width: int, len: int, pts: seq<Point>)
  {
    forall k :: 0 <= k < |pts| ==> 0 <= PixelIndex(width, pts[k].x, pts[k].y) < len
  }

  /** The buffer after `putPixel` of each point in turn. */
  function Plot(s: seq<byte>, width: int, pts: seq<Point>, color: byte): (r: seq<byte>)
    requires Indexable(width, |s|, pts)
    ensures |r| == |s|
  {
    PlotFirst(s, width, pts, |pts|, color)
  }

  /** The buffer after `putPixel` of the first `n` points in turn (a
      point off the buffer, which `Plot`'s precondition rules out, is
      skipped). */
  function PlotFirst(s: seq<byte>, width: int, pts: seq<Point>, n: int, color: byte): (r: seq<byte>)
    requires 0 <= n <= |pts|
    ensures |r| == |s|
    decreases n
  {
    if n == 0 then s
    else
      var prev := PlotFirst(s, width, pts, n - 1, color);
      var i := PixelIndex(width, pts[n - 1].x, pts[n - 1].y);
      if 0 <= i < |prev| then prev[i := color] else prev
  }

  /** Once all the points are plotted, `PlotFirst` is `Plot`. The count is
      bounded from both sides so that a loop's exit test meets it
      directly. */
  lemma PlotFirstAll(s: seq<byte>, width: int, pts: seq<Point>, n: int, color: byte)
    requires Indexable(width, |s|, pts) && |pts| <= n <= |pts|
    ensures PlotFirst(s, width, pts, n, color) == Plot(s, width, pts, color)
  {
  }

  /** Plotting sets the pixel of every point to `color` and leaves every
      other byte as it was. */
  lemma PlotAt(s: seq<byte>, width: int, pts: seq<Point>, color: byte, i: int)
    requires Indexable(width, |s|, pts) && 0 <= i < |s|
    ensures Plot(s, width, pts, color)[i]
         == if exists k :: 0 <= k < |pts| && PixelIndex(width, pts[k].x, pts[k].y) == i then color else s[i]
  {
    PlotFirstAt(s, width, pts, |pts|, color, i);
  }

  /** `PlotAt` for the first `n` points. */
  lemma {:induction false} PlotFirstAt(s: seq<byte>, width: int, pts: seq<Point>, n: int, color: byte, i: int)
    requires Indexable(width, |s|, pts) && 0 <= n <= |pts| && 0 <= i < |s|
    ensures PlotFirst(s, width, pts, n, color)[i]
         == if exists k :: 0 <= k < n && PixelIndex(width, pts[k].x, pts[k].y) == i then color else s[i]
    decreases n
  {
    if n > 0 {
      PlotFirstAt(s, width, pts, n - 1, color, i);
      if PixelIndex(width, pts[n - 1].x, pts[n - 1].y) != i {
        if exists k :: 0 <= k < n && PixelIndex(width, pts[k].x, pts[k].y) == i {
          var k :| 0 <= k < n && PixelIndex(width, pts[k].x, pts[k].y) == i;
          assert k < n - 1;
        }
      }
    }
  }


  /** Points in the bounding box of two on-screen endpoints are on the
      screen, so the unchecked `putPixel` stays inside the buffer. */
  lemma BoxIndexable(width: int, height: int, len: int, pts: seq<Point>, x1: int, y1: int, x2: int, y2: int)
    requires len == width * height
    requires OnScreen(width, height, x1, y1) && OnScreen(width, height, x2, y2)
    requires forall k :: 0 <= k < |pts| ==> InBox(pts[k], x1, y1, x2, y2)
    ensures Indexable(width, len, pts)
  {
    forall k | 0 <= k < |pts|
      ensures 0 <= PixelIndex(width, pts[k].x, pts[k].y) < len
    {
      PixelIndexInRange(width, height, pts[k].x, pts[k].y);
    }
  }

  /** A Bresenham line between two on-screen points stays in the buffer. */
  lemma BresenhamIndexable(width: int, height: int, len: int, x1: int, y1: int, x2: int, y2: int)
    requires len == width * height
    requires OnScreen(width, height, x1, y1) && OnScreen(width, height, x2, y2)
    ensures Indexable(width, len, BresenhamLine(x1, y1, x2, y2))
  {
    var pts := BresenhamLine(x1, y1, x2, y2);
    forall k | 0 <= k < |pts|
      ensures InBox(pts[k], x1, y1, x2, y2)
    {
      BresenhamInBox(x1, y1, x2, y2, k);
    }
    BoxIndexable(width, height, len, pts, x1, y1, x2, y2);
  }

  /** A DDA line between two distinct on-screen points stays in the
      buffer. */
  lemma DdaIndexable(width: int, height: int, len: int, x1: int, y1: int, x2: int, y2: int)
    requires len == width * height
    requires OnScreen(width, height, x1, y1) && OnScreen(width, height, x2, y2)
    requires x1 != x2 || y1 != y2
    ensures Indexable(width, len, DdaLine(x1, y1, x2, y2))
  {
    var pts := DdaLine(x1, y1, x2, y2);
    forall k | 0 <= k < |pts|
      ensures InBox(pts[k], x1, y1, x2, y2)
    {
      DdaShape(x1, y1, x2, y2, k);
    }
    BoxIndexable(width, height, len, pts, x1, y1, x2, y2);
  }

  // ----- The rough polygon's vertex distance -----

  /** `getRandomDistance`: the radius moved by the draw `Next(roughness)`,
      centred by subtracting half the roughness. `draw` is that draw; a
      negative roughness makes `Next` throw. */
  function GetRandomDistance(distance: int, roughness: int, draw: int): (r: Result<int>)
    requires roughness > 0 ==> 0 <= draw < roughness
    requires roughness == 0 ==> draw == 0
    ensures r.Ok? <==> roughness >= 0
    ensures r.Ok? ==> distance - roughness / 2 <= r.value < distance - roughness / 2 + Max(roughness, 1)
    ensures r.Ok? && roughness == 0 ==> r.value == distance
  {
    if roughness < 0 then ArgumentError
    else
      var halfRoughness := roughness / 2;
      Ok(distance - halfRoughness + draw)
  }

  /** Every distance in the window of width `roughness` comes from some
      draw. */
  lemma GetRandomDistanceCovers(distance: int, roughness: int, v: int)
    requires roughness > 0 && distance - roughness / 2 <= v < distance - roughness / 2 + roughness
    ensures exists draw :: 0 <= draw < roughness && GetRandomDistance(distance, roughness, draw) == Ok(v)
  {
    var draw := v - (distance - roughness / 2);
    assert GetRandomDistance(distance, roughness, draw) == Ok(v);
  }

  // ----- The demo -----

  /** One line of `Update`: two random endpoints on the 320 x 200 screen and
      a random colour. */
  datatype LineDraw = LineDraw(x1: int, y1: int, x2: int, y2: int, color: byte)

  predicate DrawOnScreen(d: LineDraw)
  {
    0 <= d.x1 < 320 && 0 <= d.y1 < 200 && 0 <= d.x2 < 320 && 0 <= d.y2 < 200
  }

  /** The buffer after `Update` has drawn each line of `draws` with the DDA,
      skipping those whose endpoints coincide. */
  function DrawLines(s: seq<byte>, width: int, height: int, draws: seq<LineDraw>): (r: seq<byte>)
    requires |s| == width * height && 320 <= width && 200 <= height
    requires forall k :: 0 <= k < |draws| ==> DrawOnScreen(draws[k])
    ensures |r| == |s|
    decreases |draws|
  {
    if draws == [] then s
    else
      var d := draws[|draws| - 1];
      assert DrawOnScreen(d);
      var before := DrawLines(s, width, height, draws[..|draws| - 1]);
      if d.x1 == d.x2 && d.y1 == d.y2 then before
      else
        DdaIndexable(width, height, |before|, d.x1, d.y1, d.x2, d.y2);
        Plot(before, width, DdaLine(d.x1, d.y1, d.x2, d.y2), d.color)
  }

  class Lines {
    const game: Mode13hGame

    constructor (game: Mode13hGame)
      ensures this.game == game
    {
      this.game := game;
    }

    /** `putPixel`: writes the byte at the pixel's index, unchecked; the
        caller keeps the index inside the buffer. */
    method PutPixel(x: int, y: int, color: byte)
      requires 0 <= PixelIndex(game.screenWidth, x, y) < game.pixels.Length
      modifies game.pixels
      ensures game.pixels[..] == old(game.pixels[..])[PixelIndex(game.screenWidth, x, y) := color]
    {
      game.pixels[y * game.screenWidth + x] := color;
    }

    /** `drawLineBresenham`: plots `BresenhamLine` in order. Every point it
        writes must have an index in the buffer (`BresenhamIndexable`: it
        does when both endpoints are on the screen). The two branches of
        the source are `BresenhamAlongX` and `BresenhamAlongY`. */
    method DrawLineBresenham(x1: int, y1: int, x2: int, y2: int, color: byte)
      requires Indexable(game.screenWidth, game.pixels.Length, BresenhamLine(x1, y1, x2, y2))
      modifies game.pixels
      ensures game.pixels[..] == Plot(old(game.pixels[..]), game.screenWidth, BresenhamLine(x1, y1, x2, y2), color)
    {
      var absDeltaX := Abs(x2 - x1);
      var absDeltaY := Abs(y2 - y1);
      WalkIsBresenhamLine(x1, y1, x2, y2);
      if absDeltaY <= absDeltaX {
        BresenhamAlongX(x1, y1, x2, y2, color);
      } else {
        BresenhamAlongY(x1, y1, x2, y2, color);
      }
    }

    /** The branch of `drawLineBresenham` for lines no steeper than 45
        degrees: one pixel per column, `px` deciding when `y` moves. */
    method BresenhamAlongX(x1: int, y1: int, x2: int, y2: int, color: byte)
      requires Abs(y2 - y1) <= Abs(x2 - x1)
      requires Indexable(game.screenWidth, game.pixels.Length, XMajorPoints(x1, y1, x2, y2))
      modifies game.pixels
      ensures game.pixels[..] == Plot(old(game.pixels[..]), game.screenWidth, XMajorPoints(x1, y1, x2, y2), color)
    {
      ghost var pts := XMajorPoints(x1, y1, x2, y2);
      ghost var before := game.pixels[..];
      var x, y, xe;
      var deltaX := x2 - x1;
      var deltaY := y2 - y1;
      var absDeltaX: nat := Abs(deltaX);
      var absDeltaY: nat := Abs(deltaY);
      var px: int := 2 * absDeltaY - absDeltaX;
      if deltaX >= 0 {
        x := x1;
        y := y1;
        xe := x2;
      } else {
        x := x2;
        y := y2;
        xe := x1;
      }
      XMajorPointsAt(x1, y1, x2, y2, 0);
      PutPixel(x, y, color);
      WalkAlongX(x1, y1, x2, y2, x, y, xe, px, absDeltaX, absDeltaY, deltaX, deltaY, color, before);
    }

    /** The loop of `BresenhamAlongX`, from the first plotted point to the
        end point. */
    method WalkAlongX(x1: int, y1: int, x2: int, y2: int, x0: int, y0: int, xe: int, px0: int,
                      absDeltaX: int, absDeltaY: int, deltaX: int, deltaY: int, color: byte, ghost before: seq<byte>)
      requires deltaX == x2 - x1 && deltaY == y2 - y1 && absDeltaX == Abs(deltaX) && absDeltaY == Abs(deltaY)
      requires xe - x0 == absDeltaX
      requires Indexable(game.screenWidth, |before|, XMajorPoints(x1, y1, x2, y2)) && |before| == game.pixels.Length
      requires XMajorWalk(x1, y1, x2, y2, 0) == WalkState(Point(x0, y0), px0)
      requires game.pixels[..] == PlotFirst(before, game.screenWidth, XMajorPoints(x1, y1, x2, y2), 1, color)
      modifies game.pixels
      ensures game.pixels[..] == Plot(before, game.screenWidth, XMajorPoints(x1, y1, x2, y2), color)
    {
      var x, y, px := x0, y0, px0;
      ghost var k := 0;
      while x < xe
        invariant 0 <= k <= absDeltaX && xe - x == absDeltaX - k
        invariant XMajorWalk(x1, y1, x2, y2, k) == WalkState(Point(x, y), px)
        invariant game.pixels[..] == PlotFirst(before, game.screenWidth, XMajorPoints(x1, y1, x2, y2), k + 1, color)
        decreases xe - x
      {
        x, y, px := PlotNextAlongX(x1, y1, x2, y2, k, x, y, px, absDeltaX, absDeltaY, deltaX, deltaY, color, before);
        k := k + 1;
      }
      PlotFirstAll(before, game.screenWidth, XMajorPoints(x1, y1, x2, y2), k + 1, color);
    }

    /** One iteration of the x-major loop: steps the walk and plots the
        new point, so the buffer holds one more point of the line. */
    method PlotNextAlongX(x1: int, y1: int, x2: int, y2: int, ghost k: nat, x: int, y: int, px: int,
                          absDeltaX: int, absDeltaY: int, deltaX: int, deltaY: int, color: byte, ghost before: seq<byte>)
      returns (x': int, y': int, px': int)
      requires deltaX == x2 - x1 && deltaY == y2 - y1 && absDeltaX == Abs(deltaX) && absDeltaY == Abs(deltaY)
      requires k < absDeltaX
      requires Indexable(game.screenWidth, |before|, XMajorPoints(x1, y1, x2, y2)) && |before| == game.pixels.Length
      requires XMajorWalk(x1, y1, x2, y2, k) == WalkState(Point(x, y), px)
      requires game.pixels[..] == PlotFirst(before, game.screenWidth, XMajorPoints(x1, y1, x2, y2), k + 1, color)
      modifies game.pixels
      ensures x' == x + 1
      ensures XMajorWalk(x1, y1, x2, y2, k + 1) == WalkState(Point(x', y'), px')
      ensures game.pixels[..] == PlotFirst(before, game.screenWidth, XMajorPoints(x1, y1, x2, y2), k + 2, color)
    {
      ghost var pts := XMajorPoints(x1, y1, x2, y2);
      x', y', px' := StepAlongX(x, y, px, absDeltaX, absDeltaY, deltaX, deltaY);
      XMajorWalkNext(x1, y1, x2, y2, k);
      XMajorPointsAt(x1, y1, x2, y2, k + 1);
      assert pts[k + 1] == Point(x', y');
      assert 0 <= PixelIndex(game.screenWidth, pts[k + 1].x, pts[k + 1].y) < game.pixels.Length;
      PutPixel(x', y', color);
    }

    /** The branch of `drawLineBresenham` for steep lines: one pixel per
        row, `py` deciding when `x` moves. */
    method BresenhamAlongY(x1: int, y1: int, x2: int, y2: int, color: byte)
      requires Abs(x2 - x1) < Abs(y2 - y1)
      requires Indexable(game.screenWidth, game.pixels.Length, YMajorPoints(x1, y1, x2, y2))
      modifies game.pixels
      ensures game.pixels[..] == Plot(old(game.pixels[..]), game.screenWidth, YMajorPoints(x1, y1, x2, y2), color)
    {
      ghost var pts := YMajorPoints(x1, y1, x2, y2);
      ghost var before := game.pixels[..];
      var x, y, ye;
      var deltaX := x2 - x1;
      var deltaY := y2 - y1;
      var absDeltaX: nat := Abs(deltaX);
      var absDeltaY: nat := Abs(deltaY);
      var py: int := 2 * absDeltaX - absDeltaY;
      if deltaY >= 0 {
        x := x1;
        y := y1;
        ye := y2;
      } else {
        x := x2;
        y := y2;
        ye := y1;
      }
      YMajorPointsAt(x1, y1, x2, y2, 0);
      PutPixel(x, y, color);
      WalkAlongY(x1, y1, x2, y2, x, y, ye, py, absDeltaX, absDeltaY, deltaX, deltaY, color, before);
    }

    /** The loop of `BresenhamAlongY`, from the first plotted point to the
        end point. */
    method WalkAlongY(x1: int, y1: int, x2: int, y2: int, x0: int, y0: int, ye: int, py0: int,
                      absDeltaX: int, absDeltaY: int, deltaX: int, deltaY: int, color: byte, ghost before: seq<byte>)
      requires deltaX == x2 - x1 && deltaY == y2 - y1 && absDeltaX == Abs(deltaX) && absDeltaY == Abs(deltaY)
      requires ye - y0 == absDeltaY
      requires Indexable(game.screenWidth, |before|, YMajorPoints(x1, y1, x2, y2)) && |before| == game.pixels.Length
      requires YMajorWalk(x1, y1, x2, y2, 0) == WalkState(Point(x0, y0), py0)
      requires game.pixels[..] == PlotFirst(before, game.screenWidth, YMajorPoints(x1, y1, x2, y2), 1, color)
      modifies game.pixels
      ensures game.pixels[..] == Plot(before, game.screenWidth, YMajorPoints(x1, y1, x2, y2), color)
    {
      var x, y, py := x0, y0, py0;
      ghost var k := 0;
      while y < ye
        invariant 0 <= k <= absDeltaY && ye - y == absDeltaY - k
        invariant YMajorWalk(x1, y1, x2, y2, k) == WalkState(Point(x, y), py)
        invariant game.pixels[..] == PlotFirst(before, game.screenWidth, YMajorPoints(x1, y1, x2, y2), k + 1, color)
        decreases ye - y
      {
        x, y, py := PlotNextAlongY(x1, y1, x2, y2, k, x, y, py, absDeltaX, absDeltaY, deltaX, deltaY, color, before);
        k := k + 1;
      }
      PlotFirstAll(before, game.screenWidth, YMajorPoints(x1, y1, x2, y2), k + 1, color);
    }

    /** One iteration of the y-major loop. */
    method PlotNextAlongY(x1: int, y1: int, x2: int, y2: int, ghost k: nat, x: int, y: int, py: int,
                          absDeltaX: int, absDeltaY: int, deltaX: int, deltaY: int, color: byte, ghost before: seq<byte>)
      returns (x': int, y': int, py': int)
      requires deltaX == x2 - x1 && deltaY == y2 - y1 && absDeltaX == Abs(deltaX) && absDeltaY == Abs(deltaY)
      requires k < absDeltaY
      requires Indexable(game.screenWidth, |before|, YMajorPoints(x1, y1, x2, y2)) && |before| == game.pixels.Length
      requires YMajorWalk(x1, y1, x2, y2, k) == WalkState(Point(x, y), py)
      requires game.pixels[..] == PlotFirst(before, game.screenWidth, YMajorPoints(x1, y1, x2, y2), k + 1, color)
      modifies game.pixels
      ensures y' == y + 1
      ensures YMajorWalk(x1, y1, x2, y2, k + 1) == WalkState(Point(x', y'), py')
      ensures game.pixels[..] == PlotFirst(before, game.screenWidth, YMajorPoints(x1, y1, x2, y2), k + 2, color)
    {
      ghost var pts := YMajorPoints(x1, y1, x2, y2);
      x', y', py' := StepAlongY(x, y, py, absDeltaX, absDeltaY, deltaX, deltaY);
      YMajorWalkNext(x1, y1, x2, y2, k);
      YMajorPointsAt(x1, y1, x2, y2, k + 1);
      assert pts[k + 1] == Point(x', y');
      assert 0 <= PixelIndex(game.screenWidth, pts[k + 1].x, pts[k + 1].y) < game.pixels.Length;
      PutPixel(x', y', color);
    }

    /** `drawLine`: plots `DdaLine` in order. The endpoints must differ
        (otherwise the source divides by zero) and every point must have an
        index in the buffer (`DdaIndexable`). The two branches of the
        source are `DdaAlongX` and `DdaAlongY`. */
    method DrawLine(x1: int, y1: int, x2: int, y2: int, color: byte)
      requires x1 != x2 || y1 != y2
      requires Indexable(game.screenWidth, game.pixels.Length, DdaLine(x1, y1, x2, y2))
      modifies game.pixels
      ensures game.pixels[..] == Plot(old(game.pixels[..]), game.screenWidth, DdaLine(x1, y1, x2, y2), color)
    {
      var absDeltaX := Abs(x2 - x1);
      var absDeltaY := Abs(y2 - y1);
      if absDeltaX >= absDeltaY {
        DdaAlongX(x1, y1, x2, y2, color);
      } else {
        DdaAlongY(x1, y1, x2, y2, color);
      }
    }

    /** The branch of `drawLine` for lines no steeper than 45 degrees: `x`
        moves by one, `y` is a 16.16 accumulator. */
    method DdaAlongX(x1: int, y1: int, x2: int, y2: int, color: byte)
      requires x1 != x2 && Abs(y2 - y1) <= Abs(x2 - x1)
      requires Indexable(game.screenWidth, game.pixels.Length, DdaLine(x1, y1, x2, y2))
      modifies game.pixels
      ensures game.pixels[..] == Plot(old(game.pixels[..]), game.screenWidth, DdaLine(x1, y1, x2, y2), color)
    {
      ghost var pts := DdaLine(x1, y1, x2, y2);
      ghost var before := game.pixels[..];
      var deltaX := x2 - x1;
      var deltaY := y2 - y1;
      var absDeltaX := Abs(deltaX);
      var x := x1;
      var xIncrement := Sign(deltaX);
      var y := y1 * 65536;
      deltaY := TruncDiv(deltaY * 65536, absDeltaX);
      for i := 0 to absDeltaX
        invariant x == x1 + xIncrement * i
        invariant y == y1 * 65536 + i * deltaY
        invariant game.pixels[..] == PlotFirst(before, game.screenWidth, pts, i, color)
      {
        assert (i + 1) * deltaY == i * deltaY + deltaY;
        assert pts[i] == Point(x, Shr16(y + 32768));
        PutPixel(x, Shr16(y + 32768), color);
        x := x + xIncrement;
        y := y + deltaY;
      }
    }

    /** The branch of `drawLine` for steep lines: `y` moves by one, `x` is
        a 16.16 accumulator. */
    method DdaAlongY(x1: int, y1: int, x2: int, y2: int, color: byte)
      requires Abs(x2 - x1) < Abs(y2 - y1)
      requires Indexable(game.screenWidth, game.pixels.Length, DdaLine(x1, y1, x2, y2))
      modifies game.pixels
      ensures game.pixels[..] == Plot(old(game.pixels[..]), game.screenWidth, DdaLine(x1, y1, x2, y2), color)
    {
      ghost var pts := DdaLine(x1, y1, x2, y2);
      ghost var before := game.pixels[..];
      var deltaX := x2 - x1;
      var deltaY := y2 - y1;
      var absDeltaY := Abs(deltaY);
      var x := x1 * 65536;
      deltaX := TruncDiv(deltaX * 65536, absDeltaY);
      var y := y1;
      var yIncrement := Sign(deltaY);
      for i := 0 to absDeltaY
        invariant x == x1 * 65536 + i * deltaX
        invariant y == y1 + yIncrement * i
        invariant game.pixels[..] == PlotFirst(before, game.screenWidth, pts, i, color)
      {
        assert (i + 1) * deltaX == i * deltaX + deltaX;
        assert pts[i] == Point(Shr16(x + 32768), y);
        PutPixel(Shr16(x + 32768), y, color);
        x := x + deltaX;
        y := y + yIncrement;
      }
    }

    /** `Update`: three random lines drawn with the DDA, skipping any whose
        endpoints coincide. `draws` are the random draws, endpoints on the
        320 x 200 screen. */
    method Update(draws: seq<LineDraw>)
      requires game.Valid() && 320 <= game.screenWidth && 200 <= game.screenHeight
      requires |draws| == 3 && forall k :: 0 <= k < |draws| ==> DrawOnScreen(draws[k])
      modifies game.pixels
      ensures game.pixels[..] == DrawLines(old(game.pixels[..]), game.screenWidth, game.screenHeight, draws)
    {
      for i := 0 to 3
        invariant game.pixels[..] == DrawLines(old(game.pixels[..]), game.screenWidth, game.screenHeight, draws[..i])
      {
        var d := draws[i];
        assert draws[..i + 1][..i] == draws[..i];
        if d.x1 == d.x2 && d.y1 == d.y2 {
          continue;
        }
        DdaIndexable(game.screenWidth, game.screenHeight, game.pixels.Length, d.x1, d.y1, d.x2, d.y2);
        DrawLine(d.x1, d.y1, d.x2, d.y2, d.color);
      }
      assert draws[..3] == draws;
    }
  }
}
