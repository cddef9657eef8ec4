/**
 * The circle rasteriser of 1/ts/3/src/CircleDrawer.ts: the integer decision-variable
 * (Bresenham) circle loop, eight-way symmetric plotting around the centre, and
 * clipping of each pixel to the canvas.
 *
 * The loop's run is described by `Trace`, the list of (x, y, d) states at which it
 * plots; the pixels it fills are `Plot` of that trace. The class `CircleDrawer` keeps
 * the pixels filled so far in a field and its methods are proved to append exactly
 * those pixels.
 */
module CircleDrawing {

  /** One pass of the loop: the offsets it plots at and the decision variable. */
  datatype Step = Step(x: int, y: int, d: int)

  /** The state after one pass: x steps right; y steps down exactly when d was positive. */
  function Next(s: Step): (r: Step)
    ensures r.x == s.x + 1
    ensures r.y == (if s.d > 0 then s.y - 1 else s.y)
    ensures r.d == (if s.d > 0 then s.d + 4 * (r.x - r.y) + 10 else s.d + 4 * r.x + 6)
  {
    var x := s.x + 1;
    if s.d > 0 then Step(x, s.y - 1, s.d + 4 * (x - (s.y - 1)) + 10)
    else Step(x, s.y, s.d + 4 * x + 6)
  }

  /** The states at which `while (y >= x)` plots, starting from (x, y, d). */
  function Trace(x: int, y: int, d: int): seq<Step>
    decreases if y >= x then y - x + 1 else 0
  {
    if y < x then []
    else
      var n := Next(Step(x, y, d));
      [Step(x, y, d)] + Trace(n.x, n.y, n.d)
  }

  /** The trace `drawCircle` follows for a radius. */
  function CircleTrace(radius: int): seq<Step>
  {
    Trace(0, radius, 3 - 2 * radius)
  }

  /** The eight points `drawCirclePoints` visits, in call order. */
  function Octants(cx: int, cy: int, x: int, y: int): (r: seq<(int, int)>)
    ensures |r| == 8
  {
    [(cx + x, cy + y), (cx - x, cy + y), (cx + x, cy - y), (cx - x, cy - y),
     (cx + y, cy + x), (cx - y, cy + x), (cx + y, cy - x), (cx - y, cy - x)]
  }

  /** `isPointInsideCanvas`. */
  predicate Inside(p: (int, int), width: int, height: int)
  {
    0 <= p.0 < width && 0 <= p.1 < height
  }

  /** The filled pixels after `drawPoint`: the point is appended if it is on the canvas. */
  function Filled(canvas: seq<(int, int)>, p: (int, int), width: int, height: int): seq<(int, int)>
  {
    if Inside(p, width, height) then canvas + [p] else canvas
  }

  /**
   * The filled pixels after `drawCirclePoints`: each of the eight points, in call
   * order, is appended if it is on the canvas.
   */
  function Painted(canvas: seq<(int, int)>, cx: int, cy: int, x: int, y: int, width: int, height: int): seq<(int, int)>
  {
    Mirrored(Mirrored(canvas, cx, cy, x, y, width, height), cx, cy, y, x, width, height)
  }

  /** Four of those points: (cx + a, cy + b), (cx - a, cy + b), (cx + a, cy - b), (cx - a, cy - b), in that order. */
  function Mirrored(canvas: seq<(int, int)>, cx: int, cy: int, a: int, b: int, width: int, height: int): seq<(int, int)>
  {
    var c1 := Filled(canvas, (cx + a, cy + b), width, height);
    var c2 := Filled(c1, (cx - a, cy + b), width, height);
    var c3 := Filled(c2, (cx + a, cy - b), width, height);
    Filled(c3, (cx - a, cy - b), width, height)
  }

  /** The filled pixels after painting the eight points of every state of a trace, in order. */
  function Plot(canvas: seq<(int, int)>, cx: int, cy: int, steps: seq<Step>, width: int, height: int): seq<(int, int)>
    decreases |steps|
  {
    if |steps| == 0 then canvas
    else Plot(Painted(canvas, cx, cy, steps[0].x, steps[0].y, width, height), cx, cy, steps[1..], width, height)
  }

  // ---------------------------------------------------------------------------
  // Properties of the loop
  // ---------------------------------------------------------------------------

  /**
   * Along any trace x goes up by exactly one per pass, y never goes up, every state
   * plotted has x <= y, and there are at most y - x + 1 passes.
   */
  lemma {:induction false} TraceShape(x: int, y: int, d: int)
    ensures var t := Trace(x, y, d);
            && (y >= x ==> |t| <= y - x + 1) && (y < x ==> t == [])
            && (|t| > 0 ==> t[0] == Step(x, y, d))
            && (forall i :: 0 <= i < |t| ==> t[i].x == x + i && t[i].x <= t[i].y <= y)
            && (forall i :: 0 < i < |t| ==> t[i - 1].y - 1 <= t[i].y <= t[i - 1].y)
    decreases if y >= x then y - x + 1 else 0
  {
    if y >= x {
      var n := Next(Step(x, y, d));
      TraceShape(n.x, n.y, n.d);
      var t := Trace(x, y, d);
      assert t[1..] == Trace(n.x, n.y, n.d);
      forall i | 0 < i < |t|
        ensures t[i].x == x + i && t[i].x <= t[i].y <= y
      {
        assert t[i] == t[1..][i - 1];
      }
      forall i | 1 < i < |t|
        ensures t[i - 1].y - 1 <= t[i].y <= t[i - 1].y
      {
        assert t[i] == t[1..][i - 1] && t[i - 1] == t[1..][i - 2];
      }
    }
  }

  /**
   * `drawCircle` with a negative radius plots nothing; otherwise it makes at most
   * radius + 1 passes, the first at (0, radius), and every pass has 0 <= x <= y <= radius.
   */
  lemma CircleTraceBounds(radius: int)
    ensures radius < 0 ==> CircleTrace(radius) == []
    ensures radius >= 0 ==> 1 <= |CircleTrace(radius)| <= radius + 1 && CircleTrace(radius)[0].x == 0
                              && CircleTrace(radius)[0].y == radius
    ensures forall i :: 0 <= i < |CircleTrace(radius)| ==>
              CircleTrace(radius)[i].x == i && 0 <= i <= CircleTrace(radius)[i].y <= radius
  {
    var t := Trace(0, radius, 3 - 2 * radius);
    assert CircleTrace(radius) == t;
    TraceShape(0, radius, 3 - 2 * radius);
    if radius >= 0 {
      assert |t| >= 1;
    }
  }

  /** The first pass of a circle of radius r >= 0 plots (cx, cy +- r) and (cx +- r, cy). */
  lemma FirstPassPlotsAxes(cx: int, cy: int, radius: int)
    requires radius >= 0
    ensures var o := Octants(cx, cy, CircleTrace(radius)[0].x, CircleTrace(radius)[0].y);
            (cx, cy + radius) in o && (cx, cy - radius) in o && (cx + radius, cy) in o && (cx - radius, cy) in o
  {
    CircleTraceBounds(radius);
    var o := Octants(cx, cy, 0, radius);
    assert o[0] == (cx, cy + radius) && o[2] == (cx, cy - radius) && o[4] == (cx + radius, cy) && o[5] == (cx - radius, cy);
  }

  /** The value of the decision variable at state (x, y) for radius r. */
  function Decision(x: int, y: int, radius: int): int
  {
    2 * x * x + 8 * x + 2 * y * y - 6 * y + 3 + 4 * radius - 2 * radius * radius
  }

  /** One pass of the update rules keeps d equal to `Decision` of the new state. */
  lemma NextKeepsDecision(s: Step, radius: int)
    requires s.d == Decision(s.x, s.y, radius)
    ensures Next(s).d == Decision(Next(s).x, Next(s).y, radius)
  {
    var x, y := s.x, s.y;
    assert (x + 1) * (x + 1) == x * x + 2 * x + 1;
    assert (y - 1) * (y - 1) == y * y - 2 * y + 1;
  }

  lemma {:induction false} TraceKeepsDecision(x: int, y: int, d: int, radius: int)
    requires d == Decision(x, y, radius)
    ensures forall i :: 0 <= i < |Trace(x, y, d)| ==>
              Trace(x, y, d)[i].d == Decision(Trace(x, y, d)[i].x, Trace(x, y, d)[i].y, radius)
    decreases if y >= x then y - x + 1 else 0
  {
    if y >= x {
      var n := Next(Step(x, y, d));
      NextKeepsDecision(Step(x, y, d), radius);
      TraceKeepsDecision(n.x, n.y, n.d, radius);
      var t := Trace(x, y, d);
      assert t[1..] == Trace(n.x, n.y, n.d);
      forall i | 0 < i < |t|
        ensures t[i].d == Decision(t[i].x, t[i].y, radius)
      {
        assert t[i] == t[1..][i - 1];
      }
    }
  }

  /**
   * With integer inputs the decision variable is, at every pass, the closed form
   * 2x^2 + 8x + 2y^2 - 6y + 3 + 4r - 2r^2 of the current offsets: the two update rules
   * never drift from it.
   */
  lemma CircleDecisionClosedForm(radius: int)
    ensures forall i :: 0 <= i < |CircleTrace(radius)| ==>
              CircleTrace(radius)[i].d == Decision(CircleTrace(radius)[i].x, CircleTrace(radius)[i].y, radius)
  {
    TraceKeepsDecision(0, radius, 3 - 2 * radius, radius);
  }

  /**
   * The eight points are symmetric about the centre: point i is (cx +- a, cy +- b)
   * with {a, b} = {x, y}, and mirroring it left-right, top-bottom or across the
   * diagonal through the centre gives point LeftRight(i), TopBottom(i) or Diagonal(i).
   */
  lemma OctantsSymmetric(cx: int, cy: int, x: int, y: int, i: nat)
    requires i < 8
    ensures var p := Octants(cx, cy, x, y)[i];
            || ((p.0 - cx == x || p.0 - cx == -x) && (p.1 - cy == y || p.1 - cy == -y))
            || ((p.0 - cx == y || p.0 - cx == -y) && (p.1 - cy == x || p.1 - cy == -x))
    ensures var o := Octants(cx, cy, x, y);
            && (2 * cx - o[i].0, o[i].1) == o[LeftRight(i)]
            && (o[i].0, 2 * cy - o[i].1) == o[TopBottom(i)]
            && (cx + (o[i].1 - cy), cy + (o[i].0 - cx)) == o[Diagonal(i)]
  {
  }

  function LeftRight(i: nat): (j: nat)
    requires i < 8
    ensures j < 8
  {
    [1, 0, 3, 2, 5, 4, 7, 6][i]
  }

  function TopBottom(i: nat): (j: nat)
    requires i < 8
    ensures j < 8
  {
    [2, 3, 0, 1, 6, 7, 4, 5][i]
  }

  function Diagonal(i: nat): (j: nat)
    requires i < 8
    ensures j < 8
  {
    [4, 6, 5, 7, 0, 2, 1, 3][i]
  }

  /** Plotting a trace split after its first state: paint that state, then plot the rest. */
  lemma PlotUnfolds(canvas: seq<(int, int)>, cx: int, cy: int, s: Step, rest: seq<Step>, width: int, height: int)
    ensures Plot(canvas, cx, cy, [s] + rest, width, height)
            == Plot(Painted(canvas, cx, cy, s.x, s.y, width, height), cx, cy, rest, width, height)
  {
    assert ([s] + rest)[1..] == rest;
  }

  /** A pass of the loop paints the eight points of its state, then the rest of the trace follows. */
  lemma PlotOnePass(canvas: seq<(int, int)>, cx: int, cy: int, x: int, y: int, d: int, width: int, height: int)
    requires y >= x
    ensures var n := Next(Step(x, y, d));
            Plot(canvas, cx, cy, Trace(x, y, d), width, height)
            == Plot(Painted(canvas, cx, cy, x, y, width, height), cx, cy, Trace(n.x, n.y, n.d), width, height)
  {
    var n := Next(Step(x, y, d));
    assert Trace(x, y, d) == [Step(x, y, d)] + Trace(n.x, n.y, n.d);
    PlotUnfolds(canvas, cx, cy, Step(x, y, d), Trace(n.x, n.y, n.d), width, height);
  }

  /** `drawPoint` keeps what was filled and appends at most the point itself, exactly when it is on the canvas. */
  lemma FilledAppends(canvas: seq<(int, int)>, p: (int, int), width: int, height: int)
    ensures var r := Filled(canvas, p, width, height);
            && |canvas| <= |r| <= |canvas| + 1 && r[..|canvas|] == canvas
            && (forall q :: q in r <==> q in canvas || (q == p && Inside(p, width, height)))
  {
  }

  /**
   * `drawCirclePoints` keeps what was filled and adds at most eight pixels: every pixel
   * it adds is one of the eight points and on the canvas, and every one of the eight
   * points on the canvas is filled afterwards.
   */
  lemma PaintedAddsClippedOctants(canvas: seq<(int, int)>, cx: int, cy: int, x: int, y: int, width: int, height: int)
    ensures var r := Painted(canvas, cx, cy, x, y, width, height);
            && |canvas| <= |r| <= |canvas| + 8 && r[..|canvas|] == canvas
            && (forall p :: p in r <==> p in canvas || (p in Octants(cx, cy, x, y) && Inside(p, width, height)))
  {
    var o := Octants(cx, cy, x, y);
    var c1 := Filled(canvas, o[0], width, height);
    FilledAppends(canvas, o[0], width, height);
    var c2 := Filled(c1, o[1], width, height);
    FilledAppends(c1, o[1], width, height);
    var c3 := Filled(c2, o[2], width, height);
    FilledAppends(c2, o[2], width, height);
    var c4 := Filled(c3, o[3], width, height);
    FilledAppends(c3, o[3], width, height);
    var c5 := Filled(c4, o[4], width, height);
    FilledAppends(c4, o[4], width, height);
    var c6 := Filled(c5, o[5], width, height);
    FilledAppends(c5, o[5], width, height);
    var c7 := Filled(c6, o[6], width, height);
    FilledAppends(c6, o[6], width, height);
    var c8 := Filled(c7, o[7], width, height);
    FilledAppends(c7, o[7], width, height);
    assert c8 == Painted(canvas, cx, cy, x, y, width, height);
    assert c8[..|canvas|] == canvas by {
      assert c8[..|c7|][..|canvas|] == c7[..|canvas|];
      assert c7[..|c6|][..|canvas|] == c6[..|canvas|];
      assert c6[..|c5|][..|canvas|] == c5[..|canvas|];
      assert c5[..|c4|][..|canvas|] == c4[..|canvas|];
      assert c4[..|c3|][..|canvas|] == c3[..|canvas|];
      assert c3[..|c2|][..|canvas|] == c2[..|canvas|];
      assert c2[..|c1|][..|canvas|] == c1[..|canvas|];
    }
    forall p
      ensures p in o <==> p == o[0] || p == o[1] || p == o[2] || p == o[3] || p == o[4] || p == o[5] || p == o[6] || p == o[7]
    {
    }
  }

  /** Plotting onto a canvas whose pixels are all on it leaves every pixel on it. */
  lemma {:induction false} PlotInside(canvas: seq<(int, int)>, cx: int, cy: int, steps: seq<Step>, width: int, height: int)
    requires forall p :: p in canvas ==> Inside(p, width, height)
    ensures forall p :: p in Plot(canvas, cx, cy, steps, width, height) ==> Inside(p, width, height)
    decreases |steps|
  {
    if |steps| > 0 {
      var next := Painted(canvas, cx, cy, steps[0].x, steps[0].y, width, height);
      PaintedAddsClippedOctants(canvas, cx, cy, steps[0].x, steps[0].y, width, height);
      PlotInside(next, cx, cy, steps[1..], width, height);
    }
  }

  // ---------------------------------------------------------------------------
  // The drawer
  // ---------------------------------------------------------------------------

  /** `CircleDrawer`: the canvas size, and the pixels `fillRect` has filled so far, in order. */
  class CircleDrawer
  {
    const width: int
    const height: int
    var filled: seq<(int, int)>

    /** Every filled pixel is on the canvas. */
    ghost predicate Valid()
      reads this
    {
      forall p :: p in filled ==> Inside(p, width, height)
    }

    constructor (width: int, height: int)
      ensures this.width == width && this.height == height && filled == [] && Valid()
    {
      this.width := width;
      this.height := height;
      filled := [];
    }

    /** `isPointInsideCanvas`. */
    function IsPointInsideCanvas(x: int, y: int): (r: bool)
      ensures r <==> 0 <= x < width && 0 <= y < height
    {
      x >= 0 && x < width && y >= 0 && y < height
    }

    /** `drawPoint`: fill the pixel when it is on the canvas. */
    method DrawPoint(x: int, y: int)
      modifies this
      ensures filled == Filled(old(filled), (x, y), width, height)
    {
      if IsPointInsideCanvas(x, y) {
        filled := filled + [(x, y)];
      }
    }

    /** `drawCirclePoints`: the eight symmetric points, each clipped. */
    method DrawCirclePoints(cx: int, cy: int, x: int, y: int)
      modifies this
      ensures filled == Painted(old(filled), cx, cy, x, y, width, height)
    {
      DrawPoint(cx + x, cy + y);
      DrawPoint(cx - x, cy + y);
      DrawPoint(cx + x, cy - y);
      DrawPoint(cx - x, cy - y);
      DrawPoint(cx + y, cy + x);
      DrawPoint(cx - y, cy + x);
      DrawPoint(cx + y, cy - x);
      DrawPoint(cx - y, cy - x);
    }

    /** `drawCircle`: run the loop, plotting eight points per pass. */
    method DrawCircle(centerX: int, centerY: int, radius: int)
      requires Valid()
      modifies this
      ensures filled == Plot(old(filled), centerX, centerY, CircleTrace(radius), width, height)
      ensures Valid()
    {
      var x := 0;
      var y := radius;
      var d := 3 - 2 * radius;
      ghost var rest := CircleTrace(radius);
      while y >= x
        invariant rest == Trace(x, y, d)
        invariant Plot(old(filled), centerX, centerY, CircleTrace(radius), width, height)
                  == Plot(filled, centerX, centerY, rest, width, height)
        decreases if y >= x then y - x + 1 else 0
      {
        ghost var n := Next(Step(x, y, d));
        PlotOnePass(filled, centerX, centerY, x, y, d, width, height);
        DrawCirclePoints(centerX, centerY, x, y);
        x := x + 1;
        if d > 0 {
          y := y - 1;
          d := d + 4 * (x - y) + 10;
        } else {
          d := d + 4 * x + 6;
        }
        assert x == n.x && y == n.y && d == n.d;
        rest := Trace(x, y, d);
      }
      assert rest == [];
      PlotInside(old(filled), centerX, centerY, CircleTrace(radius), width, height);
    }
  }
}
