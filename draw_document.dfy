/**
 * The free-hand drawing document and its tool bar: while the mouse button is
 * down, each pointer move inside the sheet strokes a segment from the
 * previous pointer position; moves outside the sheet only update that
 * position. A click on the tool bar fires the first button under it.
 */
module DrawDocument {
  import opened Options

  /** Brush width of every stroke. */
  const BrushSize: real := 5.0

  /** The sheet's rectangle on the canvas. */
  datatype Sheet = Sheet(left: real, top: real, width: real, height: real)

  /** The point lies in the sheet's closed rectangle. */
  predicate OnSheet(sheet: Sheet, x: real, y: real)
  {
    sheet.left <= x <= sheet.left + sheet.width && sheet.top <= y <= sheet.top + sheet.height
  }

  /** One stroked line, as handed to the canvas. */
  datatype Segment = Segment(fromX: real, fromY: real, toX: real, toY: real, color: string, lineWidth: real)

  /** The pen: whether the button is down, the last pointer position, the colour, and what was stroked. */
  datatype Pen = Pen(isDrawing: bool, lastX: real, lastY: real, color: string, strokes: seq<Segment>)

  /** The pen after a press at (x, y). */
  function Pressed(pen: Pen, x: real, y: real): Pen
  {
    pen.(isDrawing := true, lastX := x, lastY := y)
  }

  /** The pen after the pointer moves to (x, y). */
  function Drew(sheet: Sheet, pen: Pen, x: real, y: real): Pen
  {
    if !pen.isDrawing then pen
    else if x < sheet.left || y < sheet.top || x > sheet.left + sheet.width || y > sheet.top + sheet.height then
      pen.(lastX := x, lastY := y)
    else
      pen.(strokes := pen.strokes + [Segment(pen.lastX, pen.lastY, x, y, pen.color, BrushSize)],
           lastX := x, lastY := y)
  }

  /**
   * With the button up nothing happens. With it down the pointer position is
   * always recorded, and exactly one segment, from the previous position to
   * (x, y), is stroked when (x, y) is on the sheet; none otherwise.
   */
  lemma DrewSpec(sheet: Sheet, pen: Pen, x: real, y: real)
    ensures !pen.isDrawing ==> Drew(sheet, pen, x, y) == pen
    ensures pen.isDrawing ==>
              var r := Drew(sheet, pen, x, y);
              && r.isDrawing && r.color == pen.color
              && (r.lastX, r.lastY) == (x, y)
              && (OnSheet(sheet, x, y) ==>
                    r.strokes == pen.strokes + [Segment(pen.lastX, pen.lastY, x, y, pen.color, BrushSize)])
              && (!OnSheet(sheet, x, y) ==> r.strokes == pen.strokes)
  {
  }

  /**
   * Strokes join up: after a press at (x0, y0) and moves to (x1, y1) and then
   * (x2, y2), both on the sheet, the two segments run (x0, y0)-(x1, y1) and
   * (x1, y1)-(x2, y2). The press point itself need not be on the sheet.
   */
  lemma StrokesJoin(sheet: Sheet, pen: Pen, x0: real, y0: real, x1: real, y1: real, x2: real, y2: real)
    requires OnSheet(sheet, x1, y1) && OnSheet(sheet, x2, y2)
    ensures var r := Drew(sheet, Drew(sheet, Pressed(pen, x0, y0), x1, y1), x2, y2);
            && |r.strokes| == |pen.strokes| + 2
            && r.strokes[..|pen.strokes|] == pen.strokes
            && r.strokes[|pen.strokes|] == Segment(x0, y0, x1, y1, pen.color, BrushSize)
            && r.strokes[|pen.strokes| + 1] == Segment(x1, y1, x2, y2, pen.color, BrushSize)
  {
    var p1 := Drew(sheet, Pressed(pen, x0, y0), x1, y1);
    DrewSpec(sheet, Pressed(pen, x0, y0), x1, y1);
    DrewSpec(sheet, p1, x2, y2);
    var r := Drew(sheet, p1, x2, y2);
    assert r.strokes == pen.strokes + [Segment(x0, y0, x1, y1, pen.color, BrushSize)]
                                    + [Segment(x1, y1, x2, y2, pen.color, BrushSize)];
  }

  /**
   * Only the end of a segment is tested against the sheet: a move that
   * re-enters the sheet strokes a segment starting at the outside point.
   */
  lemma ReentryStrokeStartsOffSheet(sheet: Sheet, pen: Pen, xOut: real, yOut: real, x: real, y: real)
    requires pen.isDrawing && !OnSheet(sheet, xOut, yOut) && OnSheet(sheet, x, y)
    ensures var r := Drew(sheet, Drew(sheet, pen, xOut, yOut), x, y);
            && |r.strokes| == |pen.strokes| + 1
            && r.strokes[|pen.strokes|].fromX == xOut && r.strokes[|pen.strokes|].fromY == yOut
            && !OnSheet(sheet, r.strokes[|pen.strokes|].fromX, r.strokes[|pen.strokes|].fromY)
  {
    DrewSpec(sheet, pen, xOut, yOut);
    DrewSpec(sheet, Drew(sheet, pen, xOut, yOut), x, y);
  }

  /** A tool-bar button: its text and its rectangle. */
  datatype Button = Button(text: string, x: real, y: real, width: real, height: real)

  /** The button's closed rectangle contains the point. */
  predicate OnButton(b: Button, x: real, y: real)
  {
    b.x <= x <= b.x + b.width && b.y <= y <= b.y + b.height
  }

  /** The tool bar, left to right. */
  const Buttons: seq<Button> := [
    Button("Open File", 20.0, 30.0, 80.0, 30.0),
    Button("New", 110.0, 30.0, 80.0, 30.0),
    Button("Save As", 200.0, 30.0, 80.0, 30.0),
    Button("Choose Color", 290.0, 30.0, 100.0, 30.0)
  ]

  /** The index of the first button, in list order, under the point. */
  function FirstHit(buttons: seq<Button>, x: real, y: real): (r: Option<nat>)
    ensures r.Some? ==> r.value < |buttons| && OnButton(buttons[r.value], x, y)
    ensures r.Some? ==> forall j :: 0 <= j < r.value ==> !OnButton(buttons[j], x, y)
    ensures r.None? ==> forall j :: 0 <= j < |buttons| ==> !OnButton(buttons[j], x, y)
  {
    if buttons == [] then None
    else if OnButton(buttons[0], x, y) then Some(0)
    else match FirstHit(buttons[1..], x, y)
      case None => None
      case Some(k) => Some(k + 1)
  }

  /** No point of the tool bar lies on two buttons, so a click has at most one candidate. */
  lemma ButtonsDoNotOverlap(x: real, y: real, i: nat, j: nat)
    requires i < j < |Buttons|
    ensures !(OnButton(Buttons[i], x, y) && OnButton(Buttons[j], x, y))
  {
    assert Buttons[i].x + Buttons[i].width < Buttons[j].x by {
      assert Buttons[0].x + Buttons[0].width < Buttons[1].x;
      assert Buttons[1].x + Buttons[1].width < Buttons[2].x;
      assert Buttons[2].x + Buttons[2].width < Buttons[3].x;
    }
  }

  /** The click handler's scan: the first button under the point fires, and the scan stops. */
  method Click(x: real, y: real) returns (fired: Option<nat>)
    ensures fired == FirstHit(Buttons, x, y)
    ensures fired.Some? ==> forall j :: 0 <= j < |Buttons| && j != fired.value ==> !OnButton(Buttons[j], x, y)
  {
    fired := None;
    for i := 0 to |Buttons|
      invariant forall j :: 0 <= j < i ==> !OnButton(Buttons[j], x, y)
    {
      var b := Buttons[i];
      if x >= b.x && x <= b.x + b.width && y >= b.y && y <= b.y + b.height {
        fired := Some(i);
        break;
      }
    }
    FirstHitIsFirstFound(Buttons, x, y, fired);
    if fired.Some? {
      forall j | 0 <= j < |Buttons| && j != fired.value
        ensures !OnButton(Buttons[j], x, y)
      {
        if j > fired.value {
          ButtonsDoNotOverlap(x, y, fired.value, j);
        }
      }
    }
  }

  /** A front-to-back scan that stops at its first hit finds FirstHit. */
  lemma FirstHitIsFirstFound(buttons: seq<Button>, x: real, y: real, found: Option<nat>)
    requires found.Some? ==> found.value < |buttons| && OnButton(buttons[found.value], x, y)
    requires found.Some? ==> forall j :: 0 <= j < found.value ==> !OnButton(buttons[j], x, y)
    requires found.None? ==> forall j :: 0 <= j < |buttons| ==> !OnButton(buttons[j], x, y)
    ensures found == FirstHit(buttons, x, y)
  {
  }

  /** The drawing document: the images placed on the sheet and the pen. */
  class ImageDocument {
    const initX: real
    const initY: real
    const width: real
    const height: real
    var images: seq<(real, real)>
    var isDrawing: bool
    var lastX: real
    var lastY: real
    var drawingColor: string
    var strokes: seq<Segment>

    /** The sheet the images are placed on and strokes are clipped to. */
    function Area(): Sheet
    {
      Sheet(initX, initY, width, height)
    }

    function State(): Pen
      reads this
    {
      Pen(isDrawing, lastX, lastY, drawingColor, strokes)
    }

    /** initX and initY stand for the window-derived initial position of each image. */
    constructor (width: real, height: real, initX: real, initY: real)
      ensures Area() == Sheet(initX, initY, width, height)
      ensures State() == Pen(false, 0.0, 0.0, "#000000", []) && images == []
    {
      this.width := width;
      this.height := height;
      this.initX := initX;
      this.initY := initY;
      images := [];
      isDrawing := false;
      lastX := 0.0;
      lastY := 0.0;
      drawingColor := "#000000";
      strokes := [];
    }

    /** A loaded or newly created image is placed at the sheet's corner. */
    method PlaceImage()
      modifies this
      ensures images == old(images) + [(initX, initY)]
      ensures State() == old(State())
    {
      images := images + [(initX, initY)];
    }

    method SetDrawingColor(color: string)
      modifies this
      ensures State() == old(State()).(color := color) && images == old(images)
    {
      drawingColor := color;
    }

    method StartDrawing(x: real, y: real)
      modifies this
      ensures State() == Pressed(old(State()), x, y) && images == old(images)
    {
      isDrawing := true;
      lastX := x;
      lastY := y;
    }

    /** A pointer move: a stroke from the last position when (x, y) is on the sheet. */
    method Draw(x: real, y: real)
      modifies this
      ensures State() == Drew(Area(), old(State()), x, y) && images == old(images)
    {
      if isDrawing {
        if x < initX || y < initY || x > initX + width || y > initY + height {
          lastX := x;
          lastY := y;
          return;
        }
        strokes := strokes + [Segment(lastX, lastY, x, y, drawingColor, BrushSize)];
        lastX := x;
        lastY := y;
      }
    }

    method EndDrawing()
      modifies this
      ensures State() == old(State()).(isDrawing := false) && images == old(images)
    {
      isDrawing := false;
    }

    /** Pointer moves are drawn only while the button is down over a document with an image. */
    method IsDraw() returns (drawing: bool)
      ensures drawing <==> isDrawing && |images| > 0
    {
      drawing := isDrawing && |images| > 0;
    }
  }
}
