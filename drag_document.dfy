/**
 * The image-arranging document: loaded pictures lie on a canvas in load
 * order, later ones on top; pressing on the canvas grabs the topmost picture
 * under the pointer, moving the pointer drags it with the grab offset kept,
 * and releasing lets it go.
 */
module DragDocument {
  import opened Options

  /** A loaded picture: its top-left corner and its natural size. */
  datatype Picture = Picture(x: real, y: real, width: real, height: real)

  /** The picture's closed rectangle contains the point. */
  predicate Contains(p: Picture, px: real, py: real)
  {
    p.x <= px <= p.x + p.width && p.y <= py <= p.y + p.height
  }

  /** The document's state: pictures bottom to top, and the drag in progress if any. */
  datatype Document = Document(
    images: seq<Picture>,
    isDragging: bool,
    dragStart: (real, real),
    draggedImageIndex: Option<nat>)

  /** A drag is in progress exactly when a picture is held, and the held picture exists. */
  predicate WellFormed(d: Document)
  {
    && (d.isDragging <==> d.draggedImageIndex.Some?)
    && (d.draggedImageIndex.Some? ==> d.draggedImageIndex.value < |d.images|)
  }

  /** A fresh document: no pictures, nothing held. */
  function Empty(): (d: Document)
    ensures WellFormed(d) && d.images == [] && !d.isDragging
  {
    Document([], false, (0.0, 0.0), None)
  }

  /** The index of the topmost picture containing the point, if any. */
  function TopmostHit(images: seq<Picture>, px: real, py: real): (r: Option<nat>)
    ensures r.Some? ==> r.value < |images| && Contains(images[r.value], px, py)
    ensures r.Some? ==> forall j :: r.value < j < |images| ==> !Contains(images[j], px, py)
    ensures r.None? ==> forall j :: 0 <= j < |images| ==> !Contains(images[j], px, py)
  {
    if images == [] then None
    else if Contains(images[|images| - 1], px, py) then Some(|images| - 1)
    else TopmostHit(images[..|images| - 1], px, py)
  }

  /** The state after a press at (px, py): the topmost picture under it is grabbed, if any. */
  function StartedDrag(d: Document, px: real, py: real): Document
  {
    match TopmostHit(d.images, px, py)
    case None => d
    case Some(k) =>
      d.(isDragging := true, draggedImageIndex := Some(k),
         dragStart := (px - d.images[k].x, py - d.images[k].y))
  }

  /** The state after the pointer moves to (px, py): the held picture follows it. */
  function DraggedTo(d: Document, px: real, py: real): Document
    requires WellFormed(d)
  {
    if d.isDragging && d.draggedImageIndex.Some? then
      var k := d.draggedImageIndex.value;
      d.(images := d.images[k := d.images[k].(x := px - d.dragStart.0, y := py - d.dragStart.1)])
    else d
  }

  /** The state after the press is released. */
  function EndedDrag(d: Document): Document
  {
    d.(isDragging := false, draggedImageIndex := None)
  }

  /** The state once a picture of the given size has finished loading: it goes on top at (0, 0). */
  function Loaded(d: Document, width: real, height: real): Document
  {
    d.(images := d.images + [Picture(0.0, 0.0, width, height)])
  }

  /**
   * A press grabs the topmost picture under the pointer and records where in
   * it the pointer is; a press that hits nothing changes nothing. Either way
   * the pictures stay as they are.
   */
  lemma StartedDragSpec(d: Document, px: real, py: real)
    requires WellFormed(d)
    ensures var r := StartedDrag(d, px, py);
            && WellFormed(r)
            && r.images == d.images
            && (TopmostHit(d.images, px, py).None? ==> r == d)
            && (TopmostHit(d.images, px, py).Some? ==>
                  var k := TopmostHit(d.images, px, py).value;
                  && r.isDragging && r.draggedImageIndex == Some(k)
                  && Contains(d.images[k], px, py)
                  && r.dragStart == (px - d.images[k].x, py - d.images[k].y))
  {
  }

  /**
   * Moving the pointer changes only the held picture, and nothing when
   * nothing is held.
   */
  lemma DraggedToSpec(d: Document, px: real, py: real)
    requires WellFormed(d)
    ensures var r := DraggedTo(d, px, py);
            && WellFormed(r)
            && |r.images| == |d.images|
            && r.isDragging == d.isDragging && r.draggedImageIndex == d.draggedImageIndex
            && r.dragStart == d.dragStart
            && (!d.isDragging ==> r == d)
            && (forall j :: 0 <= j < |d.images| && Some(j) != d.draggedImageIndex ==> r.images[j] == d.images[j])
  {
  }

  /**
   * Pressing at (x0, y0) on a picture and moving to (x1, y1) translates that
   * picture by exactly the pointer's displacement, so the grabbed point stays
   * under the pointer; every other picture stays where it was.
   */
  lemma DragFollowsPointer(d: Document, x0: real, y0: real, x1: real, y1: real)
    requires WellFormed(d)
    requires TopmostHit(d.images, x0, y0).Some?
    ensures var k := TopmostHit(d.images, x0, y0).value;
            var started := StartedDrag(d, x0, y0);
            WellFormed(started) &&
            var r := DraggedTo(started, x1, y1);
            && |r.images| == |d.images|
            && r.images[k] == d.images[k].(x := d.images[k].x + (x1 - x0), y := d.images[k].y + (y1 - y0))
            && (forall j :: 0 <= j < |d.images| && j != k ==> r.images[j] == d.images[j])
  {
    var k := TopmostHit(d.images, x0, y0).value;
    var started := StartedDrag(d, x0, y0);
    StartedDragSpec(d, x0, y0);
    DraggedToSpec(started, x1, y1);
    var r := DraggedTo(started, x1, y1);
    assert r.images[k].x == x1 - (x0 - d.images[k].x);
  }

  /** Releasing keeps the pictures and leaves nothing held; loading keeps what is held. */
  lemma EndedAndLoadedKeepWellFormed(d: Document, width: real, height: real)
    requires WellFormed(d)
    ensures WellFormed(EndedDrag(d)) && !EndedDrag(d).isDragging && EndedDrag(d).images == d.images
    ensures WellFormed(Loaded(d, width, height))
    ensures |Loaded(d, width, height).images| == |d.images| + 1
    ensures Loaded(d, width, height).images[..|d.images|] == d.images
  {
  }

  /** The document object, whose fields the handlers update in place. */
  class ImageDocument {
    var images: seq<Picture>
    var isDragging: bool
    var dragStart: (real, real)
    var draggedImageIndex: Option<nat>

    function State(): Document
      reads this
    {
      Document(images, isDragging, dragStart, draggedImageIndex)
    }

    ghost predicate Valid()
      reads this
    {
      WellFormed(State())
    }

    constructor ()
      ensures State() == Empty() && Valid()
    {
      images := [];
      isDragging := false;
      dragStart := (0.0, 0.0);
      draggedImageIndex := None;
    }

    /** A picture of the given size has loaded: it is pushed on top at (0, 0). */
    method LoadImage(width: real, height: real)
      requires Valid()
      modifies this
      ensures State() == Loaded(old(State()), width, height) && Valid()
    {
      images := images + [Picture(0.0, 0.0, width, height)];
    }

    /** Scans from the top picture down and grabs the first one under the pointer. */
    method StartDrag(x: real, y: real)
      requires Valid()
      modifies this
      ensures State() == StartedDrag(old(State()), x, y) && Valid()
    {
      var i := |images| - 1;
      while i >= 0
        invariant -1 <= i < |images|
        invariant State() == old(State())
        invariant forall j :: i < j < |images| ==> !Contains(images[j], x, y)
        decreases i
      {
        var img := images[i];
        if x >= img.x && x <= img.x + img.width && y >= img.y && y <= img.y + img.height {
          TopmostIsFirstHitFromTop(images, x, y, i);
          isDragging := true;
          draggedImageIndex := Some(i);
          dragStart := (x - img.x, y - img.y);
          return;
        }
        i := i - 1;
      }
      NoHitFromTop(images, x, y);
    }

    /** Moves the held picture so that the grab offset is kept. */
    method Drag(x: real, y: real)
      requires Valid()
      modifies this
      ensures State() == DraggedTo(old(State()), x, y) && Valid()
    {
      if isDragging && draggedImageIndex.Some? {
        var k := draggedImageIndex.value;
        images := images[k := images[k].(x := x - dragStart.0, y := y - dragStart.1)];
      }
      DraggedToSpec(old(State()), x, y);
    }

    method EndDrag()
      requires Valid()
      modifies this
      ensures State() == EndedDrag(old(State())) && Valid()
    {
      isDragging := false;
      draggedImageIndex := None;
    }

    method IsDrag() returns (dragging: bool)
      requires Valid()
      ensures dragging == isDragging
      ensures dragging <==> draggedImageIndex.Some?
    {
      dragging := isDragging;
    }
  }

  /** The first hit found scanning down from the top is the topmost hit. */
  lemma TopmostIsFirstHitFromTop(images: seq<Picture>, px: real, py: real, i: nat)
    requires i < |images| && Contains(images[i], px, py)
    requires forall j :: i < j < |images| ==> !Contains(images[j], px, py)
    ensures TopmostHit(images, px, py) == Some(i)
  {
  }

  /** A scan that finds nothing agrees with TopmostHit. */
  lemma NoHitFromTop(images: seq<Picture>, px: real, py: real)
    requires forall j :: 0 <= j < |images| ==> !Contains(images[j], px, py)
    ensures TopmostHit(images, px, py) == None
  {
  }
}
