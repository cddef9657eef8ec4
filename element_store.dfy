/**
 * The element sandbox's store (2/ts/3/src/Model/ElementStore.ts): the live tiles,
 * the id counter and the list of discovered types, with spawning, moving, removing
 * and the combination rule that fires when a moved tile lands on another.
 *
 * The first half states what each operation does to the store's state as a value
 * (`Sandbox`) and proves the source's promises about it; the class `Store` at the end
 * holds that state in fields and its methods are proved to follow these functions.
 * JavaScript numbers are modelled as exact `real`s.
 */
module ElementStore {
  import opened Options
  import opened Decimal
  import opened Elements
  import opened ElementCreator

  /** The store's three errors, with the messages the source throws. */
  datatype StoreError = NotDiscovered | UnknownId | OutOfCanvas
  {
    function Message(): string
    {
      match this
      case NotDiscovered => "This type is not created"
      case UnknownId => "Unknown id"
      case OutOfCanvas => "Element position is out of canvas"
    }
  }

  /** A call either returns normally or throws. */
  datatype Outcome = Done | Thrown(error: StoreError)

  /** The canvas size and the size every tile is created with. */
  datatype Layout = Layout(width: real, height: real, elementWidth: real, elementHeight: real)

  /** The store's state: the live tiles in list order, the discovered types in order, and the id counter. */
  datatype Sandbox = Sandbox(tiles: seq<Element>, openedTypes: seq<ElementType>, count: nat)

  // ---------------------------------------------------------------------------
  // Invariant of the store
  // ---------------------------------------------------------------------------

  predicate UniqueIds(tiles: seq<Element>)
  {
    forall i, j :: 0 <= i < j < |tiles| ==> tiles[i].id != tiles[j].id
  }

  /** The id is the decimal rendering of a counter value below `count`. */
  ghost predicate Issued(id: string, count: nat)
  {
    exists n: nat :: n < count && id == NatToString(n)
  }

  /** Every live id was handed out by the counter. */
  ghost predicate IdsIssuedBelow(tiles: seq<Element>, count: nat)
  {
    forall i :: 0 <= i < |tiles| ==> Issued(tiles[i].id, count)
  }

  predicate NoDuplicates(types: seq<ElementType>)
  {
    forall i, j :: 0 <= i < j < |types| ==> types[i] != types[j]
  }

  /**
   * What holds of the store between calls: ids are unique and were issued by the
   * counter, every tile has the store's tile size, and the discovered list starts
   * with the four base types and repeats nothing.
   */
  ghost predicate WellFormed(s: Sandbox, g: Layout)
  {
    && UniqueIds(s.tiles)
    && IdsIssuedBelow(s.tiles, s.count)
    && (forall i :: 0 <= i < |s.tiles| ==>
          s.tiles[i].width == g.elementWidth && s.tiles[i].height == g.elementHeight)
    && |s.openedTypes| >= 4 && s.openedTypes[..4] == [Water, Fire, Air, Earth]
    && NoDuplicates(s.openedTypes)
  }

  /** An id issued below one counter value is issued below any larger one. */
  lemma IssuedBelowMore(id: string, count: nat, more: nat)
    requires Issued(id, count) && count <= more
    ensures Issued(id, more)
  {
    var n: nat :| n < count && id == NatToString(n);
    assert n < more;
  }

  /** The id the counter hands out next is not the id of any live tile. */
  lemma FreshIdIsUnused(tiles: seq<Element>, count: nat, extra: nat)
    requires IdsIssuedBelow(tiles, count)
    ensures forall i :: 0 <= i < |tiles| ==> tiles[i].id != NatToString(count + extra)
  {
    forall i | 0 <= i < |tiles|
      ensures tiles[i].id != NatToString(count + extra)
    {
      var n: nat :| n < count && tiles[i].id == NatToString(n);
      NatToStringInjective(n, count + extra);
    }
  }

  // ---------------------------------------------------------------------------
  // Construction
  // ---------------------------------------------------------------------------

  /** The four base tiles around the centre of the canvas and the initial discovered list. */
  function Initial(g: Layout): Sandbox
  {
    var centerX := (g.width - g.elementWidth) / 2.0;
    var centerY := (g.height - g.elementHeight) / 2.0;
    Sandbox(
      [ Element(NatToString(0), Fire, centerX - g.elementWidth, centerY, g.elementWidth, g.elementHeight),
        Element(NatToString(1), Water, centerX + g.elementWidth, centerY, g.elementWidth, g.elementHeight),
        Element(NatToString(2), Earth, centerX, centerY - g.elementHeight, g.elementWidth, g.elementHeight),
        Element(NatToString(3), Air, centerX, centerY + g.elementHeight, g.elementWidth, g.elementHeight) ],
      [Water, Fire, Air, Earth],
      4)
  }

  /** A new store holds fire, water, earth and air with ids "0" to "3", a counter at 4 and the four base types discovered. */
  lemma InitialTiles(g: Layout)
    ensures Initial(g).count == 4 && Initial(g).openedTypes == [Water, Fire, Air, Earth]
    ensures |Initial(g).tiles| == 4
    ensures Initial(g).tiles[0].id == "0" && Initial(g).tiles[0].elementType == Fire
    ensures Initial(g).tiles[1].id == "1" && Initial(g).tiles[1].elementType == Water
    ensures Initial(g).tiles[2].id == "2" && Initial(g).tiles[2].elementType == Earth
    ensures Initial(g).tiles[3].id == "3" && Initial(g).tiles[3].elementType == Air
  {
    assert NatToString(0) == "0" && NatToString(1) == "1" && NatToString(2) == "2" && NatToString(3) == "3";
  }

  /** The starting sandbox satisfies the store's invariant. */
  lemma InitialIsWellFormed(g: Layout)
    ensures WellFormed(Initial(g), g)
  {
    var s := Initial(g);
    InitialTiles(g);
    assert UniqueIds(s.tiles);
    assert IdsIssuedBelow(s.tiles, 4) by {
      forall i | 0 <= i < 4
        ensures Issued(s.tiles[i].id, 4)
      {
        assert s.tiles[i].id == NatToString(i);
      }
    }
    assert NoDuplicates(s.openedTypes);
  }

  // ---------------------------------------------------------------------------
  // Lookup and removal
  // ---------------------------------------------------------------------------

  /** `tryGetElement`: `_elements.find(e => e.id === id)`, as the index of the first tile with that id. */
  function FindIndex(tiles: seq<Element>, id: string): (r: Option<nat>)
    ensures r.Some? ==> r.value < |tiles| && tiles[r.value].id == id
    ensures r.Some? ==> forall j :: 0 <= j < r.value ==> tiles[j].id != id
    ensures r.None? ==> forall j :: 0 <= j < |tiles| ==> tiles[j].id != id
  {
    if |tiles| == 0 then None
    else if tiles[0].id == id then Some(0)
    else match FindIndex(tiles[1..], id)
      case None => None
      case Some(k) => Some(k + 1)
  }

  /** `tiles.filter(el => el.id !== id)`. */
  function Without(tiles: seq<Element>, id: string): (r: seq<Element>)
    ensures |r| <= |tiles|
  {
    if |tiles| == 0 then []
    else (if tiles[0].id == id then [] else [tiles[0]]) + Without(tiles[1..], id)
  }

  /** The filter keeps exactly the tiles whose id differs. */
  lemma {:induction false} WithoutMembers(tiles: seq<Element>, id: string)
    ensures forall e :: e in Without(tiles, id) <==> e in tiles && e.id != id
  {
    if |tiles| > 0 {
      WithoutMembers(tiles[1..], id);
      assert tiles == [tiles[0]] + tiles[1..];
    }
  }

  /** Filtering out an id no tile has changes nothing. */
  lemma {:induction false} WithoutAbsent(tiles: seq<Element>, id: string)
    requires forall j :: 0 <= j < |tiles| ==> tiles[j].id != id
    ensures Without(tiles, id) == tiles
  {
    if |tiles| > 0 {
      WithoutAbsent(tiles[1..], id);
      assert tiles == [tiles[0]] + tiles[1..];
    }
  }

  /** With unique ids, filtering out tile k's id removes exactly tile k and keeps the others in order. */
  lemma {:induction false} WithoutRemovesOne(tiles: seq<Element>, k: nat)
    requires UniqueIds(tiles) && k < |tiles|
    ensures Without(tiles, tiles[k].id) == tiles[..k] + tiles[k + 1..]
  {
    var rest := tiles[1..];
    if k == 0 {
      WithoutAbsent(rest, tiles[0].id);
    } else {
      assert UniqueIds(rest) by {
        forall i, j | 0 <= i < j < |rest|
          ensures rest[i].id != rest[j].id
        {
          assert rest[i] == tiles[i + 1] && rest[j] == tiles[j + 1];
        }
      }
      assert rest[k - 1] == tiles[k];
      WithoutRemovesOne(rest, k - 1);
      assert tiles[0].id != tiles[k].id;
      assert Without(tiles, tiles[k].id) == [tiles[0]] + Without(rest, tiles[k].id);
      assert tiles[..k] == [tiles[0]] + rest[..k - 1];
      assert tiles[k + 1..] == rest[k..];
    }
  }

  /** Filtering keeps ids unique and issued, and keeps every tile's size. */
  lemma {:induction false} WithoutKeepsInvariant(tiles: seq<Element>, id: string, count: nat)
    requires UniqueIds(tiles) && IdsIssuedBelow(tiles, count)
    ensures UniqueIds(Without(tiles, id)) && IdsIssuedBelow(Without(tiles, id), count)
  {
    var r := Without(tiles, id);
    match FindIndex(tiles, id)
    case None =>
      WithoutAbsent(tiles, id);
    case Some(k) =>
      WithoutRemovesOne(tiles, k);
      assert r == tiles[..k] + tiles[k + 1..];
      forall i | 0 <= i < |r|
        ensures r[i] == tiles[if i < k then i else i + 1]
      {
      }
  }

  /** `remove(id)`: the tile with that id goes, an unknown id changes nothing. */
  function Deleted(s: Sandbox, id: string): (r: Sandbox)
    ensures r.openedTypes == s.openedTypes && r.count == s.count
    ensures FindIndex(s.tiles, id).None? ==> r == s
  {
    match FindIndex(s.tiles, id)
    case None => s
    case Some(_) => s.(tiles := Without(s.tiles, id))
  }

  /** Removing a live tile deletes that tile only, leaving every other tile as it was and in order. */
  lemma RemoveDeletesOnlyThatTile(s: Sandbox, g: Layout, k: nat)
    requires WellFormed(s, g) && k < |s.tiles|
    ensures Deleted(s, s.tiles[k].id).tiles == s.tiles[..k] + s.tiles[k + 1..]
    ensures WellFormed(Deleted(s, s.tiles[k].id), g)
  {
    var id := s.tiles[k].id;
    match FindIndex(s.tiles, id)
    case None =>
    case Some(j) =>
      assert j == k;
      WithoutRemovesOne(s.tiles, k);
      WithoutKeepsInvariant(s.tiles, id, s.count);
  }

  // ---------------------------------------------------------------------------
  // Spawning a tile
  // ---------------------------------------------------------------------------

  /** `addElement(type)`: throws unless the type is discovered; otherwise appends one tile at the centre. */
  function Spawned(s: Sandbox, t: ElementType, g: Layout): (Outcome, Sandbox)
  {
    if t !in s.openedTypes then (Thrown(NotDiscovered), s)
    else
      var tile := Element(NatToString(s.count), t, (g.width - g.elementWidth) / 2.0,
                          (g.height - g.elementHeight) / 2.0, g.elementWidth, g.elementHeight);
      (Done, s.(tiles := s.tiles + [tile], count := s.count + 1))
  }

  /**
   * Spawning an undiscovered type throws and changes nothing; spawning a discovered
   * one appends exactly one tile of that type, centred, with a fresh id, and keeps the
   * store invariant.
   */
  lemma SpawnedSpec(s: Sandbox, t: ElementType, g: Layout)
    requires WellFormed(s, g)
    ensures t !in s.openedTypes ==> Spawned(s, t, g) == (Thrown(NotDiscovered), s)
    ensures t in s.openedTypes ==>
      var (o, r) := Spawned(s, t, g);
      && o == Done && r.openedTypes == s.openedTypes && r.count == s.count + 1
      && |r.tiles| == |s.tiles| + 1 && r.tiles[..|s.tiles|] == s.tiles
      && r.tiles[|s.tiles|].elementType == t
      && r.tiles[|s.tiles|].left == (g.width - g.elementWidth) / 2.0
      && r.tiles[|s.tiles|].top == (g.height - g.elementHeight) / 2.0
      && (forall i :: 0 <= i < |s.tiles| ==> s.tiles[i].id != r.tiles[|s.tiles|].id)
      && WellFormed(r, g)
  {
    if t in s.openedTypes {
      var (o, r) := Spawned(s, t, g);
      FreshIdIsUnused(s.tiles, s.count, 0);
      forall i | 0 <= i < |r.tiles|
        ensures Issued(r.tiles[i].id, r.count)
      {
        if i < |s.tiles| {
          assert r.tiles[i] == s.tiles[i];
          IssuedBelowMore(s.tiles[i].id, s.count, r.count);
        } else {
          assert r.tiles[i].id == NatToString(s.count);
        }
      }
    }
  }

  // ---------------------------------------------------------------------------
  // The combination rule
  // ---------------------------------------------------------------------------

  /** `checkIsPointInArea`: (x, y) lies in the closed rectangle [left, right] x [top, bottom]. */
  predicate InArea(x: real, y: real, left: real, right: real, top: real, bottom: real)
  {
    left <= x <= right && top <= y <= bottom
  }

  /** The overlap test of `checkAndCombineElements`: one of `item`'s four corners lies in `moved`'s closed rectangle. */
  predicate CornerInside(item: Element, moved: Element)
  {
    var right, bottom := moved.left + moved.width, moved.top + moved.height;
    || InArea(item.left, item.top, moved.left, right, moved.top, bottom)
    || InArea(item.left + item.width, item.top, moved.left, right, moved.top, bottom)
    || InArea(item.left, item.top + item.height, moved.left, right, moved.top, bottom)
    || InArea(item.left + item.width, item.top + item.height, moved.left, right, moved.top, bottom)
  }

  /** The closed rectangles of two tiles intersect. */
  predicate Intersect(a: Element, b: Element)
  {
    a.left <= b.left + b.width && b.left <= a.left + a.width &&
    a.top <= b.top + b.height && b.top <= a.top + a.height
  }

  /**
   * For two tiles of one and the same size, as every tile in the store is, the
   * four-corner test is exactly intersection of the closed rectangles, and so it
   * does not matter which of the two was moved.
   */
  lemma CornerInsideIsIntersection(item: Element, moved: Element)
    requires item.width == moved.width >= 0.0 && item.height == moved.height >= 0.0
    ensures CornerInside(item, moved) <==> Intersect(item, moved)
    ensures CornerInside(item, moved) <==> CornerInside(moved, item)
  {
    var w, h := moved.width, moved.height;
    if Intersect(item, moved) {
      var cx := if item.left >= moved.left then item.left else item.left + w;
      var cy := if item.top >= moved.top then item.top else item.top + h;
      assert InArea(cx, cy, moved.left, moved.left + w, moved.top, moved.top + h);
    }
    if Intersect(moved, item) {
      var cx := if moved.left >= item.left then moved.left else moved.left + w;
      var cy := if moved.top >= item.top then moved.top else moved.top + h;
      assert InArea(cx, cy, item.left, item.left + w, item.top, item.top + h);
    }
  }

  /** Tiles of different sizes can intersect without a corner of the other tile inside the moved one. */
  lemma CornerTestMissesSmallerMovedTile()
    ensures var item := Element("a", Water, 0.0, 0.0, 100.0, 100.0);
            var moved := Element("b", Fire, 40.0, 40.0, 10.0, 10.0);
            Intersect(item, moved) && !CornerInside(item, moved)
  {
  }

  /** Tile `item` combines with `moved`: a different tile, a corner inside, and a non-empty recipe. */
  predicate Fires(item: Element, moved: Element)
  {
    && item.id != moved.id
    && CornerInside(item, moved)
    && CreateNewElement(moved.elementType, item.elementType).Some?
    && |CreateNewElement(moved.elementType, item.elementType).value| > 0
  }

  /** The index of the first tile at or after `from`, in list order, that combines with `moved`. */
  function FirstPartner(tiles: seq<Element>, moved: Element, from: nat): (r: Option<nat>)
    requires from <= |tiles|
    ensures r.Some? ==> from <= r.value < |tiles| && Fires(tiles[r.value], moved)
    ensures forall j :: from <= j < |tiles| && (r.None? || j < r.value) ==> !Fires(tiles[j], moved)
    decreases |tiles| - from
  {
    if from == |tiles| then None
    else if Fires(tiles[from], moved) then Some(from)
    else FirstPartner(tiles, moved, from + 1)
  }

  /** The tiles `createElement` appends: result i of n takes id count+i and stands at first + (i+1)(first - second)/(n+1). */
  function ResultTiles(first: Element, second: Element, types: seq<ElementType>, count: nat, g: Layout): (r: seq<Element>)
    ensures |r| == |types|
  {
    var stepX := (first.left - second.left) / (|types| + 1) as real;
    var stepY := (first.top - second.top) / (|types| + 1) as real;
    seq(|types|, i requires 0 <= i < |types| =>
      Element(NatToString(count + i), types[i], first.left + (i + 1) as real * stepX,
              first.top + (i + 1) as real * stepY, g.elementWidth, g.elementHeight))
  }

  /** Result i of a combination has id count+i, type i and the store's tile size. */
  lemma ResultTileAt(first: Element, second: Element, types: seq<ElementType>, count: nat, g: Layout, i: nat)
    requires i < |types|
    ensures var t := ResultTiles(first, second, types, count, g)[i];
            t == Element(NatToString(count + i), types[i], t.left, t.top, g.elementWidth, g.elementHeight)
  {
  }

  /** The first result is one step from the moved tile, and each next one a further step. */
  lemma ResultTilesSpacing(first: Element, second: Element, types: seq<ElementType>, count: nat, g: Layout, i: nat)
    requires i < |types|
    ensures var r := ResultTiles(first, second, types, count, g);
            var stepX := (first.left - second.left) / (|types| + 1) as real;
            var stepY := (first.top - second.top) / (|types| + 1) as real;
            && (i == 0 ==> r[0].left == first.left + stepX && r[0].top == first.top + stepY)
            && (i + 1 < |types| ==> r[i + 1].left == r[i].left + stepX && r[i + 1].top == r[i].top + stepY)
  {
    var stepX := (first.left - second.left) / (|types| + 1) as real;
    var stepY := (first.top - second.top) / (|types| + 1) as real;
    NextStep(first.left, stepX, (i + 1) as real);
    NextStep(first.top, stepY, (i + 1) as real);
  }

  /**
   * The results stand on the line through both inputs, on the far side of the moved
   * tile: result i of n is (n+2+i)/(n+1) times as far from the other tile as the moved
   * tile is, in both coordinates. They are not placed between the two inputs, and
   * nothing checks that they lie on the canvas.
   */
  lemma ResultsStepAwayFromPartner(first: Element, second: Element, types: seq<ElementType>, count: nat, g: Layout, i: nat)
    requires i < |types|
    ensures var n := |types|;
            var t := ResultTiles(first, second, types, count, g)[i];
            && (n + 1) as real * (t.left - second.left) == (n + 2 + i) as real * (first.left - second.left)
            && (n + 1) as real * (t.top - second.top) == (n + 2 + i) as real * (first.top - second.top)
            && t.elementType == types[i] && t.id == NatToString(count + i)
  {
    var n := |types|;
    var d := (n + 1) as real;
    var k := (i + 1) as real;
    var dx, dy := first.left - second.left, first.top - second.top;
    var qx, qy := dx / d, dy / d;
    assert d * qx == dx && d * qy == dy;
    assert d * (dx + k * qx) == d * dx + k * (d * qx);
    assert d * (dy + k * qy) == d * dy + k * (d * qy);
  }

  /** One more step along the line: the (k+1)-th point plus a step is the (k+2)-th. */
  lemma NextStep(origin: real, step: real, k: real)
    ensures origin + k * step + step == origin + (k + 1.0) * step
  {
  }

  /** The discovered list after `createElement` adds each result type not yet present, in result order. */
  function Discover(openedTypes: seq<ElementType>, types: seq<ElementType>): seq<ElementType>
    decreases |types|
  {
    if |types| == 0 then openedTypes
    else
      var prior := Discover(openedTypes, types[..|types| - 1]);
      var t := types[|types| - 1];
      if t in prior then prior else prior + [t]
  }

  /**
   * The discovered list only grows: the old list is a prefix of the new one, nothing is
   * repeated, and what is gained is exactly the result types not already discovered.
   */
  lemma {:induction false} DiscoverGrows(openedTypes: seq<ElementType>, types: seq<ElementType>)
    requires NoDuplicates(openedTypes)
    ensures var r := Discover(openedTypes, types);
            && |openedTypes| <= |r| && r[..|openedTypes|] == openedTypes
            && NoDuplicates(r)
            && (forall t :: t in r <==> t in openedTypes || t in types)
            && (forall i :: |openedTypes| <= i < |r| ==> r[i] in types && r[i] !in openedTypes)
    decreases |types|
  {
    if |types| > 0 {
      var front := types[..|types| - 1];
      DiscoverGrows(openedTypes, front);
      var prior := Discover(openedTypes, front);
      assert types == front + [types[|types| - 1]];
      var r := Discover(openedTypes, types);
      if types[|types| - 1] !in prior {
        assert r[..|prior|] == prior;
        assert r[..|openedTypes|] == prior[..|openedTypes|];
      }
    }
  }

  /** Extending a prefix of `s` by its next element. */
  lemma AppendNext<T>(front: seq<T>, s: seq<T>, i: nat)
    requires i < |s|
    ensures (front + s[..i]) + [s[i]] == front + s[..i + 1]
  {
    assert s[..i + 1] == s[..i] + [s[i]];
  }

  /** Discovering one more result type: it is appended exactly when it is not yet in the list. */
  lemma DiscoverStep(openedTypes: seq<ElementType>, types: seq<ElementType>, i: nat)
    requires i < |types|
    ensures var prior := Discover(openedTypes, types[..i]);
            Discover(openedTypes, types[..i + 1]) == if types[i] in prior then prior else prior + [types[i]]
  {
    assert types[..i + 1][..i] == types[..i];
  }

  /** `createElement(first, second, types)`: both inputs go, the results are appended, new types discovered. */
  function Combined(s: Sandbox, first: Element, second: Element, types: seq<ElementType>, g: Layout): Sandbox
  {
    Sandbox(Without(Without(s.tiles, first.id), second.id) + ResultTiles(first, second, types, s.count, g),
            Discover(s.openedTypes, types),
            s.count + |types|)
  }

  /** What `checkAndCombineElements` does once tile k has moved: at most one combination, with the first partner. */
  function CheckAndCombine(s: Sandbox, k: nat, g: Layout): Sandbox
    requires k < |s.tiles|
  {
    match FirstPartner(s.tiles, s.tiles[k], 0)
    case None => s
    case Some(j) =>
      Combined(s, s.tiles[k], s.tiles[j],
               CreateNewElement(s.tiles[k].elementType, s.tiles[j].elementType).value, g)
  }

  /** The results of a combination have fresh, distinct ids issued by the counter, and the store's tile size. */
  lemma ResultTilesFresh(tiles: seq<Element>, first: Element, second: Element, types: seq<ElementType>, count: nat, g: Layout)
    requires UniqueIds(tiles) && IdsIssuedBelow(tiles, count)
    ensures var all := tiles + ResultTiles(first, second, types, count, g);
            UniqueIds(all) && IdsIssuedBelow(all, count + |types|)
  {
    var res := ResultTiles(first, second, types, count, g);
    var all := tiles + res;
    forall i, j | 0 <= i < j < |all|
      ensures all[i].id != all[j].id
    {
      if j >= |tiles| {
        if i < |tiles| {
          FreshIdIsUnused(tiles, count, j - |tiles|);
        } else {
          NatToStringInjective(count + i - |tiles|, count + j - |tiles|);
        }
      }
    }
    forall i | 0 <= i < |all|
      ensures Issued(all[i].id, count + |types|)
    {
      if i < |tiles| {
        var n: nat :| n < count && tiles[i].id == NatToString(n);
        assert all[i] == tiles[i];
        assert n < count + |types|;
      } else {
        var n: nat := count + (i - |tiles|);
        assert all[i] == res[i - |tiles|];
        assert n < count + |types| && all[i].id == NatToString(n);
      }
    }
  }

  /** A combination keeps the store invariant. */
  lemma CombinedKeepsInvariant(s: Sandbox, first: Element, second: Element, types: seq<ElementType>, g: Layout)
    requires WellFormed(s, g)
    ensures WellFormed(Combined(s, first, second, types, g), g)
  {
    var once := Without(s.tiles, first.id);
    WithoutKeepsInvariant(s.tiles, first.id, s.count);
    var twice := Without(once, second.id);
    WithoutKeepsInvariant(once, second.id, s.count);
    WithoutMembers(s.tiles, first.id);
    WithoutMembers(once, second.id);
    ResultTilesFresh(twice, first, second, types, s.count, g);
    DiscoverGrows(s.openedTypes, types);
    var r := Combined(s, first, second, types, g);
    forall i | 0 <= i < |r.tiles|
      ensures r.tiles[i].width == g.elementWidth && r.tiles[i].height == g.elementHeight
    {
      if i < |twice| {
        assert r.tiles[i] in twice;
      }
    }
  }

  /**
   * A combination of two live tiles removes exactly those two and adds one tile per
   * result: the live count changes by n - 2.
   */
  lemma CombinedLiveCount(s: Sandbox, g: Layout, k: nat, j: nat, types: seq<ElementType>)
    requires WellFormed(s, g) && k < |s.tiles| && j < |s.tiles| && k != j
    ensures |Combined(s, s.tiles[k], s.tiles[j], types, g).tiles| == |s.tiles| - 2 + |types|
  {
    var once := Without(s.tiles, s.tiles[k].id);
    WithoutRemovesOne(s.tiles, k);
    WithoutKeepsInvariant(s.tiles, s.tiles[k].id, s.count);
    var j' := if j < k then j else j - 1;
    assert once[j'] == s.tiles[j];
    WithoutRemovesOne(once, j');
  }

  /** After a combination of two live tiles, no tile carries either input's id. */
  lemma CombinedDropsInputs(s: Sandbox, first: Element, second: Element, types: seq<ElementType>, g: Layout)
    requires IdsIssuedBelow(s.tiles, s.count) && first in s.tiles && second in s.tiles
    ensures forall t :: t in Combined(s, first, second, types, g).tiles ==> t.id != first.id && t.id != second.id
  {
    var once := Without(s.tiles, first.id);
    WithoutMembers(s.tiles, first.id);
    WithoutMembers(once, second.id);
    var res := ResultTiles(first, second, types, s.count, g);
    forall i | 0 <= i < |res|
      ensures res[i].id != first.id && res[i].id != second.id
    {
      FreshIdIsUnused(s.tiles, s.count, i);
    }
  }

  // ---------------------------------------------------------------------------
  // Moving a tile
  // ---------------------------------------------------------------------------

  /** The bounds check of `setNewPosition`: the tile at (x, y) would lie on the canvas. */
  predicate FitsCanvas(x: real, y: real, g: Layout)
  {
    !(x < 0.0 || y < 0.0 || x + g.elementWidth > g.width || y + g.elementHeight > g.height)
  }

  /**
   * `setNewPosition(id, x, y)`: an unknown id throws, then a position off the canvas
   * throws, both before anything changes; otherwise the tile moves and the combination
   * rule runs.
   */
  function Repositioned(s: Sandbox, id: string, x: real, y: real, g: Layout): (Outcome, Sandbox)
  {
    match FindIndex(s.tiles, id)
    case None => (Thrown(UnknownId), s)
    case Some(k) =>
      if !FitsCanvas(x, y, g) then (Thrown(OutOfCanvas), s)
      else (Done, CheckAndCombine(s.(tiles := s.tiles[k := Moved(s.tiles[k], x, y)]), k, g))
  }

  /**
   * A move throws exactly on an unknown id or a position off the canvas, and then
   * changes nothing. A move that fires no combination changes the moved tile's
   * position and nothing else; one that fires changes the live count by n - 2 for n
   * results. Either way the store invariant holds afterwards.
   */
  lemma RepositionedSpec(s: Sandbox, id: string, x: real, y: real, g: Layout)
    requires WellFormed(s, g)
    ensures var (o, r) := Repositioned(s, id, x, y, g);
            && (o == Thrown(UnknownId) <==> FindIndex(s.tiles, id).None?)
            && (o == Thrown(OutOfCanvas) <==> FindIndex(s.tiles, id).Some? && !FitsCanvas(x, y, g))
            && (o.Thrown? ==> r == s)
            && WellFormed(r, g)
    ensures FindIndex(s.tiles, id).Some? && FitsCanvas(x, y, g) ==>
            var k := FindIndex(s.tiles, id).value;
            var moved := s.tiles[k := Moved(s.tiles[k], x, y)];
            var r := Repositioned(s, id, x, y, g).1;
            match FirstPartner(moved, moved[k], 0)
            case None => r.tiles == moved && r.openedTypes == s.openedTypes && r.count == s.count
            case Some(j) =>
              var n := |CreateNewElement(moved[k].elementType, moved[j].elementType).value|;
              |r.tiles| == |s.tiles| - 2 + n && r.count == s.count + n
  {
    match FindIndex(s.tiles, id)
    case None =>
    case Some(k) =>
      if FitsCanvas(x, y, g) {
        var m := s.(tiles := s.tiles[k := Moved(s.tiles[k], x, y)]);
        assert WellFormed(m, g) by {
          forall i | 0 <= i < |m.tiles|
            ensures Issued(m.tiles[i].id, m.count)
          {
            var n: nat :| n < s.count && s.tiles[i].id == NatToString(n);
            assert m.tiles[i].id == s.tiles[i].id;
          }
        }
        match FirstPartner(m.tiles, m.tiles[k], 0)
        case None =>
        case Some(j) =>
          var types := CreateNewElement(m.tiles[k].elementType, m.tiles[j].elementType).value;
          CombinedKeepsInvariant(m, m.tiles[k], m.tiles[j], types, g);
          CombinedLiveCount(m, g, k, j, types);
      }
  }

  /** A combination can place its result off the canvas: the results are not bounds-checked. */
  lemma ResultCanLeaveCanvas()
    ensures var g := Layout(800.0, 600.0, 50.0, 50.0);
            var s := Sandbox([Element("0", Fire, 0.0, 0.0, 50.0, 50.0), Element("1", Water, 40.0, 0.0, 50.0, 50.0)],
                             [Water, Fire, Air, Earth], 2);
            var r := Repositioned(s, "0", 0.0, 0.0, g).1;
            r.tiles == [Element("2", Steam, -20.0, 0.0, 50.0, 50.0)] && !FitsCanvas(-20.0, 0.0, g)
  {
    var g := Layout(800.0, 600.0, 50.0, 50.0);
    var s := Sandbox([Element("0", Fire, 0.0, 0.0, 50.0, 50.0), Element("1", Water, 40.0, 0.0, 50.0, 50.0)],
                     [Water, Fire, Air, Earth], 2);
    var m := s.tiles[0 := Moved(s.tiles[0], 0.0, 0.0)];
    assert FindIndex(s.tiles, "0") == Some(0);
    assert Fires(m[1], m[0]);
    assert FirstPartner(m, m[0], 0) == Some(1);
    assert Without(m, "0") == [m[1]] by {
      assert m[1..] == [m[1]];
      WithoutAbsent(m[1..], "0");
    }
    assert Without([m[1]], "1") == [];
    assert NatToString(2) == "2";
  }

  // ---------------------------------------------------------------------------
  // The store object
  // ---------------------------------------------------------------------------

  /**
   * `ElementStore`: the tiles, the discovered list and the id counter live in fields
   * the methods update; every public method is proved to leave exactly the state the
   * matching function above describes, and to keep the store invariant.
   */
  class Store
  {
    var elements: seq<Element>
    var openedTypes: seq<ElementType>
    var count: nat
    const width: real
    const height: real
    const elementWidth: real
    const elementHeight: real

    /** The canvas and tile size the store was built with. */
    function Canvas(): Layout
    {
      Layout(width, height, elementWidth, elementHeight)
    }

    /** The fields as one value. */
    function State(): Sandbox
      reads this
    {
      Sandbox(elements, openedTypes, count)
    }

    ghost predicate Valid()
      reads this
    {
      WellFormed(State(), Canvas())
    }

    /** Four base tiles around the centre, ids "0" to "3", and the base types discovered. */
    constructor (width: real, height: real, elementWidth: real, elementHeight: real)
      ensures Canvas() == Layout(width, height, elementWidth, elementHeight)
      ensures State() == Initial(Canvas()) && Valid()
    {
      this.width := width;
      this.height := height;
      this.elementWidth := elementWidth;
      this.elementHeight := elementHeight;
      openedTypes := [Water, Fire, Air, Earth];
      var centerX := (width - elementWidth) / 2.0;
      var centerY := (height - elementHeight) / 2.0;
      elements := [];
      count := 0;
      new;
      elements := elements + [Element(NatToString(count), Fire, centerX - elementWidth, centerY, elementWidth, elementHeight)];
      count := count + 1;
      elements := elements + [Element(NatToString(count), Water, centerX + elementWidth, centerY, elementWidth, elementHeight)];
      count := count + 1;
      elements := elements + [Element(NatToString(count), Earth, centerX, centerY - elementHeight, elementWidth, elementHeight)];
      count := count + 1;
      elements := elements + [Element(NatToString(count), Air, centerX, centerY + elementHeight, elementWidth, elementHeight)];
      count := count + 1;
      assert State() == Initial(Canvas());
      InitialIsWellFormed(Canvas());
    }

    /** `getOpenedElts`: the discovered types, in the order they were discovered. */
    method GetOpenedElts() returns (r: seq<ElementType>)
      requires Valid()
      ensures r == openedTypes && |r| >= 4 && r[..4] == [Water, Fire, Air, Earth] && NoDuplicates(r)
    {
      r := openedTypes;
    }

    /** `getElements`: the live tiles. */
    method GetElements() returns (r: seq<Element>)
      requires Valid()
      ensures r == elements && UniqueIds(r)
    {
      r := elements;
    }

    /** `getCount`: the number of live tiles, which is not the id counter. */
    method GetCount() returns (n: nat)
      ensures n == |elements|
    {
      n := |elements|;
    }

    /** `addElement(type)`. */
    method AddElement(t: ElementType) returns (outcome: Outcome)
      requires Valid()
      modifies this
      ensures (outcome, State()) == Spawned(old(State()), t, Canvas())
      ensures Valid()
    {
      SpawnedSpec(State(), t, Canvas());
      if t !in openedTypes {
        return Thrown(NotDiscovered);
      }
      var left := (width - elementWidth) / 2.0;
      var top := (height - elementHeight) / 2.0;
      var newElement := Element(NatToString(count), t, left, top, elementWidth, elementHeight);
      count := count + 1;
      elements := elements + [newElement];
      outcome := Done;
    }

    /** `setNewPosition(id, x, y)`: look the tile up, check the bounds, move it, then try to combine. */
    method SetNewPosition(id: string, x: real, y: real) returns (outcome: Outcome)
      requires Valid()
      modifies this
      ensures (outcome, State()) == Repositioned(old(State()), id, x, y, Canvas())
      ensures Valid()
    {
      RepositionedSpec(State(), id, x, y, Canvas());
      var found := FindIndex(elements, id);
      if found.None? {
        return Thrown(UnknownId);
      }
      var k := found.value;
      if x < 0.0 || y < 0.0 || x + elementWidth > width || y + elementHeight > height {
        return Thrown(OutOfCanvas);
      }
      elements := elements[k := Moved(elements[k], x, y)];
      CheckAndCombineElements(k);
      outcome := Done;
    }

    /** `remove(id)`: drop the tile with that id if there is one. */
    method Remove(id: string)
      requires Valid()
      modifies this
      ensures State() == Deleted(old(State()), id)
      ensures Valid()
    {
      var found := FindIndex(elements, id);
      if found.Some? {
        RemoveDeletesOnlyThatTile(State(), Canvas(), found.value);
        elements := Without(elements, id);
      }
    }

    /**
     * `checkAndCombineElements(element)` for the tile at index k: scan the tiles in
     * order and combine with the first one that fires, then stop.
     */
    method CheckAndCombineElements(k: nat)
      requires k < |elements|
      modifies this
      ensures State() == CheckAndCombine(old(State()), k, Canvas())
    {
      var element := elements[k];
      var items := elements;
      var i := 0;
      while i < |items|
        invariant i <= |items|
        invariant elements == items && State() == old(State())
        invariant FirstPartner(items, element, 0) == FirstPartner(items, element, i)
      {
        var item := items[i];
        if item.id != element.id && CornerInside(item, element) {
          var newElts := CreateNewElement(element.elementType, item.elementType);
          if newElts.Some? && |newElts.value| > 0 {
            CreateElement(element, item, newElts.value);
            return;
          }
        }
        i := i + 1;
      }
    }

    /**
     * `createElement(first, second, typesOfNew)`: delete both inputs, then append one
     * tile per result type, stepping away from `second`, discovering new types and
     * drawing a fresh id for each.
     */
    method CreateElement(first: Element, second: Element, typesOfNew: seq<ElementType>)
      modifies this
      ensures State() == Combined(old(State()), first, second, typesOfNew, Canvas())
    {
      var stepX := (first.left - second.left) / (|typesOfNew| + 1) as real;
      var stepY := (first.top - second.top) / (|typesOfNew| + 1) as real;
      var currentX := first.left + stepX;
      var currentY := first.top + stepY;

      ghost var deleted := [old(elements), Without(old(elements), first.id),
                            Without(Without(old(elements), first.id), second.id)];
      for i := 0 to 2
        invariant openedTypes == old(openedTypes) && count == old(count)
        invariant elements == deleted[i]
      {
        var toDelete := if i == 0 then first else second;
        elements := Without(elements, toDelete.id);
      }

      ghost var remaining := elements;
      ghost var results := ResultTiles(first, second, typesOfNew, old(count), Canvas());
      if 0 < |typesOfNew| {
        ResultTilesSpacing(first, second, typesOfNew, old(count), Canvas(), 0);
      }
      for i := 0 to |typesOfNew|
        invariant elements == remaining + results[..i]
        invariant openedTypes == Discover(old(openedTypes), typesOfNew[..i])
        invariant count == old(count) + i
        invariant i < |typesOfNew| ==> currentX == results[i].left && currentY == results[i].top
      {
        if typesOfNew[i] !in openedTypes {
          openedTypes := openedTypes + [typesOfNew[i]];
        }
        assert openedTypes == Discover(old(openedTypes), typesOfNew[..i + 1]) by {
          DiscoverStep(old(openedTypes), typesOfNew, i);
        }
        var created := Element(NatToString(count), typesOfNew[i], currentX, currentY, elementWidth, elementHeight);
        assert created == results[i] by {
          ResultTileAt(first, second, typesOfNew, old(count), Canvas(), i);
        }
        AppendNext(remaining, results, i);
        elements := elements + [created];
        count := count + 1;
        assert i + 1 < |typesOfNew| ==> currentX + stepX == results[i + 1].left && currentY + stepY == results[i + 1].top by {
          ResultTilesSpacing(first, second, typesOfNew, old(count), Canvas(), i);
        }
        currentX := currentX + stepX;
        currentY := currentY + stepY;
      }
      assert typesOfNew[..|typesOfNew|] == typesOfNew;
      assert results[..|typesOfNew|] == results;
    }
  }
}
