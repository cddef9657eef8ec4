/**
 * The tile record of the element sandbox (2/ts/3/src/Model/Element.ts) and the
 * element types that occur in its recipe table.
 */
module Elements {

  /**
   * The element types named by the recipe table. The enum's declaration file is not
   * part of this model; these are the members the table and the store refer to.
   */
  datatype ElementType =
    | Water | Fire | Air | Earth
    | Dust | Energy | Lava | Mud | Pressure | Rain | Sea | Steam | Cloud
    | Gunpowder | Ocean | Plant | Salt | Stone | Explosion | Smoke | Metal
    | Sand | Electricity | Storm | Wind | Wave | AtomicBomb | Beach | Desert
    | Glass | Sound

  /**
   * A placed tile. `id`, `elementType` (the source's `type`), `width` and `height` are readonly in the source;
   * `left` and `top` are the only fields that change, through `Moved`.
   */
  datatype Element = Element(id: string, elementType: ElementType, left: real, top: real, width: real, height: real)

  /** The class constructor: the stored id carries the prefix "Elt"; omitted coordinates and sizes are 0. */
  function NewElement(id: string, elementType: ElementType, left: real := 0.0, top: real := 0.0,
                      width: real := 0.0, height: real := 0.0): (e: Element)
    ensures |e.id| == |id| + 3 && e.id[..3] == "Elt" && e.id[3..] == id
    ensures e.elementType == elementType
    ensures e.left == left && e.top == top && e.width == width && e.height == height
  {
    Element("Elt" + id, elementType, left, top, width, height)
  }

  /** Two constructed tiles share a stored id only if they were given the same id. */
  lemma NewElementIdInjective(a: string, b: string, ta: ElementType, tb: ElementType)
    ensures NewElement(a, ta).id == NewElement(b, tb).id ==> a == b
  {
    if NewElement(a, ta).id == NewElement(b, tb).id {
      assert a == NewElement(a, ta).id[3..];
    }
  }

  /** Constructing with only an id and a type gives the zero rectangle at the origin. */
  lemma NewElementDefaults(id: string, t: ElementType)
    ensures NewElement(id, t).left == 0.0 && NewElement(id, t).top == 0.0
    ensures NewElement(id, t).width == 0.0 && NewElement(id, t).height == 0.0
  {
  }

  /** Assigning `left` and `top`: the only change a tile admits after construction. */
  function Moved(e: Element, left: real, top: real): (r: Element)
    ensures r.left == left && r.top == top
    ensures r.id == e.id && r.elementType == e.elementType && r.width == e.width && r.height == e.height
  {
    e.(left := left, top := top)
  }
}
