/**
 * The recipe table of the element sandbox (2/ts/3/src/Model/ElementCreator.ts).
 *
 * The source builds a `Map` from a literal list of 36 entries, keyed by the string
 * `${first}-${second}`. The model writes the map as `Stored`, one `match` case per
 * entry in the source's order, keyed by the ordered pair `(first, second)`; Dafny
 * reports a repeated case as redundant, so the 36 keys are distinct. `KeyInjective` shows that
 * string keys and ordered pairs agree for any naming of the types without '-'.
 */
module ElementCreator {
  import opened Options
  import opened Elements

  /** The map, read at the key first-second (`has`, then `get`): one case per entry. */
  function Stored(first: ElementType, second: ElementType): Option<seq<ElementType>>
  {
    match (first, second)
    case (Earth, Air) => Some([Dust])
    case (Air, Fire) => Some([Energy])
    case (Earth, Fire) => Some([Lava])
    case (Water, Earth) => Some([Mud])
    case (Earth, Earth) => Some([Pressure])
    case (Air, Air) => Some([Pressure])
    case (Water, Air) => Some([Rain])
    case (Water, Water) => Some([Sea])
    case (Water, Fire) => Some([Steam])
    case (Water, Energy) => Some([Steam])
    case (Air, Steam) => Some([Cloud])
    case (Fire, Dust) => Some([Gunpowder])
    case (Water, Sea) => Some([Ocean])
    case (Sea, Sea) => Some([Ocean])
    case (Earth, Rain) => Some([Plant])
    case (Sea, Fire) => Some([Salt])
    case (Ocean, Fire) => Some([Salt])
    case (Air, Lava) => Some([Stone])
    case (Gunpowder, Fire) => Some([Explosion, Smoke])
    case (Fire, Stone) => Some([Metal])
    case (Stone, Air) => Some([Sand])
    case (Cloud, Electricity) => Some([Storm])
    case (Cloud, Energy) => Some([Storm])
    case (Sea, Wind) => Some([Wave])
    case (Ocean, Wind) => Some([Wave])
    case (Energy, Explosion) => Some([AtomicBomb])
    case (Sea, Sand) => Some([Beach])
    case (Ocean, Sand) => Some([Beach])
    case (Water, Sand) => Some([Beach])
    case (Sand, Sand) => Some([Desert])
    case (Metal, Energy) => Some([Electricity])
    case (Fire, Sand) => Some([Glass])
    case (Electricity, Sand) => Some([Glass])
    case (Air, Wave) => Some([Sound])
    case (Air, Pressure) => Some([Wind])
    case (Air, Energy) => Some([Wind])
    case _ => None
  }

  /** The source's string key for a pair of type names. */
  function KeyOf(first: string, second: string): string
  {
    first + "-" + second
  }

  /** With names free of '-', equal keys come only from equal name pairs. */
  lemma KeyInjective(a: string, b: string, c: string, d: string)
    requires '-' !in a && '-' !in b && '-' !in c && '-' !in d
    ensures KeyOf(a, b) == KeyOf(c, d) ==> a == c && b == d
  {
    if KeyOf(a, b) == KeyOf(c, d) {
      var k := KeyOf(a, b);
      assert k[|a|] == '-' && k[|c|] == '-';
      assert |a| == |c|;
      assert a == k[..|a|] == c;
      assert b == k[|a| + 1..] == d;
    }
  }

  /**
   * `createNewElement(first, second)`: the entry stored under first-second if there is
   * one, otherwise the entry stored under second-first, otherwise null (`None`).
   */
  function CreateNewElement(first: ElementType, second: ElementType): (r: Option<seq<ElementType>>)
    ensures Stored(first, second).Some? ==> r == Stored(first, second)
    ensures Stored(first, second).None? ==> r == Stored(second, first)
  {
    if Stored(first, second).Some? then Stored(first, second)
    else if Stored(second, first).Some? then Stored(second, first)
    else None
  }

  /** No unordered pair is stored in both orders (a same-type pair is stored once). */
  lemma NoPairInBothOrders(a: ElementType, b: ElementType)
    ensures Stored(a, b).Some? && Stored(b, a).Some? ==> a == b
  {
  }

  /** The lookup does not depend on the order of its arguments. */
  lemma CreateNewElementSymmetric(a: ElementType, b: ElementType)
    ensures CreateNewElement(a, b) == CreateNewElement(b, a)
  {
    NoPairInBothOrders(a, b);
  }

  /** Every stored list is non-empty; the only one that is not a single type is gunpowder-fire's. */
  lemma StoredShape(a: ElementType, b: ElementType)
    ensures Stored(a, b).Some? ==> 1 <= |Stored(a, b).value|
    ensures Stored(a, b).Some? && |Stored(a, b).value| != 1 ==>
              a == Gunpowder && b == Fire && Stored(a, b).value == [Explosion, Smoke]
  {
  }

  /** Whenever the lookup answers, it answers with a non-empty list. */
  lemma CreateNewElementNonEmpty(a: ElementType, b: ElementType)
    ensures CreateNewElement(a, b).Some? ==> 1 <= |CreateNewElement(a, b).value|
  {
    StoredShape(a, b);
    StoredShape(b, a);
  }

  /** Gunpowder with fire is the only recipe with more than one result: explosion, then smoke. */
  lemma OnlyGunpowderFireHasTwoResults(a: ElementType, b: ElementType)
    ensures CreateNewElement(Gunpowder, Fire) == Some([Explosion, Smoke])
    ensures CreateNewElement(a, b).Some? && |CreateNewElement(a, b).value| != 1 ==>
              ((a == Gunpowder && b == Fire) || (a == Fire && b == Gunpowder)) &&
              CreateNewElement(a, b).value == [Explosion, Smoke]
  {
    StoredShape(a, b);
    StoredShape(b, a);
  }

  /** Water with fire makes steam in either order; water with steam makes nothing. */
  lemma SteamRecipes()
    ensures CreateNewElement(Water, Fire) == Some([Steam])
    ensures CreateNewElement(Fire, Water) == Some([Steam])
    ensures CreateNewElement(Water, Steam) == None
    ensures CreateNewElement(Steam, Water) == None
  {
  }

  /** The recipes that combine a type with itself. */
  lemma SameTypeRecipes(t: ElementType)
    ensures CreateNewElement(t, t).Some? <==> t in {Earth, Air, Water, Sea, Sand}
    ensures CreateNewElement(Earth, Earth) == Some([Pressure])
    ensures CreateNewElement(Air, Air) == Some([Pressure])
    ensures CreateNewElement(Water, Water) == Some([Sea])
    ensures CreateNewElement(Sea, Sea) == Some([Ocean])
    ensures CreateNewElement(Sand, Sand) == Some([Desert])
  {
  }
}
