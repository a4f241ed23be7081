/**
 * The generic set of collections/set/set.go: a Go map from items to the
 * empty struct, updated in place.
 */
module SetCollection {

  class Set<T(==)> {
    /** The underlying map; `()` plays the part of `struct{}`. */
    var items: map<T, ()>

    /** `New`: an empty set. */
    constructor New()
      ensures items == map[]
    {
      items := map[];
    }

    /** The number of items, `len(s)`. */
    function Len(): nat
      reads this
    {
      |items|
    }

    /**
     * Adds `item` and hands back the same set, so that calls can be chained;
     * adding an item already present changes nothing.
     */
    method Add(item: T) returns (s: Set<T>)
      modifies this
      ensures s == this
      ensures items.Keys == old(items.Keys) + {item}
      ensures item in old(items) ==> items == old(items) && Len() == old(Len())
      ensures item !in old(items) ==> Len() == old(Len()) + 1
    {
      if item in items {
        assert items[item] == ();
        assert items[item := ()] == items;
      }
      items := items[item := ()];
      s := this;
    }

    /** Whether `item` is present. */
    method Contains(item: T) returns (ok: bool)
      ensures ok <==> item in items
    {
      ok := item in items;
    }

    /**
     * Removes `item` if present and says whether it was; an absent item
     * leaves the set as it was.
     */
    method Remove(item: T) returns (ok: bool)
      modifies this
      ensures ok <==> item in old(items)
      ensures items.Keys == old(items.Keys) - {item}
      ensures !ok ==> items == old(items)
      ensures ok ==> Len() == old(Len()) - 1
    {
      ok := Contains(item);
      if !ok {
        return;
      }
      items := items - {item};
      assert items.Keys + {item} == old(items.Keys);
    }

    /**
     * Removes an item the caller knows to be present; the source panics
     * otherwise, so presence is this method's precondition.
     */
    method MustRemove(item: T)
      requires item in items
      modifies this
      ensures items.Keys == old(items.Keys) - {item}
      ensures Len() == old(Len()) - 1
    {
      var ok := Remove(item);
      assert ok;
    }
  }
}
