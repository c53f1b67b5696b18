/** The cart slice: an ordered list of line items and its count, mirrored into local storage. */
module Cart {
  import opened Base
  import opened Text
  import opened Entities
  import opened Storage

  const CartKey := "cartItems"
  const CountKey := "totalItems"

  /** `JSON.parse(localStorage.getItem("cartItems")) || []` at module load.
      `None` is the case where the module throws instead (the value is not a cart array). */
  function LoadedCart(m: map<string, Stored>): (r: Option<seq<Entry>>)
    ensures CartKey !in m ==> r == Some([])
    ensures r.Some? && CartKey in m ==> m[CartKey] == CartJson(r.value)
  {
    if CartKey !in m then Some([])
    else match m[CartKey]
      case CartJson(entries) => Some(entries)
      case _ => None
  }

  /** The test of `removeFromCart`'s filter: `item && item._id !== id`. */
  predicate Keep(id: string, e: Entry)
  {
    e.Line? && e.item.id != id
  }

  /** The cart after `removeFromCart(id)`. */
  function Remaining(entries: seq<Entry>, id: string): seq<Entry>
  {
    Filter(entries, (e: Entry) => Keep(id, e))
  }

  predicate NullFree(entries: seq<Entry>)
  {
    forall i :: 0 <= i < |entries| ==> entries[i].Line?
  }

  predicate HasId(entries: seq<Entry>, id: string)
  {
    exists i :: 0 <= i < |entries| && entries[i].Line? && entries[i].item.id == id
  }

  /** What add and remove leave in storage: the list under "cartItems" and its length,
      as decimal text, under "totalItems". */
  predicate Mirrors(m: map<string, Stored>, entries: seq<Entry>)
  {
    CartKey in m && m[CartKey] == CartJson(entries)
    && CountKey in m && m[CountKey] == Plain(Decimal(|entries|))
  }

  /** `removeFromCart(id)` keeps exactly the non-null items whose `_id` differs from `id`,
      in their original order. */
  lemma RemainingSpec(entries: seq<Entry>, id: string)
    ensures IsSubsequence(Remaining(entries, id), entries)
    ensures forall i :: 0 <= i < |Remaining(entries, id)| ==>
              Remaining(entries, id)[i].Line? && Remaining(entries, id)[i].item.id != id
    ensures forall i :: 0 <= i < |entries| && Keep(id, entries[i]) ==> entries[i] in Remaining(entries, id)
    ensures !HasId(Remaining(entries, id), id)
  {
    FilterIsSubsequence(entries, (e: Entry) => Keep(id, e));
  }

  /** Removing the same id twice is removing it once. */
  lemma RemoveIdempotent(entries: seq<Entry>, id: string)
    ensures Remaining(Remaining(entries, id), id) == Remaining(entries, id)
  {
    FilterIdempotent(entries, (e: Entry) => Keep(id, e));
  }

  /** Removing an id that is absent from a null-free cart leaves it unchanged. */
  lemma RemoveAbsent(entries: seq<Entry>, id: string)
    requires NullFree(entries) && !HasId(entries, id)
    ensures Remaining(entries, id) == entries
  {
    FilterAllPass(entries, (e: Entry) => Keep(id, e));
  }

  /** Adding an item and then removing its id restores a null-free cart that had no item
      with that id. */
  lemma AddThenRemove(entries: seq<Entry>, x: LineItem)
    requires NullFree(entries) && !HasId(entries, x.id)
    ensures Remaining(entries + [Line(x)], x.id) == entries
  {
    var p := (e: Entry) => Keep(x.id, e);
    FilterAppend(entries, [Line(x)], p);
    RemoveAbsent(entries, x.id);
    assert Filter([Line(x)], p) == [];
  }

  /** Removing an id also drops every null entry, so it never restores a cart that held one. */
  lemma RemoveDropsNulls(entries: seq<Entry>, id: string)
    requires !NullFree(entries)
    ensures Remaining(entries, id) != entries
  {
    var i :| 0 <= i < |entries| && !entries[i].Line?;
    assert forall k :: 0 <= k < |Remaining(entries, id)| ==> Remaining(entries, id)[k].Line?;
  }

  /** The cart store. `totalItems` counts line items, not quantities. */
  class CartStore {
    var cartItems: seq<Entry>
    var totalItems: int
    const storage: LocalStorage

    ghost predicate Valid()
      reads this
    {
      totalItems == |cartItems|
    }

    /** The initial state read from storage at module load. */
    constructor Load(storage: LocalStorage)
      requires LoadedCart(storage.items).Some?
      ensures Valid()
      ensures cartItems == LoadedCart(storage.items).value
      ensures this.storage == storage
    {
      this.storage := storage;
      var items := LoadedCart(storage.items).value;
      cartItems := items;
      totalItems := |items|;
    }

    /** `addToCart`: append at the end, no de-duplication, then persist both keys. */
    method AddToCart(x: LineItem)
      modifies this, storage
      ensures cartItems == old(cartItems) + [Line(x)]
      ensures Valid()
      ensures storage.items == old(storage.items)[CartKey := CartJson(cartItems)][CountKey := Plain(Decimal(totalItems))]
      ensures Mirrors(storage.items, cartItems) && LoadedCart(storage.items) == Some(cartItems)
    {
      cartItems := cartItems + [Line(x)];
      totalItems := |cartItems|;
      storage.SetItem(CartKey, CartJson(cartItems));
      storage.SetItem(CountKey, Plain(Decimal(totalItems)));
    }

    /** `removeFromCart(id)`: keep the non-null entries with another id, then persist. */
    method RemoveFromCart(id: string)
      modifies this, storage
      ensures cartItems == Remaining(old(cartItems), id)
      ensures Valid()
      ensures storage.items == old(storage.items)[CartKey := CartJson(cartItems)][CountKey := Plain(Decimal(totalItems))]
      ensures Mirrors(storage.items, cartItems) && LoadedCart(storage.items) == Some(cartItems)
    {
      cartItems := Remaining(cartItems, id);
      totalItems := |cartItems|;
      storage.SetItem(CartKey, CartJson(cartItems));
      storage.SetItem(CountKey, Plain(Decimal(totalItems)));
    }

    /** `clearCart`: empty list, count 0, "cartItems" removed and "totalItems" set to "0". */
    method ClearCart()
      modifies this, storage
      ensures cartItems == [] && totalItems == 0
      ensures storage.items == (old(storage.items) - {CartKey})[CountKey := Plain("0")]
      ensures LoadedCart(storage.items) == Some([])
    {
      cartItems := [];
      totalItems := 0;
      storage.RemoveItem(CartKey);
      storage.SetItem(CountKey, Plain("0"));
    }
  }
}
