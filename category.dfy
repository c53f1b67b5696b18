/** The category slice: a single overwrite-only cell; "" means no filter. */
module Category {

  class CategoryStore {
    var selectedCategory: string

    constructor ()
      ensures selectedCategory == ""
    {
      selectedCategory := "";
    }

    /** `setCategory(v)`: any string is accepted, "" included. The new value does not
        depend on the old one, so a repeated write changes nothing and the last write wins. */
    method SetCategory(v: string)
      modifies this
      ensures selectedCategory == v
    {
      selectedCategory := v;
    }
  }

  /** Two writes in a row leave only the second. */
  method SetTwice(store: CategoryStore, a: string, b: string)
    modifies store
    ensures store.selectedCategory == b
  {
    store.SetCategory(a);
    store.SetCategory(b);
  }
}
