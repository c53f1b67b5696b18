/** The seller's "Your Sold Products" page: loading the list, deleting from it and the
    units-sold total. */
module SellerProducts {
  import opened Base
  import opened Entities

  /** The answer of the sold-products endpoint; its list may be missing. */
  type SoldReply = Result<Option<seq<Product>>, ()>

  /** The page's state: the products, the loader and the error text. The fetch effect runs
      again whenever `user` changes, and no setter ever clears `error`. */
  class SoldProductsPage {
    var soldProducts: seq<Product>
    var loading: bool
    var error: Option<string>

    constructor ()
      ensures soldProducts == [] && loading && error == None
    {
      soldProducts, loading, error := [], true, None;
    }

    /** `fetchSoldProducts` once it has settled. Without a user id nothing is requested and
        the login error is set; a successful answer replaces the list and leaves any earlier
        error in place; a failed one sets its error and keeps the earlier list. Returns
        whether the endpoint was called. */
    method FetchSold(user: Option<User>, reply: SoldReply) returns (called: bool)
      modifies this
      ensures called <==> user.Some? && user.value.id != ""
      ensures !loading
      ensures !called ==> error == Some("User not logged in") && soldProducts == old(soldProducts)
      ensures called && reply.Ok? ==>
                soldProducts == (if reply.value.Some? then reply.value.value else []) && error == old(error)
      ensures called && reply.Err? ==>
                error == Some("Failed to load sold products") && soldProducts == old(soldProducts)
    {
      if user.None? || user.value.id == "" {
        error := Some("User not logged in");
        loading := false;
        return false;
      }
      called := true;
      match reply {
        case Ok(list) =>
          soldProducts := if list.Some? then list.value else [];
        case Err(_) =>
          error := Some("Failed to load sold products");
      }
      loading := false;
    }

    /** `handleDeleteProduct` on the page's list. */
    method HandleDelete(confirmed: bool, id: string)
      modifies this`soldProducts
      ensures soldProducts == Delete(old(soldProducts), confirmed, id)
    {
      soldProducts := Delete(soldProducts, confirmed, id);
    }
  }

  /** A direct load by a signed-in seller: the page's effect first runs before the session is
      restored from storage, then again with the user. The list arrives, but the first run's
      error stays, so the page keeps showing its error screen. */
  method DirectLoad(u: User, products: seq<Product>) returns (page: SoldProductsPage)
    requires u.id != ""
    ensures page.soldProducts == products
    ensures page.error == Some("User not logged in")
  {
    page := new SoldProductsPage();
    var first := page.FetchSold(None, Ok(Some(products)));
    var second := page.FetchSold(Some(u), Ok(Some(products)));
  }

  /** `handleDeleteProduct`: once confirmed, every product with that id goes and the rest stay
      in order; without confirmation nothing changes. */
  function Delete(products: seq<Product>, confirmed: bool, id: string): (r: seq<Product>)
    ensures !confirmed ==> r == products
    ensures confirmed ==> forall p :: p in r <==> p in products && p.id != id
    ensures IsSubsequence(r, products)
  {
    if confirmed then
      var keep := (p: Product) => p.id != id;
      FilterIsSubsequence(products, keep);
      Filter(products, keep)
    else
      SubsequenceReflexive(products);
      products
  }

  /** Deleting an id a second time removes nothing more. */
  lemma DeleteIdempotent(products: seq<Product>, id: string)
    ensures Delete(Delete(products, true, id), true, id) == Delete(products, true, id)
  {
    var keep := (p: Product) => p.id != id;
    FilterIdempotent(products, keep);
  }

  /** `product.buyNo || 0`. */
  function Units(p: Product): int
  {
    if p.buyNo.Some? then p.buyNo.value else 0
  }

  /** The reduce behind "units sold". */
  function TotalSold(products: seq<Product>): (r: int)
    ensures (forall i :: 0 <= i < |products| ==> products[i].buyNo.None?) ==> r == 0
  {
    if products == [] then 0 else Units(products[0]) + TotalSold(products[1..])
  }

  lemma {:induction false} TotalSoldAppend(a: seq<Product>, b: seq<Product>)
    ensures TotalSold(a + b) == TotalSold(a) + TotalSold(b)
  {
    if a == [] {
      assert a + b == b;
    } else {
      assert (a + b)[1..] == a[1..] + b;
      TotalSoldAppend(a[1..], b);
    }
  }

  /** Products without a sales figure count as zero, so with no negative figures the total is
      never negative. */
  lemma {:induction false} TotalSoldNonNegative(products: seq<Product>)
    requires forall i :: 0 <= i < |products| && products[i].buyNo.Some? ==> products[i].buyNo.value >= 0
    ensures TotalSold(products) >= 0
  {
    if products != [] {
      TotalSoldNonNegative(products[1..]);
    }
  }

  /** Deleting an id lowers the total by exactly the units of the products with that id. */
  lemma {:induction false} DeleteLowersTotal(products: seq<Product>, id: string)
    ensures TotalSold(Delete(products, true, id)) + TotalSold(Filter(products, (p: Product) => p.id == id))
            == TotalSold(products)
  {
    var keep := (p: Product) => p.id != id;
    var gone := (p: Product) => p.id == id;
    if products != [] {
      DeleteLowersTotal(products[1..], id);
      assert Delete(products[1..], true, id) == Filter(products[1..], keep);
      if products[0].id == id {
        assert Filter(products, keep) == Filter(products[1..], keep);
        assert Filter(products, gone) == [products[0]] + Filter(products[1..], gone);
        assert ([products[0]] + Filter(products[1..], gone))[1..] == Filter(products[1..], gone);
      } else {
        assert Filter(products, gone) == Filter(products[1..], gone);
        assert Filter(products, keep) == [products[0]] + Filter(products[1..], keep);
        assert ([products[0]] + Filter(products[1..], keep))[1..] == Filter(products[1..], keep);
      }
    }
  }
}
