/** The five-star rating display of the product card and the product page. */
module Stars {

  /** `Math.floor(rating)`. */
  function FullStars(rating: real): int
  {
    rating.Floor
  }

  /** `rating % 1`: JavaScript's remainder keeps the sign of the dividend. */
  function Fraction(rating: real): (f: real)
    ensures rating >= 0.0 ==> 0.0 <= f < 1.0 && f == rating - rating.Floor as real
    ensures rating < 0.0 ==> -1.0 < f <= 0.0
  {
    if rating >= 0.0 then rating - rating.Floor as real else rating + (-rating).Floor as real
  }

  predicate HalfStar(rating: real)
  {
    Fraction(rating) >= 0.5
  }

  /** Star `i` (0-based) is drawn filled: below the full stars, or the half star. */
  predicate Filled(rating: real, i: int)
  {
    i < FullStars(rating) || (i == FullStars(rating) && HalfStar(rating))
  }

  /** `5 - fullStars - (halfStar ? 1 : 0)`. */
  function EmptyStars(rating: real): int
  {
    5 - FullStars(rating) - (if HalfStar(rating) then 1 else 0)
  }

  /** For a non-negative rating the filled stars are those below the rating rounded half up. */
  lemma FilledIsRounding(rating: real, i: int)
    requires rating >= 0.0
    ensures Filled(rating, i) <==> i < (rating + 0.5).Floor
  {
    var n := rating.Floor;
    assert n as real <= rating < n as real + 1.0;
    if HalfStar(rating) {
      assert n as real + 1.0 <= rating + 0.5 < n as real + 2.0;
      assert (rating + 0.5).Floor == n + 1;
    } else {
      assert n as real <= rating + 0.5 < n as real + 1.0;
      assert (rating + 0.5).Floor == n;
    }
  }

  /** Filled stars form a prefix of the row. */
  lemma FilledPrefix(rating: real, i: int, j: int)
    requires j <= i && Filled(rating, i)
    ensures Filled(rating, j)
  {
  }

  /** For a rating from 0 to 5 the stars shown filled plus the empty stars make five. */
  lemma StarsAddUp(rating: real)
    requires 0.0 <= rating <= 5.0
    ensures 0 <= EmptyStars(rating) <= 5
    ensures EmptyStars(rating) == 5 - (rating + 0.5).Floor
  {
    FilledIsRounding(rating, rating.Floor);
    var n := rating.Floor;
    assert n as real <= rating < n as real + 1.0;
    if HalfStar(rating) {
      assert (rating + 0.5).Floor == n + 1;
    } else {
      assert (rating + 0.5).Floor == n;
    }
  }
}

/** The product card: its in-cart test, its cart toggle and its price line. */
module ProductCard {
  import opened Base
  import opened Text
  import opened Entities
  import opened Storage
  import opened Cart

  /** The cart line a product becomes: its own fields with quantity 1. */
  function LineOf(p: Product): (x: LineItem)
    ensures x.id == p.id && x.quantity == 1
  {
    LineItem(p.id, p.imageUrl, p.productName, p.price, p.discount, 1)
  }

  /** `_id && cartItems?.some(item => item?._id === _id)`: a product without an id is never
      in the cart. */
  predicate CardInCart(id: string, entries: seq<Entry>)
    ensures CardInCart(id, entries) ==> id != "" && entries != []
    ensures CardInCart(id, entries) ==> exists i :: 0 <= i < |entries| && entries[i].Line? && entries[i].item.id == id
  {
    id != "" && HasId(entries, id)
  }

  /** The card's cart button: remove the product's id when it is in the cart, else append
      its line. */
  method HandleCartToggle(cart: CartStore, p: Product)
    modifies cart, cart.storage
    ensures CardInCart(p.id, old(cart.cartItems)) ==> cart.cartItems == Remaining(old(cart.cartItems), p.id)
    ensures !CardInCart(p.id, old(cart.cartItems)) ==> cart.cartItems == old(cart.cartItems) + [Line(LineOf(p))]
    ensures cart.Valid() && Mirrors(cart.storage.items, cart.cartItems)
    ensures cart.storage.items == old(cart.storage.items)[CartKey := CartJson(cart.cartItems)]
                                                         [CountKey := Plain(Decimal(|cart.cartItems|))]
    ensures p.id != "" ==> (CardInCart(p.id, cart.cartItems) <==> !CardInCart(p.id, old(cart.cartItems)))
  {
    if CardInCart(p.id, cart.cartItems) {
      cart.RemoveFromCart(p.id);
      RemainingSpec(old(cart.cartItems), p.id);
    } else {
      cart.AddToCart(LineOf(p));
      assert cart.cartItems[|cart.cartItems| - 1] == Line(LineOf(p));
    }
  }

  /** `price - (price * discount) / 100`, the price shown in green. */
  function DiscountedPrice(price: int, discount: int): (r: real)
    ensures discount == 0 ==> r == price as real
    ensures 0 <= discount <= 100 && price >= 0 ==> 0.0 <= r <= price as real
  {
    price as real - (price * discount) as real / 100.0
  }

  /** The struck-through price, the saving and the "% OFF" badge appear only when `discount > 0`. */
  predicate ShowDiscount(discount: int)
    ensures ShowDiscount(discount) <==> discount >= 1
  {
    discount > 0
  }

  /** For a product with a positive price the extra price line is shown exactly when the
      green price is below the list price, and the saving it shows is positive. */
  lemma ShowDiscountIffSaving(price: int, discount: int)
    requires price > 0
    ensures ShowDiscount(discount) <==> DiscountedPrice(price, discount) < price as real
    ensures ShowDiscount(discount) ==> price as real - DiscountedPrice(price, discount) > 0.0
  {
    if discount > 0 {
      assert price * discount > 0;
    } else {
      assert price * discount <= 0;
    }
  }
}
