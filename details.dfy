/** The product page: fetch, cart toggle, "Buy Now", cancel, and the purchase voice command. */
module ProductDetails {
  import opened Base
  import opened Text
  import opened Entities
  import opened Storage
  import opened Cart
  import opened Profile
  import opened ProductCard

  /** `cartItems.some(item => item?._id === productId)`, with the id taken from the URL. */
  predicate IsInCart(entries: seq<Entry>, productId: string)
    ensures IsInCart(entries, productId) ==> entries != []
    ensures IsInCart(entries, productId) ==> exists e :: e in entries && e.Line? && e.item.id == productId
  {
    HasId(entries, productId)
  }

  datatype DetailsCommand = Purchase | Hint | Echo

  predicate Greets(l: string)
  {
    Contains(l, "sam") || Contains(l, "hey") || Contains(l, "hi")
  }

  /** The two tests of `handleTranscript` on the lower-cased command. */
  function ClassifyCommand(command: string): (k: DetailsCommand)
    ensures k == Echo <==> !Greets(ToLower(command))
    ensures k == Purchase ==> Contains(ToLower(command), "purchase this product")
  {
    var l := ToLower(command);
    if Contains(l, "purchase this product") && Greets(l) then Purchase
    else if Greets(l) then Hint
    else Echo
  }

  /** The greeting test is redundant for a purchase: "purchase this product" already
      includes "hi" (in "this"), so the phrase alone decides. */
  lemma PurchaseIffPhrase(command: string)
    ensures ClassifyCommand(command) == Purchase <==> Contains(ToLower(command), "purchase this product")
  {
    var l := ToLower(command);
    var phrase := "purchase this product";
    assert phrase[10..12] == "hi";
    assert OccursAt(phrase, "hi", 10);
    if Contains(l, phrase) {
      ContainsTransitive(l, phrase, "hi");
    }
  }

  /** The answer of the purchase endpoint: its message, and the product's new `buyNo`
      when the response carries one. */
  datatype PurchaseReply = PurchaseReply(message: string, buyNo: Option<int>)

  const PurchasedMessage := "Product purchased successfully"

  class DetailsPage {
    const productId: string
    const cart: CartStore
    var product: Option<Product>
    var loading: bool
    var productRating: real
    var showAIModal: bool
    var showSuccessModal: bool
    var orderPlaced: bool

    constructor (productId: string, cart: CartStore)
      ensures this.productId == productId && this.cart == cart
      ensures product == None && loading && productRating == 0.0
      ensures !showAIModal && !showSuccessModal && !orderPlaced
    {
      this.productId := productId;
      this.cart := cart;
      product := None;
      loading := true;
      productRating := 0.0;
      showAIModal, showSuccessModal, orderPlaced := false, false, false;
    }

    /** `fetchProduct`: the product and its rating on success; the loader ends either way. */
    method FetchProduct(reply: Result<Product, ()>)
      modifies this`product, this`productRating, this`loading
      ensures !loading
      ensures reply.Ok? ==> product == Some(reply.value) && productRating == reply.value.rating
      ensures reply.Err? ==> product == old(product) && productRating == old(productRating)
    {
      if reply.Ok? {
        product := Some(reply.value);
        productRating := reply.value.rating;
      }
      loading := false;
    }

    /** `handleCartToggle` (the button exists only once a product is shown): the test uses
        the URL's id, the actions the product's own id. */
    method HandleCartToggle()
      requires product.Some?
      modifies cart, cart.storage
      ensures IsInCart(old(cart.cartItems), productId) ==>
                cart.cartItems == Remaining(old(cart.cartItems), product.value.id)
      ensures !IsInCart(old(cart.cartItems), productId) ==>
                cart.cartItems == old(cart.cartItems) + [Line(LineOf(product.value))]
      ensures cart.Valid() && Mirrors(cart.storage.items, cart.cartItems)
      ensures cart.storage.items == old(cart.storage.items)[CartKey := CartJson(cart.cartItems)]
                                                           [CountKey := Plain(Decimal(|cart.cartItems|))]
      ensures product.value.id == productId ==>
                (IsInCart(cart.cartItems, productId) <==> !IsInCart(old(cart.cartItems), productId))
    {
      var p := product.value;
      if IsInCart(cart.cartItems, productId) {
        cart.RemoveFromCart(p.id);
        RemainingSpec(old(cart.cartItems), p.id);
      } else {
        cart.AddToCart(LineOf(p));
        assert cart.cartItems[|cart.cartItems| - 1] == Line(LineOf(p));
      }
    }

    /** Two toggles restore a null-free cart that did not hold the product. */
    method ToggleTwice()
      requires product.Some? && product.value.id == productId
      requires NullFree(cart.cartItems) && !IsInCart(cart.cartItems, productId)
      modifies cart, cart.storage
      ensures cart.cartItems == old(cart.cartItems) && cart.Valid()
      ensures cart.storage.items == old(cart.storage.items)[CartKey := CartJson(cart.cartItems)]
                                                           [CountKey := Plain(Decimal(|cart.cartItems|))]
    {
      HandleCartToggle();
      HandleCartToggle();
      AddThenRemove(old(cart.cartItems), LineOf(product.value));
    }

    /** `handleBuyNow`: the order is shown as placed when the endpoint confirms the purchase
        and also when the call fails (a missing user makes the call fail before it is sent);
        any other answer changes nothing. Returns what is spoken. */
    method HandleBuyNow(user: Option<User>, reply: Result<PurchaseReply, ()>) returns (said: seq<string>)
      requires product.Some?
      modifies this
      ensures var failed := user.None? || reply.Err?;
        var confirmed := !failed && reply.value.message == PurchasedMessage;
        (orderPlaced <==> failed || confirmed || old(orderPlaced))
        && (failed || confirmed ==>
              showSuccessModal && orderPlaced
              && said == ["Congratulations " + DisplayName(user) + "! Your purchase of "
                          + old(product).value.productName + " was successful!"])
        && (!failed && !confirmed ==> said == [] && showSuccessModal == old(showSuccessModal))
        && (confirmed && reply.value.buyNo.Some? ==>
              product == Some(old(product).value.(buyNo := reply.value.buyNo)))
        && (!(confirmed && reply.value.buyNo.Some?) ==> product == old(product))
      ensures productRating == old(productRating) && loading == old(loading) && showAIModal == old(showAIModal)
    {
      var name := DisplayName(user);
      var p := product.value;
      var success := "Congratulations " + name + "! Your purchase of " + p.productName + " was successful!";
      if user.None? || reply.Err? {
        showSuccessModal, orderPlaced := true, true;
        said := [success];
      } else if reply.value.message == PurchasedMessage {
        if reply.value.buyNo.Some? {
          product := Some(p.(buyNo := reply.value.buyNo));
        }
        showSuccessModal, orderPlaced := true, true;
        said := [success];
      } else {
        said := [];
      }
    }

    /** `handleCancelOrder`. */
    method HandleCancelOrder(user: Option<User>) returns (said: seq<string>)
      modifies this`orderPlaced, this`showSuccessModal
      ensures !orderPlaced && !showSuccessModal
      ensures said == ["Order cancelled successfully, " + DisplayName(user) + ". You can place a new order anytime."]
    {
      orderPlaced, showSuccessModal := false, false;
      said := ["Order cancelled successfully, " + DisplayName(user) + ". You can place a new order anytime."];
    }

    /** `handleRatingUpdate`: the reviews panel hands back the product's new average, which
        replaces both the shown rating and the product's own. */
    method HandleRatingUpdate(newRating: real)
      modifies this`productRating, this`product
      ensures productRating == newRating
      ensures old(product).Some? ==> product == Some(old(product).value.(rating := newRating))
      ensures old(product).None? ==> product == None
    {
      productRating := newRating;
      if product.Some? {
        product := Some(product.value.(rating := newRating));
      }
    }

    /** `handleTranscript` once the purchase call (if any) has settled and the delay has
        passed. A purchase command always ends with the order shown as placed, whatever the
        endpoint answered; a failed call is ignored. */
    method HandleTranscript(command: string, user: Option<User>, reply: Result<PurchaseReply, ()>)
      returns (said: seq<string>)
      requires product.Some?
      modifies this`product, this`showAIModal, this`showSuccessModal, this`orderPlaced
      ensures said == Replies(ClassifyCommand(command), command, DisplayName(user), old(product).value.productName)
      ensures ClassifyCommand(command) == Purchase ==> orderPlaced && showSuccessModal && !showAIModal
      ensures ClassifyCommand(command) == Purchase && user.Some? && reply.Ok? && reply.value.buyNo.Some? ==>
                product == Some(old(product).value.(buyNo := reply.value.buyNo))
      ensures !(ClassifyCommand(command) == Purchase && user.Some? && reply.Ok? && reply.value.buyNo.Some?) ==>
                product == old(product)
      ensures ClassifyCommand(command) != Purchase ==>
                orderPlaced == old(orderPlaced) && showSuccessModal == old(showSuccessModal)
                && showAIModal == old(showAIModal)
    {
      var k := ClassifyCommand(command);
      said := Replies(k, command, DisplayName(user), product.value.productName);
      if k == Purchase {
        if user.Some? && reply.Ok? && reply.value.buyNo.Some? {
          product := Some(product.value.(buyNo := reply.value.buyNo));
        }
        showAIModal, showSuccessModal, orderPlaced := false, true, true;
      }
    }
  }

  /** What the page says for each kind of command, greeting the user as `name`. */
  function Replies(k: DetailsCommand, command: string, name: string, productName: string): (r: seq<string>)
    ensures |r| == (if k == Purchase then 2 else 1)
  {
    match k
    case Purchase =>
      ["Hey " + name + ", buying your " + productName + "!",
       "Hey " + name + ", product order is successful!"]
    case Hint =>
      ["Hey " + name + ", say \"Hey Sam, purchase this product\" to complete your purchase!"]
    case Echo =>
      ["Hey " + name + ", I heard: \"" + command
       + "\". Please say \"Hey Sam, purchase this product\" to complete your purchase!"]
  }

  /** Every reply greets the user by name. */
  lemma RepliesGreet(k: DetailsCommand, command: string, name: string, productName: string)
    ensures forall i :: 0 <= i < |Replies(k, command, name, productName)| ==>
              "Hey " + name <= Replies(k, command, name, productName)[i]
  {
    var hey := "Hey " + name;
    match k
    case Purchase =>
      assert Replies(k, command, name, productName)[0] == hey + (", buying your " + productName + "!");
      assert Replies(k, command, name, productName)[1] == hey + ", product order is successful!";
    case Hint =>
    case Echo =>
      var tail := "\". Please say \"Hey Sam, purchase this product\" to complete your purchase!";
      assert Replies(k, command, name, productName)[0] == hey + (", I heard: \"" + command + tail);
  }

  /** The fallback repeats the command as it was heard, before lower-casing. */
  lemma EchoRepeatsCommand(command: string, name: string, productName: string)
    ensures Contains(Replies(Echo, command, name, productName)[0], command)
  {
    var tail := "\". Please say \"Hey Sam, purchase this product\" to complete your purchase!";
    ContainsMiddle("Hey " + name + ", I heard: \"", command, tail);
  }

  /** The purchase announcement names the product. */
  lemma PurchaseNamesProduct(command: string, name: string, productName: string)
    ensures Contains(Replies(Purchase, command, name, productName)[0], productName)
  {
    ContainsMiddle("Hey " + name + ", buying your ", productName, "!");
  }
}
