# Storefront core, modelled in Dafny

This project models the client-side core of a React/Redux storefront with a voice assistant:

- the three Redux slices: the cart mirrored into local storage, authentication, and the selected category;
- the authentication service's storage readers and error mapping;
- the product list page's filter-and-sort pipeline and its filter controls;
- the voice command classifiers of the home, product list and product pages;
- the sign-up, sign-in and contact form validators;
- the avatar initials and the navigation bar's category controls;
- the product card, the banner slider, the sale countdown, the best-deals list, the seller's sold-products page and the reviews panel.

Where the source updates state step by step (the slices, the page handlers, the slider, the forms, the reviews widget), the model is a `class` whose methods have `modifies` clauses. Each method's `modifies` clause names what it may change, down to single fields where a handler touches only some, and its `ensures` gives each of those fields its new value, or says it is unchanged, in terms of pure specification functions. The pure parts (filters, sort, classifiers, validators, initials, countdown, star rules) are functions, with the promised properties proved as lemmas about them.

Local storage is a `map<string, Stored>`. A stored value is either plain text (the item count) or stands for the `JSON.stringify` of a cart array, a user or a token, so a value of the wrong shape reads as unparsable. Remote calls, timers and speech are inputs or outputs of the handlers: a reply is a `Result` the caller supplies, and what the page would speak is returned as a list of sentences.

The model follows the code where it departs from its own comments or from what the page evidently intends:

- the best-deals threshold is 20, although its comment says 30 (`Deals.DealDiscount`);
- the product list's filter effect does not list the price range among its triggers, so editing a price bound leaves the shown list stale. `Products.ProductsPage.SetPriceMin` and `SetPriceMax` model that, and `Products.StalePriceRange` exhibits it. `SetPriceMinRefreshing` and `SetPriceMaxRefreshing` model the behaviour with the price range as a trigger;
- the sold-products page never clears its error. Its effect runs on every change of `user`, and on a direct load it first runs before the stored session is restored, so 'User not logged in' stays on screen after the list has arrived. `SellerProducts.SoldProductsPage.FetchSold` keeps the earlier error on success, and `SellerProducts.DirectLoad` exhibits the sequence.

## Model

| member | source | states |
|---|---|---|
| Cart.LoadedCart | src/slices/cartSlice.js:3-9 | the initial cart is the stored array, or `[]` when the key is absent; a stored value of another shape is the error case |
| Cart.CartStore.Load | src/slices/cartSlice.js:4-9 | the initial state holds the stored list and `totalItems` is its length |
| Cart.CartStore.AddToCart | src/slices/cartSlice.js:15-20 | appends the item at the end with no de-duplication; `totalItems` equals the length; storage holds the new list and its length as text, and reading it back gives the list |
| Cart.CartStore.RemoveFromCart | src/slices/cartSlice.js:22-29 | the list becomes `Remaining(old, id)`; the count and the storage mirror follow |
| Cart.CartStore.ClearCart | src/slices/cartSlice.js:31-36 | empty list, count 0, "cartItems" removed, "totalItems" set to "0", and nothing else in storage changes |
| Cart.RemainingSpec | src/slices/cartSlice.js:23-25 | removal keeps exactly the non-null items with another id, as an order-preserving subsequence, and leaves no item with that id |
| Cart.RemoveIdempotent | src/slices/cartSlice.js:23-25 | removing the same id twice equals removing it once |
| Cart.RemoveAbsent | src/slices/cartSlice.js:23-25 | removing an absent id from a null-free cart leaves it unchanged |
| Cart.AddThenRemove | src/slices/cartSlice.js:16-25 | add then remove by the same id restores a null-free cart that lacked the id |
| Cart.RemoveDropsNulls | src/slices/cartSlice.js:24 | a cart holding a null entry is always changed by a removal, because the nulls go too |
| Category.CategoryStore.constructor | src/slices/categorySlice.js:7 | the selected category starts as "" |
| Category.CategoryStore.SetCategory | src/slices/categorySlice.js:10-12 | any string, "" included, becomes the selected category, independent of the old value |
| Category.SetTwice | src/slices/categorySlice.js:10-12 | of two writes in a row the last one wins |
| AuthService.GetCurrentUser | src/services/authService.js:62-70 | a user exactly when "user" holds a stringified user, and then that user; otherwise null |
| AuthService.GetToken | src/services/authService.js:73-81 | a token exactly when "token" holds a stringified string, and then that string; otherwise null |
| AuthService.ClearAuth | src/services/authService.js:84-87 | removes "token" and "user" and no other key |
| AuthService.IsAuthenticated | src/services/authService.js:55-59 | signed in only when both "token" and "user" are stored; with either key missing the visitor is signed out |
| AuthService.ClearedSignsOut | src/services/authService.js:55-87 | after clearing, `isAuthenticated` is false, both readers return null, and every other key keeps its value |
| AuthService.LoginWritesRoundTrip | src/slices/authSlice.js:103-104 | what login writes is read back as the same user and token, and counts as authenticated |
| AuthService.SignupRequest | src/services/authService.js:17-22 | the fields are passed through; the role is "buyer" exactly when none or "" was given (or "buyer" itself) |
| AuthService.Thrown | src/services/authService.js:25-50 | a failure rethrows the server body when there is one, else `{message}` with the call's default text |
| AuthService.FailureMessage | src/slices/authSlice.js:20-44 | the rejected payload is the server's non-empty message, or the call's default; never empty |
| Auth.AuthStore.constructor | src/slices/authSlice.js:4-10 | not authenticated, no user or token, not loading, no error |
| Auth.AuthStore.SetLoading | src/slices/authSlice.js:53-55 | only `loading` changes |
| Auth.AuthStore.SetError | src/slices/authSlice.js:56-59 | the error is set and loading ends; the session fields are unchanged |
| Auth.AuthStore.ClearError | src/slices/authSlice.js:60-62 | only `error` changes |
| Auth.AuthStore.InitializeAuth | src/slices/authSlice.js:63-72 | restores user, token and the flag only when both stored values parse and the token is non-empty; otherwise nothing changes |
| Auth.AuthStore.SignupOrLoginPending | src/slices/authSlice.js:77-94 | loading on, error cleared, session unchanged |
| Auth.AuthStore.SignupFulfilled | src/slices/authSlice.js:81-85 | loading off, error cleared, and signing up never signs in |
| Auth.AuthStore.Rejected | src/slices/authSlice.js:86-125 | loading off and the payload as error; the session fields are unchanged |
| Auth.AuthStore.LoginFulfilled | src/slices/authSlice.js:95-105 | signed in with the payload's user and its access token, both written to storage |
| Auth.AuthStore.LogoutPending | src/slices/authSlice.js:111-113 | loading on, and the error is kept |
| Auth.AuthStore.LogoutFulfilled | src/slices/authSlice.js:114-121 | everything reset and the stored session removed, so storage no longer counts as authenticated |
| Auth.AuthStore.Signup | src/slices/authSlice.js:13-89 | pending, then settled: success leaves the session as it was; failure sets the mapped error |
| Auth.AuthStore.Login | src/slices/authSlice.js:25-109 | success signs in with the response user and its access token, and storage gains exactly "token" and "user" with every other key kept; failure sets the mapped error and leaves the session and storage unchanged |
| Auth.AuthStore.Logout | src/slices/authSlice.js:37-125 | only a successful call signs out, clearing user, token and error and removing exactly "token" and "user" from storage (the cart keys stay); a rejected logout leaves the user signed in with the error set and storage unchanged |
| ProductFilter.ParseSortKey | src/Pages/Produsts.jsx:93-108 | the four known keys select an order; every other key, 'default' included, leaves the order alone |
| ProductFilter.SortBySpec | src/Pages/Produsts.jsx:93-105 | the sort is a permutation of its input, ordered by the key's comparator |
| ProductFilter.SortBySorted | src/Pages/Produsts.jsx:93-105 | a list already in order comes back unchanged |
| ProductFilter.SortByStable | src/Pages/Produsts.jsx:93-105 | the sort is stable: products that compare equal keep their input order |
| ProductFilter.InsertPerm | src/Pages/Produsts.jsx:95-104 | one insertion step adds exactly one copy of the element |
| ProductFilter.InsertSorted | src/Pages/Produsts.jsx:95-104 | one insertion step keeps a sorted list sorted |
| ProductFilter.Insert | src/Pages/Produsts.jsx:95-104 | one insertion step lengthens the list by exactly one |
| ProductFilter.SortBy | src/Pages/Produsts.jsx:93-105 | the sorted list has as many products as its input |
| ProductFilter.FilterProductsSpec | src/Pages/Produsts.jsx:63-90 | the filter stages give an order-preserving subsequence of the catalogue that holds exactly the admitted products (category substring, search in name, description or category, inclusive price range) |
| ProductFilter.FilterProductsSubsequence | src/Pages/Produsts.jsx:64-90 | the three stages only drop products, keeping the order |
| ProductFilter.FilterProductsSound | src/Pages/Produsts.jsx:67-90 | every product kept is in the catalogue and passes every active stage |
| ProductFilter.FilterProductsComplete | src/Pages/Produsts.jsx:67-90 | every catalogue product that passes every active stage is kept |
| ProductFilter.FilterProducts | src/Pages/Produsts.jsx:63-90 | the filters never add products: the result is no longer than the catalogue and every product in it comes from the catalogue |
| ProductFilter.SortStageSpec | src/Pages/Produsts.jsx:93-108 | the sort stage returns a permutation, ordered for a known key and unchanged otherwise |
| ProductFilter.PriceLowFirstLast | src/Pages/Produsts.jsx:94-96 | under 'price-low' the first product is never dearer than the last |
| ProductFilter.DefaultIsUnsorted | src/Pages/Produsts.jsx:106-107 | the initial key 'default' selects no order |
| ProductFilter.NoFiltersIsIdentity | src/Pages/Produsts.jsx:63-111 | with every filter empty and an unknown sort key, the catalogue is returned exactly |
| ProductFilter.FilterAndSortIdempotent | src/Pages/Produsts.jsx:63-111 | running the effect on its own output with the same inputs changes nothing |
| ProductFilter.FilterAndSort | src/Pages/Produsts.jsx:63-111 | filtering then sorting never lists more products than the catalogue holds |
| Products.IntentCategory | src/Pages/Produsts.jsx:129-132 | the reply's intent lower-cased when it has one, or "" when it has none or the call fails; the result is always lower case |
| Products.IntentReplies | src/Pages/Produsts.jsx:168-178 | two sentences for a recognised category, one apology otherwise |
| Products.ProductsPage.constructor | src/Pages/Produsts.jsx:10-18 | empty lists, empty search, 'default' sort, empty price range |
| Products.ProductsPage.Refresh | src/Pages/Produsts.jsx:63-111 | the shown list becomes the pipeline applied to the current inputs; no input changes |
| Products.ProductsPage.ProductsFetched | src/Pages/Produsts.jsx:47-60 | success stores `data`, or `[]` when it is missing, and re-runs the filter; failure changes nothing |
| Products.ProductsPage.SetSearchTerm | src/Pages/Produsts.jsx:546 | sets the term; the list is recomputed exactly when the value changes |
| Products.ProductsPage.SetSortBy | src/Pages/Produsts.jsx:558 | sets the key; the list is recomputed exactly when the value changes |
| Products.ProductsPage.SetPriceMin | src/Pages/Produsts.jsx:578 | sets the minimum and keeps the shown list, since the price range does not trigger the effect |
| Products.ProductsPage.SetPriceMax | src/Pages/Produsts.jsx:585 | sets the maximum and keeps the shown list, for the same reason |
| Products.ProductsPage.SetPriceMinRefreshing | src/Pages/Produsts.jsx:578 | with the price range as a trigger, the shown list always matches the inputs |
| Products.ProductsPage.SetPriceMaxRefreshing | src/Pages/Produsts.jsx:585 | as above, for the maximum |
| Products.ProductsPage.SelectCategory | src/Pages/Produsts.jsx:652 | a category write re-runs the filter exactly when the value changed |
| Products.ProductsPage.ApplyIntent | src/Pages/Produsts.jsx:171-175 | the recognised category is written to the store and the loader ends |
| Products.ProductsPage.HandleTranscript | src/Pages/Produsts.jsx:155-180 | a non-empty intent becomes the selected category; an empty one leaves it and the list untouched; the loader and listening end, and the spoken sentences are returned |
| Products.ProductsPage.ClearFilters | src/Pages/Produsts.jsx:590-597 | every input back to its default and the category to ""; when a trigger changed, the whole catalogue is shown in its own order |
| Products.ProductsPage.ResetAndRefresh | src/Pages/Produsts.jsx:592-596 | the cleared inputs re-run the effect and show the catalogue unchanged |
| Products.ProductsPage.ResetUnchanged | src/Pages/Produsts.jsx:592-596 | when no trigger changed, only the price range resets and the list stays as shown |
| Products.ProductsPage.ClearSearchAndCategory | src/Pages/Produsts.jsx:706-710 | resets search, sort and category but not the price range, which still filters the catalogue |
| Products.StalePriceRange | src/Pages/Produsts.jsx:83-111 | a product priced 5 is filtered out once the minimum is 10, yet the shown list keeps it |
| HomeReplies.Respond | src/Pages/Home.jsx:241-277 | only the products branch navigates, to "/products", after two sentences; every other branch speaks once; the fallback echoes the command |
| HomeReplies.EchoRepeatsCommand | src/Pages/Home.jsx:277 | the fallback sentence contains the command as heard, before lower-casing |
| Home.ClassifySpec | src/Pages/Home.jsx:217-279 | on the lower-cased command, each branch fires exactly when its deciding words occur and no earlier branch's do; "help me" never reaches the contact branch |
| Home.Classify | src/Pages/Home.jsx:217-279 | the products branch fires exactly when a product phrasing occurs in the lower-cased command; an unrecognised command mentions no contact phrasing |
| Home.ProductPhrasesReduce | src/Pages/Home.jsx:220-239 | the twenty product phrasings match exactly when "products" occurs |
| Home.DealPhrasesReduce | src/Pages/Home.jsx:253-257 | the deal phrasings match exactly when "deals" or "special offers" occurs |
| Home.HelpPhrasesReduce | src/Pages/Home.jsx:260-263 | the help phrasings match exactly when "help", "what can you do" or "your capabilities" occurs |
| Home.HomePhrasesReduce | src/Pages/Home.jsx:266-268 | the home phrasings match exactly when "home" occurs |
| Home.ProductPhrasesInclude | src/Pages/Home.jsx:220-239 | every product phrasing includes "products" |
| Home.HomePage.HandleTranscript | src/Pages/Home.jsx:217-279 | the reply is the classifier's branch; the navigation overlay is shown exactly when the lower-cased command includes "products" |
| Profile.DisplayName | src/Pages/Home.jsx:24 | the user name when non-empty; otherwise the e-mail up to its first '@' when that part is non-empty; otherwise "there"; never empty |
| Profile.DisplayNameOfEmail | src/Pages/Home.jsx:24 | with no user name, an address "local@domain" with a non-empty local part greets as "local" |
| Profile.WordsConcat | src/components/Common/Navbar.jsx:52 | splitting on spaces and dropping empty parts loses only the spaces |
| Profile.WordsEmpty | src/components/Common/Navbar.jsx:52 | there are no parts exactly when the name is all spaces |
| Profile.Initials | src/components/Common/Navbar.jsx:46-59 | "U" for an empty name; at most two characters; one character for an e-mail whose local part is non-empty |
| Profile.InitialsOfParts | src/components/Common/Navbar.jsx:55-56 | two or more parts give the upper-cased first letters of the first two |
| Profile.InitialsOfEmail | src/components/Common/Navbar.jsx:48-51 | an e-mail gives the upper-cased first letter of its local part |
| Profile.InitialsOfBlank | src/components/Common/Navbar.jsx:58 | a non-empty all-space name gives a single space |
| Profile.InitialsOfOnePart | src/components/Common/Navbar.jsx:53-54 | a one-part name gives the upper-cased first letter of that part |
| Navbar.AvatarInitials | src/components/Common/Navbar.jsx:145 | the initials of the user name, or of the e-mail when the name is empty; at most two characters |
| Navbar.AvatarOfTwoParts | src/components/Common/Navbar.jsx:145 | a user name of two or more parts shows two letters |
| Navbar.SellLinkMatchesBadge | src/components/Common/Navbar.jsx:177 | "Sell Product" is shown exactly when a signed-in user's account modal would show the "Seller" badge |
| Navbar.CartBadgeIffEntries | src/components/Common/Navbar.jsx:190 | the cart badge shows exactly when the cart holds an entry |
| Navbar.ShowSellLink | src/components/Common/Navbar.jsx:177 | the link needs a signed-in visitor with a stored user; a signed-out visitor never sees it |
| Navbar.ShowCartBadge | src/components/Common/Navbar.jsx:190 | the badge shows exactly for a total of at least one |
| Navbar.PickOption | src/components/Common/Navbar.jsx:233-244 | the chosen option's value is stored; only "All Category" clears the filter |
| Navbar.PressButton | src/components/Common/Navbar.jsx:246-254 | the button's value is stored, never "", and that button becomes the highlighted one |
| Navbar.OneHighlighted | src/components/Common/Navbar.jsx:250-253 | at most one category button is highlighted, and none while the category is "" |
| AccountModal.RoleBadge | src/components/Common/AccountModal.jsx:96 | "Seller" exactly for the role 'seller', otherwise "Buyer" |
| AccountModal.HandleLogout | src/components/Common/AccountModal.jsx:22-27 | logs out only a user with an e-mail address: success clears the session and removes exactly "token" and "user" from storage, failure keeps session and storage and sets the error; without such a user nothing changes; the modal closes either way |
| ProductDetails.PurchaseIffPhrase | src/Pages/ProductDetails.jsx:78-82 | the purchase branch fires exactly when "purchase this product" occurs; the greeting test is implied, since "this" contains "hi" |
| ProductDetails.IsInCart | src/Pages/ProductDetails.jsx:34-36 | in the cart only when some product line carries the page's id; an empty cart holds nothing |
| ProductDetails.ClassifyCommand | src/Pages/ProductDetails.jsx:77-124 | the command is echoed exactly when it holds no greeting; a purchase needs the phrase "purchase this product" |
| ProductDetails.Replies | src/Pages/ProductDetails.jsx:89-122 | two sentences for a purchase, one for the hint or the echo |
| ProductDetails.RepliesGreet | src/Pages/ProductDetails.jsx:89-122 | every reply starts by greeting the user by name |
| ProductDetails.EchoRepeatsCommand | src/Pages/ProductDetails.jsx:120-121 | the fallback reply contains the command as heard |
| ProductDetails.PurchaseNamesProduct | src/Pages/ProductDetails.jsx:89 | the purchase announcement contains the product's name |
| ProductDetails.DetailsPage.constructor | src/Pages/ProductDetails.jsx:17-25 | no product, loading, rating 0, no modal, no order |
| ProductDetails.DetailsPage.FetchProduct | src/Pages/ProductDetails.jsx:51-61 | success stores the product and its rating; failure keeps both; the loader ends either way; no other field changes |
| ProductDetails.DetailsPage.HandleCartToggle | src/Pages/ProductDetails.jsx:129-143 | removes by the product's id when the URL's id is in the cart, else appends the product's line; storage changes only under "cartItems" and "totalItems"; for a matching id, membership flips |
| ProductDetails.DetailsPage.ToggleTwice | src/Pages/ProductDetails.jsx:129-143 | two toggles restore a null-free cart that lacked the product |
| ProductDetails.DetailsPage.HandleBuyNow | src/Pages/ProductDetails.jsx:145-176 | the order shows as placed on the confirming message and also when the call fails; any other answer changes nothing; a returned `buyNo` updates the product |
| ProductDetails.DetailsPage.HandleCancelOrder | src/Pages/ProductDetails.jsx:178-182 | the order and the success modal are cleared and nothing else changes |
| ProductDetails.DetailsPage.HandleRatingUpdate | src/Pages/ProductDetails.jsx:225-230 | the new average replaces the shown rating and the product's own |
| ProductDetails.DetailsPage.HandleTranscript | src/Pages/ProductDetails.jsx:77-124 | a purchase command always ends with the order placed, whatever the endpoint answered; the other commands change no state |
| Stars.Fraction | src/components/Common/ProductCard.jsx:15 | JavaScript's `rating % 1`: in [0, 1) for a non-negative rating |
| Stars.FilledIsRounding | src/components/Common/ProductCard.jsx:14-30 | for a non-negative rating, star i is filled exactly when i is below the rating rounded half up |
| Stars.FilledPrefix | src/components/Common/ProductCard.jsx:25-30 | the filled stars form a prefix |
| Stars.StarsAddUp | src/components/Common/ProductCard.jsx:14-16 | for a rating from 0 to 5 the empty stars are 5 minus the filled ones |
| ProductCard.LineOf | src/components/Common/ProductCard.jsx:47-54 | the cart line carries the product's id and quantity 1 |
| ProductCard.HandleCartToggle | src/components/Common/ProductCard.jsx:40-56 | removes when the card's non-empty id is in the cart, else appends its line; storage changes only under "cartItems" and "totalItems"; for a non-empty id, membership flips |
| ProductCard.ShowDiscountIffSaving | src/components/Common/ProductCard.jsx:151-167 | for a positive price the struck-through price, saving and badge show exactly when the discounted price is below the list price, and the saving shown is positive |
| ProductCard.CardInCart | src/components/Common/ProductCard.jsx:12 | a card is in the cart only when its id is non-empty and some product line carries it |
| ProductCard.DiscountedPrice | src/components/Common/ProductCard.jsx:18 | no discount leaves the price as listed; a discount between 0 and 100 percent keeps a non-negative price between 0 and the list price |
| ProductCard.ShowDiscount | src/components/Common/ProductCard.jsx:151-167 | the discount line shows exactly for a discount of at least one percent |
| Slider.NextIndex | src/components/HomeComponents/ImageSlider.jsx:22-26 | the last index wraps to 0, any other adds one; the result stays in range |
| Slider.PrevIndex | src/components/HomeComponents/ImageSlider.jsx:16-20 | 0 wraps to the last index, any other subtracts one; the result stays in range |
| Slider.PrevUndoesNext | src/components/HomeComponents/ImageSlider.jsx:16-26 | each arrow undoes the other |
| Slider.AdvanceCompose | src/components/HomeComponents/ImageSlider.jsx:22-26 | a presses then b presses equal a + b presses |
| Slider.FullTurn | src/components/HomeComponents/ImageSlider.jsx:3-26 | as many presses as there are images return to the start |
| Slider.ImageSlider.constructor | src/components/HomeComponents/ImageSlider.jsx:12-13 | index 0, not paused |
| Slider.ImageSlider.PrevSlide | src/components/HomeComponents/ImageSlider.jsx:16-20 | the index moves back by one, with wrap-around |
| Slider.ImageSlider.NextSlide | src/components/HomeComponents/ImageSlider.jsx:22-26 | the index moves on by one, with wrap-around |
| Slider.ImageSlider.SelectSlide | src/components/HomeComponents/ImageSlider.jsx:82-85 | indicator k shows image k |
| Slider.ImageSlider.MouseEnter | src/components/HomeComponents/ImageSlider.jsx:44-46 | hovering pauses and keeps the image |
| Slider.ImageSlider.MouseLeave | src/components/HomeComponents/ImageSlider.jsx:48-50 | leaving resumes and keeps the image |
| Slider.ImageSlider.Tick | src/components/HomeComponents/ImageSlider.jsx:29-41 | a beat advances the image only while not paused |
| Countdown.BeatAt | src/components/HomeComponents/SaleCountdown.jsx:10-23 | the interval stops exactly when the distance is not positive, showing 0:0:0; hours below 24, minutes and seconds below 60 |
| Countdown.PartsAddUp | src/components/HomeComponents/SaleCountdown.jsx:18-20 | under a day, the three parts add up to the whole seconds left |
| Countdown.StartsAtInitial | src/components/HomeComponents/SaleCountdown.jsx:4-8 | a beat at the full five hours shows the initial 5:00:00 |
| Countdown.Format | src/components/HomeComponents/SaleCountdown.jsx:29 | a leading "0" exactly below ten |
| Countdown.FormatTwoChars | src/components/HomeComponents/SaleCountdown.jsx:29 | values 0 to 59 print as two characters |
| Countdown.DisplayWidth | src/components/HomeComponents/SaleCountdown.jsx:35 | every beat reads as eight characters "hh:mm:ss" |
| Deals.InCategory | src/components/HomeComponents/TodayBestDeals.jsx:32-34 | "" keeps every product; the result is an order-preserving subsequence |
| Deals.BestDealsSpec | src/components/HomeComponents/TodayBestDeals.jsx:32-37 | an order-preserving subsequence; a product is listed exactly when its category equals the selected one (or none is selected) and its discount is at least 20 |
| Deals.BestDeals | src/components/HomeComponents/TodayBestDeals.jsx:32-37 | every product shown is discounted by at least 20 percent, and none is added |
| Deals.ExactNotSubstring | src/components/HomeComponents/TodayBestDeals.jsx:33 | "silk saree" does not match the category "saree" |
| SellerProducts.SoldProductsPage.FetchSold | src/Pages/YourSellProducts.jsx:17-37 | without a user id nothing is requested and the error becomes 'User not logged in'; success replaces the list (or `[]` when missing) and keeps any earlier error; failure sets the load error and keeps the earlier list; the loader always ends |
| SellerProducts.SoldProductsPage.constructor | src/Pages/YourSellProducts.jsx:11-13 | no products, loading, no error |
| SellerProducts.SoldProductsPage.HandleDelete | src/Pages/YourSellProducts.jsx:39-50 | the list becomes `Delete` of the old list |
| SellerProducts.DirectLoad | src/Pages/YourSellProducts.jsx:17-37 | a first run without the session and a second with it leave the list loaded and the error 'User not logged in' still set, so the error screen is shown |
| SellerProducts.Delete | src/Pages/YourSellProducts.jsx:39-50 | unconfirmed, nothing changes; confirmed, exactly the products with another id remain, in order |
| SellerProducts.DeleteIdempotent | src/Pages/YourSellProducts.jsx:44 | deleting an id twice equals deleting it once |
| SellerProducts.TotalSoldAppend | src/Pages/YourSellProducts.jsx:122 | the units-sold total is additive over concatenation |
| SellerProducts.TotalSoldNonNegative | src/Pages/YourSellProducts.jsx:122 | missing figures count as 0, so with no negative figures the total is non-negative |
| SellerProducts.DeleteLowersTotal | src/Pages/YourSellProducts.jsx:122 | a delete lowers the total by exactly the units of the deleted products |
| SellerProducts.TotalSold | src/Pages/YourSellProducts.jsx:122 | products without a sold figure contribute nothing: with none recorded the total is 0 |
| Rating.FindByUser | src/components/Common/ProductRating.jsx:34-36 | the first review by that author, or none exactly when there is no such review |
| Rating.SubmitFailure | src/components/Common/ProductRating.jsx:129 | the server's message whenever it is non-empty, else 'Failed to submit rating'; never empty |
| Rating.RatingWidget.constructor | src/components/Common/ProductRating.jsx:10-18 | no stars, no hover, empty comment and list, no flags, no messages |
| Rating.RatingWidget.FetchReviews | src/components/Common/ProductRating.jsx:25-49 | a successful answer replaces the list and preloads the user's own stars and comment; failure sets the load error; the loader ends |
| Rating.RatingWidget.StarClick | src/components/Common/ProductRating.jsx:51-58 | without a user, only the login error is set; with one, the star is chosen and the form opens |
| Rating.RatingWidget.StarHover | src/components/Common/ProductRating.jsx:60-62 | the hover becomes the star and no other field changes |
| Rating.RatingWidget.StarLeave | src/components/Common/ProductRating.jsx:64-66 | the hover resets to 0 and no other field changes |
| Rating.RatingWidget.SubmitRating | src/components/Common/ProductRating.jsx:68-133 | the checks run in order (user, user id, stars), and the first failure sets its message with nothing sent; otherwise the trimmed comment is sent; an accepted rating sets the success message, closes the form, hands back the new rating and refreshes the list, whose failure leaves the load error; a thrown call sets the server's message or the default |
| Rating.RatingWidget.SuccessTimeout | src/components/Common/ProductRating.jsx:121-123 | three seconds after an accepted rating the success message is cleared and nothing else changes |
| Rating.DisplayFilledIsFloor | src/components/Common/ProductRating.jsx:141 | a read-only star k is lit exactly when k is at most the rating rounded down |
| Rating.InteractiveIsMax | src/components/Common/ProductRating.jsx:139-140 | an interactive star is lit exactly up to the larger of hover and choice |
| Rating.CardAndPanelDiffer | src/components/Common/ProductRating.jsx:141 | a 3.5 rating lights a fourth star on the card but not in this panel |
| Rating.BucketsAddUp | src/components/Common/ProductRating.jsx:188-200 | the three bucket counts sum to the number of reviews |
| Validation.Put | src/Pages/CreateAccount.jsx:52-74 | a check adds its message under its key and leaves the other keys alone |
| Validation.NoErrorsIsEmpty | src/Pages/CreateAccount.jsx:77 | `Object.keys(errors).length === 0` holds exactly for the empty map |
| Validation.LooseEmailHasAtAndDot | src/Pages/CreateAccount.jsx:62 | a passing address holds an '@' and a '.', and is not blank |
| Validation.LooseEmailInContext | src/Pages/CreateAccount.jsx:62 | the pattern is unanchored: text around a passing address does not matter |
| Validation.PlainAddressPasses | src/Pages/CreateAccount.jsx:62 | a plain address passes |
| Validation.NoDotFails | src/Pages/CreateAccount.jsx:62 | an address without a dot after the '@' fails |
| CreateAccount.UsernameError | src/Pages/CreateAccount.jsx:54-58 | required after trimming, then at least three characters untrimmed |
| CreateAccount.EmailError | src/Pages/CreateAccount.jsx:60-64 | no error exactly for a passing address; "invalid" exactly for a non-blank failing one |
| CreateAccount.PasswordError | src/Pages/CreateAccount.jsx:66-70 | no error exactly from six characters; "required" exactly for "" |
| CreateAccount.ConfirmError | src/Pages/CreateAccount.jsx:72-74 | an error exactly when the two passwords differ |
| CreateAccount.SignupErrorsReport | src/Pages/CreateAccount.jsx:51-78 | each field's entry is decided by that field's check alone; no other key appears |
| CreateAccount.SignupErrorsEmpty | src/Pages/CreateAccount.jsx:51-78 | the error map is empty exactly when the form passes |
| CreateAccount.SignupErrors | src/Pages/CreateAccount.jsx:51-78 | errors are only ever recorded under the four form fields; an empty map means the user name and e-mail passed |
| CreateAccount.SignupPage.constructor | src/Pages/CreateAccount.jsx:11-31 | empty fields, role "buyer", no errors, and the store's error cleared on mount |
| CreateAccount.SignupPage.HandleInputChange | src/Pages/CreateAccount.jsx:33-49 | stores the value, blanks only that field's error, and clears the store's error |
| CreateAccount.SignupPage.ValidateForm | src/Pages/CreateAccount.jsx:51-78 | the errors are rebuilt, and the form is valid exactly when they are empty |
| CreateAccount.SignupPage.HandleSubmit | src/Pages/CreateAccount.jsx:80-106 | a failing form never calls sign-up; a passing one sends the fields and on success goes to "/signin" with the role's message |
| SignIn.LoginPasswordError | src/Pages/Login.jsx:55-57 | only presence is checked, not length |
| SignIn.SignupPasswordsSignIn | src/Pages/Login.jsx:55-57 | every password sign-up accepts is accepted here, but not the converse |
| SignIn.LoginErrorsReport | src/Pages/Login.jsx:46-61 | the e-mail and password entries are decided by their own checks |
| SignIn.LoginErrorsEmpty | src/Pages/Login.jsx:59-60 | the form is valid exactly when no error is recorded |
| SignIn.LoginErrors | src/Pages/Login.jsx:46-61 | errors are only ever recorded under "email" and "password"; the password entry is present exactly when the password is empty |
| SignIn.RedirectTarget | src/Pages/Login.jsx:25-29 | a signed-in visitor is sent to "/" |
| SignIn.LoginPage.constructor | src/Pages/Login.jsx:8-22 | empty fields and errors, and the store's error cleared on mount |
| SignIn.LoginPage.HandleInputChange | src/Pages/Login.jsx:31-44 | stores the value and blanks only that field's error |
| SignIn.LoginPage.ValidateForm | src/Pages/Login.jsx:46-61 | the errors are rebuilt, and the form is valid exactly when they are empty |
| SignIn.LoginPage.HandleSubmit | src/Pages/Login.jsx:63-79 | a failing form never calls sign-in and changes no session or storage; success signs in with the user and its token, storage gains exactly "token" and "user", and the page goes to "/" |
| ContactForm.FirstNameError | src/components/ContactPages.jsx/ContactForm.jsx:79-85 | required, then at least two characters |
| ContactForm.EmailError | src/components/ContactPages.jsx/ContactForm.jsx:119-125 | required, then the anchored case-insensitive pattern |
| ContactForm.CountryCodeError | src/components/ContactPages.jsx/ContactForm.jsx:144 | required, with an empty message |
| ContactForm.PhoneError | src/components/ContactPages.jsx/ContactForm.jsx:156-162 | required, then 10 to 12 digits and nothing else |
| ContactForm.MessageError | src/components/ContactPages.jsx/ContactForm.jsx:183-189 | required, then at least ten characters |
| ContactForm.ContactErrors | src/components/ContactPages.jsx/ContactForm.jsx:79-189 | each field is reported exactly when its rules fail; the last name never is |
| ContactForm.ContactErrorsEmpty | src/components/ContactPages.jsx/ContactForm.jsx:79-189 | the form submits exactly when no rule fails |
| ContactForm.LastNameIgnored | src/components/ContactPages.jsx/ContactForm.jsx:104 | changing the last name never changes the errors |
| ContactForm.StrictIsLoose | src/components/ContactPages.jsx/ContactForm.jsx:122 | every address the contact form accepts also passes the sign-up test |
| ContactForm.LooseIsNotStrict | src/components/ContactPages.jsx/ContactForm.jsx:122 | "ann@mail.c" passes the sign-up test but not this one |
| ContactForm.MixedCasePasses | src/components/ContactPages.jsx/ContactForm.jsx:122 | the pattern ignores letter case |

## Left out

- Rendering: the JSX markup, CSS classes, icons and animations are not modelled. This includes the account modal rendering nothing while closed and the mobile menu.
- Network: every HTTP call (catalogue, product, purchase, reviews, rating, sold products, intent prediction, sign-up, sign-in, sign-out) is an input `Result` the caller supplies. The request shapes are modelled only where the page builds them (the sign-up body and the rating payload).
- Speech: recognition and synthesis are not modelled. A transcript is an input, and what would be spoken is returned as a list of sentences.
- Timers: the `setTimeout` delays and `setInterval` beats are not modelled as time. A handler whose delayed step only completes it is modelled by its state once the delay has passed; the one delayed step that undoes part of a handler, the reviews panel clearing its success message, is the separate method `Rating.RatingWidget.SuccessTimeout`; and `Slider.ImageSlider.Tick` and `Countdown.BeatAt` are single beats. The clock read by the countdown is the input `distance`.
- JSON: `JSON.stringify`/`JSON.parse` are not modelled. A stored value is tagged with the shape it was written as, and a value of another shape reads as unparsable.
- Cart.LoadedCart: a malformed stored cart makes the module throw at load time; the model returns `None`, and `CartStore.Load` requires a loadable cart.
- Prices are integers and ratings are reals. The card's discounted price is computed exactly (`ProductCard.DiscountedPrice`); `parseFloat`, floating-point rounding, `toFixed` and the sellers' average rating are not modelled.
- String lengths: a Dafny `string` counts code points, while JavaScript's `length` and `charAt` count UTF-16 code units. The length rules (user name at least 3, password at least 6, first name at least 2, message at least 10) and the initials' first character agree only for text inside the Basic Multilingual Plane; for example, five emoji are 10 units long to the contact form but 5 characters in the model.
- ProductFilter.LexLe: `localeCompare` is modelled as lexicographic order on code points, not a locale collation.
- Text.ToLower: `toLowerCase`/`toUpperCase` are modelled on ASCII letters only.
- Products.ProductsPage.HandleTranscript: the handler is memoised with only `dispatch` as a dependency, so it greets with the name from the first render. The model takes the greeting user as a parameter.
- Home.HomePage.HandleTranscript: the full-page redirect to "/products" after the delays is returned as `navigateTo` and not performed.
- ProductDetails.DetailsPage.HandleBuyNow: the purchase request itself (user id and product id) is not modelled. A missing user makes the request throw, which is modelled as the failure branch.
- Welcome modals, speech-enable flags, feature carousels, scroll listeners, the location fetcher and the listening-button styling are not modelled.
- React scheduling: each effect re-run is modelled as a synchronous call at the end of the handler that changes one of its dependencies. Concurrency between overlapping requests is not modelled.
