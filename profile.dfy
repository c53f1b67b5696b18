/** How the pages name and abbreviate the signed-in user. */
module Profile {
  import opened Base
  import opened Text
  import opened Entities

  /** `user?.username || user?.email?.split('@')[0] || 'there'`, the name the voice
      assistant greets with. */
  function DisplayName(u: Option<User>): (r: string)
    ensures r != ""
    ensures u.Some? && u.value.username != "" ==> r == u.value.username
    ensures u.None? ==> r == "there"
    ensures u.Some? && u.value.username == "" && r != "there" ==> r <= u.value.email && '@' !in r
    ensures u.Some? && u.value.username == "" && '@' !in u.value.email && u.value.email != "" ==> r == u.value.email
    ensures u.Some? && u.value.username == "" && u.value.email != "" && u.value.email[0] != '@' ==>
              r <= u.value.email && '@' !in r && (|r| == |u.value.email| || u.value.email[|r|] == '@')
    ensures u.Some? && u.value.username == "" && (u.value.email == "" || u.value.email[0] == '@') ==>
              r == "there"
  {
    if u.Some? && u.value.username != "" then u.value.username
    else if u.Some? && BeforeFirst(u.value.email, '@') != "" then BeforeFirst(u.value.email, '@')
    else "there"
  }

  /** With no user name, the greeting uses the e-mail's local part: "ann@mail.com" gives
      "ann". */
  lemma DisplayNameOfEmail(u: User, local: string, domain: string)
    requires u.username == "" && u.email == local + "@" + domain
    requires local != "" && '@' !in local
    ensures DisplayName(Some(u)) == local
  {
    assert u.email[|local|] == '@';
    assert u.email[..|local|] == local;
  }

  /** `s.split(' ').filter(part => part.length > 0)`: the maximal runs of non-space
      characters. Only the space character separates; tabs stay inside a part. */
  function Words(s: string): (r: seq<string>)
    ensures forall i :: 0 <= i < |r| ==> r[i] != [] && ' ' !in r[i]
    decreases |s|
  {
    if s == [] then []
    else if s[0] == ' ' then Words(s[1..])
    else
      var w := BeforeFirst(s, ' ');
      assert |w| > 0;
      [w] + Words(s[|w|..])
  }

  function Concat(ws: seq<string>): string
  {
    if ws == [] then [] else ws[0] + Concat(ws[1..])
  }

  function NotSpace(c: char): bool { c != ' ' }

  lemma {:induction false} ConcatAppend(a: seq<string>, b: seq<string>)
    ensures Concat(a + b) == Concat(a) + Concat(b)
  {
    if a == [] {
      assert a + b == b;
    } else {
      ConcatAppend(a[1..], b);
      assert (a + b)[1..] == a[1..] + b;
    }
  }

  /** The parts, put back together, are the name with its spaces deleted: splitting loses
      only separators. */
  lemma {:induction false} WordsConcat(s: string)
    ensures Concat(Words(s)) == Filter(s, NotSpace)
    decreases |s|
  {
    if s == [] {
    } else if s[0] == ' ' {
      WordsConcat(s[1..]);
    } else {
      var w := BeforeFirst(s, ' ');
      var rest := s[|w|..];
      WordsConcat(rest);
      assert s == w + rest;
      FilterAppend(w, rest, NotSpace);
      FilterAllPass(w, NotSpace);
      assert Words(s) == [w] + Words(rest);
      ConcatAppend([w], Words(rest));
    }
  }

  /** There are no parts exactly when the name is all spaces. */
  lemma {:induction false} WordsEmpty(s: string)
    ensures Words(s) == [] <==> forall i :: 0 <= i < |s| ==> s[i] == ' '
    decreases |s|
  {
    if s != [] && s[0] == ' ' {
      WordsEmpty(s[1..]);
      if Words(s) == [] {
        forall i | 0 <= i < |s| ensures s[i] == ' ' {
          if i > 0 { assert s[i] == s[1..][i - 1]; }
        }
      }
    }
  }

  /** `getUserInitials(name)`, written identically in the navbar and the account modal. */
  function Initials(name: string): (r: string)
    ensures |r| <= 2
    ensures name == "" ==> r == "U"
    ensures '@' in name ==> (|r| == 1 <==> name[0] != '@') && |r| <= 1
    ensures '@' !in name && name != "" ==> |r| >= 1
  {
    if name == "" then "U"
    else if '@' in name then ToUpper(CharAt0(BeforeFirst(name, '@')))
    else
      var parts := Words(name);
      if |parts| == 1 then ToUpper(CharAt0(parts[0]))
      else if |parts| >= 2 then ToUpper(CharAt0(parts[0]) + CharAt0(parts[1]))
      else ToUpper(CharAt0(name))
  }

  /** A name of two or more parts gives the capitalised first letters of the first two. */
  lemma InitialsOfParts(name: string)
    requires name != "" && '@' !in name && |Words(name)| >= 2
    ensures Initials(name) == [UpperChar(Words(name)[0][0]), UpperChar(Words(name)[1][0])]
  {
  }

  /** An e-mail address gives the capitalised first letter of its local part. */
  lemma InitialsOfEmail(local: string, domain: string)
    requires local != "" && '@' !in local
    ensures Initials(local + "@" + domain) == [UpperChar(local[0])]
  {
    var name := local + "@" + domain;
    assert name[|local|] == '@';
    assert BeforeFirst(name, '@')[0] == local[0];
  }

  /** A name of one part gives the capitalised first letter of that part: "ann" gives "A". */
  lemma InitialsOfOnePart(name: string)
    requires name != "" && '@' !in name && |Words(name)| == 1
    ensures Initials(name) == [UpperChar(Words(name)[0][0])]
  {
  }

  /** A non-empty name of spaces only falls through to its first character, a space. */
  lemma InitialsOfBlank(name: string)
    requires name != "" && forall i :: 0 <= i < |name| ==> name[i] == ' '
    ensures Initials(name) == " "
  {
    WordsEmpty(name);
  }
}

/** The navbar's derived flags and the category controls. */
module Navbar {
  import opened Base
  import opened Text
  import opened Entities
  import opened Profile
  import Category
  import Cart
  import AccountModal

  /** The "Sell Product" link is shown only to a signed-in seller. */
  predicate ShowSellLink(isAuthenticated: bool, user: Option<User>)
    ensures ShowSellLink(isAuthenticated, user) ==> isAuthenticated && user.Some?
    ensures !isAuthenticated ==> !ShowSellLink(isAuthenticated, user)
  {
    isAuthenticated && user.Some? && user.value.role == "seller"
  }

  /** The badge on the cart icon is shown only for a positive count. */
  predicate ShowCartBadge(totalItems: int)
    ensures ShowCartBadge(totalItems) <==> totalItems >= 1
  {
    totalItems > 0
  }

  /** The navbar offers "Sell Product" exactly when a signed-in user's account modal shows
      the "Seller" badge. */
  lemma SellLinkMatchesBadge(isAuthenticated: bool, user: Option<User>)
    ensures ShowSellLink(isAuthenticated, user) <==>
              isAuthenticated && user.Some? && AccountModal.RoleBadge(user.value.role) == "Seller"
  {
  }

  /** The badge shows for a cart holding at least one entry (it counts entries, not
      quantities) and disappears once the cart is empty. */
  lemma CartBadgeIffEntries(cart: Cart.CartStore)
    requires cart.Valid()
    ensures ShowCartBadge(cart.totalItems) <==> cart.cartItems != []
  {
  }

  /** The avatar text: `getUserInitials(user.username || user.email)`. */
  function AvatarInitials(u: User): (r: string)
    ensures |r| <= 2
    ensures u.username == "" && u.email == "" ==> r == "U"
    ensures u.username == "" && u.email != "" && u.email[0] != '@' ==> r != ""
    ensures u.username != "" ==> r == Initials(u.username)
    ensures u.username == "" ==> r == Initials(u.email)
  {
    Initials(if u.username != "" then u.username else u.email)
  }

  /** A user name of two or more parts shows two letters. */
  lemma AvatarOfTwoParts(u: User)
    requires u.username != "" && '@' !in u.username && |Words(u.username)| >= 2
    ensures |AvatarInitials(u)| == 2
  {
    InitialsOfParts(u.username);
  }

  /** The values of the category dropdown; "" is "All Category". */
  const SelectValues: seq<string> := ["", "saree", "kurti", "jeans", "kurta", "lehenga", "tshirt", "pant"]

  /** The values of the category buttons under the navbar. */
  const ButtonValues: seq<string> := ["fashion", "electronics", "home", "sports", "books", "beauty", "toys"]

  /** A category button is highlighted when it is the selected category. */
  predicate Highlighted(selected: string, i: int)
    requires 0 <= i < |ButtonValues|
  {
    selected == ButtonValues[i]
  }

  /** The dropdown's `onChange`: the chosen option's value goes to the category store. Only
      the first option, "All Category", clears the filter. */
  method PickOption(store: Category.CategoryStore, i: int)
    requires 0 <= i < |SelectValues|
    modifies store
    ensures store.selectedCategory == SelectValues[i]
    ensures store.selectedCategory == "" <==> i == 0
  {
    store.SetCategory(SelectValues[i]);
  }

  /** A category button's `onClick`: its value goes to the category store; none clears it. */
  method PressButton(store: Category.CategoryStore, i: int)
    requires 0 <= i < |ButtonValues|
    modifies store
    ensures store.selectedCategory == ButtonValues[i] && store.selectedCategory != ""
    ensures Highlighted(store.selectedCategory, i)
  {
    store.SetCategory(ButtonValues[i]);
  }

  /** At most one category button is highlighted, and none while "All Category" is chosen. */
  lemma OneHighlighted(selected: string, i: int, j: int)
    requires 0 <= i < |ButtonValues| && 0 <= j < |ButtonValues|
    requires Highlighted(selected, i) && Highlighted(selected, j)
    ensures i == j && selected != ""
  {
  }
}

/** The account modal's handlers and badges. */
module AccountModal {
  import opened Base
  import opened Entities
  import opened AuthService
  import opened Auth

  function RoleBadge(role: string): (r: string)
    ensures r == "Seller" <==> role == "seller"
    ensures r == "Seller" || r == "Buyer"
  {
    if role == "seller" then "Seller" else "Buyer"
  }

  /** `handleLogout`: dispatch `logoutUser(user.email)` only when there is a user with an
      e-mail address, then close the modal either way. */
  method HandleLogout(auth: AuthStore, outcome: Result<(), RequestError>) returns (closed: bool)
    requires auth.Valid()
    modifies auth, auth.storage
    ensures closed
    ensures auth.Valid()
    ensures old(auth.user).Some? && old(auth.user).value.email != "" ==> !auth.loading
    ensures old(auth.user).Some? && old(auth.user).value.email != "" && outcome.Ok? ==>
              !auth.isAuthenticated && auth.user == None && auth.token == None && auth.error == None
              && auth.storage.items == old(auth.storage.items) - {TokenKey, UserKey}
              && !IsAuthenticated(auth.storage.items)
    ensures old(auth.user).Some? && old(auth.user).value.email != "" && outcome.Err? ==>
              auth.user == old(auth.user) && auth.isAuthenticated == old(auth.isAuthenticated)
              && auth.token == old(auth.token)
              && auth.error == Some(RejectedPayload(LogoutCall, Thrown(LogoutCall, outcome.error)))
              && auth.storage.items == old(auth.storage.items)
    ensures !(old(auth.user).Some? && old(auth.user).value.email != "") ==>
              auth.user == old(auth.user) && auth.isAuthenticated == old(auth.isAuthenticated)
              && auth.token == old(auth.token)
              && auth.error == old(auth.error) && auth.loading == old(auth.loading)
              && auth.storage.items == old(auth.storage.items)
  {
    if auth.user.Some? && auth.user.value.email != "" {
      auth.Logout(outcome);
    }
    closed := true;
  }
}
