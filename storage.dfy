/** The records the stores and pages pass around, and the browser's local key-value storage. */
module Entities {
  import opened Base

  /** One cart line as ProductCard and ProductDetails build it (`quantity` is always 1 there). */
  datatype LineItem = LineItem(id: string, imageUrl: string, productName: string,
                               price: int, discount: int, quantity: int)

  /** An element of the persisted cart array: the reducers tolerate `null` entries. */
  datatype Entry = NullEntry | Line(item: LineItem)

  /** The user object returned by the login endpoint; a missing field is "". */
  datatype User = User(id: string, username: string, email: string, role: string, accessToken: string)

  /** A product as the catalogue endpoint returns it. `buyNo` may be missing. */
  datatype Product = Product(id: string, imageUrl: string, productName: string, description: string,
                             category: string, price: int, discount: int, rating: real,
                             buyNo: Option<int>)
}

module Storage {
  import opened Base
  import opened Entities

  /** A stored value: `Plain` is text written as is (the item count); the other
      constructors stand for the `JSON.stringify` of a cart array, a user or a token. */
  datatype Stored = Plain(text: string) | CartJson(entries: seq<Entry>)
                  | UserJson(user: User) | TokenJson(token: string)

  /** `localStorage.getItem(key)` is a non-empty string (so `!!getItem(key)` holds).
      A stringified JSON value is never empty. */
  predicate PresentAndNonEmpty(m: map<string, Stored>, key: string)
  {
    key in m && (m[key].Plain? ==> m[key].text != "")
  }

  /** `window.localStorage`, shared by the cart and auth stores. */
  class LocalStorage {
    var items: map<string, Stored>

    constructor (initial: map<string, Stored>)
      ensures items == initial
    {
      items := initial;
    }

    method SetItem(key: string, value: Stored)
      modifies this
      ensures items == old(items)[key := value]
    {
      items := items[key := value];
    }

    method RemoveItem(key: string)
      modifies this
      ensures items == old(items) - {key}
    {
      items := items - {key};
    }
  }
}
