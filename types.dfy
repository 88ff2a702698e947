/** The client's records (`client/src/types/index.ts`) and JavaScript truthiness on
    optional values. Money is `real`; counts are `int` because the client never checks
    their sign. */
module Types {
  import opened Wrappers

  /** One value of `Record<string, string | number | boolean | null>`. */
  datatype AttrValue = AttrText(text: string) | AttrNumber(number: real) | AttrFlag(flag: bool) | AttrNull

  type Attributes = map<string, AttrValue>

  /** A product's category: populated as an object, or just its id. */
  datatype CategoryRef = CategoryObject(id: string, name: string) | CategoryId(ref: string)

  datatype Product = Product(
    id: string,
    name: string,
    description: string,
    richDescription: Option<string>,
    images: seq<string>,
    price: real,
    category: CategoryRef,
    countInStock: int,
    rating: real,
    numReviews: int,
    isFeatured: bool,
    brand: Option<string>,
    discountPrice: Option<real>,
    discountPercentage: Option<real>,
    attributes: Attributes)

  /** A line of the server cart as the client receives it. */
  datatype CartLine = CartLine(id: string, product: Product, quantity: int, price: real, attributes: Option<Attributes>)

  /** The server cart; its totals are computed by the server and shown as given. */
  datatype ServerCart = ServerCart(id: string, user: string, items: seq<CartLine>, totalPrice: real, totalItems: int)

  datatype Address = Address(
    id: string,
    name: string,
    addressLine1: string,
    addressLine2: Option<string>,
    city: string,
    state: string,
    postalCode: string,
    country: string,
    phone: string,
    isDefault: bool)

  /** A category's parent as the client receives it: populated, an id, or absent. */
  datatype ParentRef = ParentObject(id: string) | ParentText(text: string) | NoParent

  /** A category as the client receives it. */
  datatype Category = Category(
    id: string,
    name: string,
    description: Option<string>,
    image: Option<string>,
    parent: ParentRef,
    isActive: Option<bool>)

  /** A user field that is populated (`{ name }`) or only an id. */
  datatype UserRef = UserObject(name: string) | UserId(ref: string)

  datatype User = User(id: string, name: string, email: string, isAdmin: bool)

  /** The fields of an order the admin pages read. */
  datatype Order = Order(id: string, user: UserRef, isPaid: bool, status: Option<string>, totalPrice: real)

  datatype Review = Review(id: string, title: string, comment: string, rating: real, isApproved: bool, userName: string)

  datatype Payment = Payment(id: string, transactionId: Option<string>, user: UserRef, amount: real, status: string)

  /** `Boolean(s)` for an optional string: defined and not "". */
  predicate TruthyText(s: Option<string>) {
    s.Some? && s.value != ""
  }

  /** `Boolean(x)` for an optional number: defined and not 0 (NaN is not modelled). */
  predicate TruthyNumber(x: Option<real>) {
    x.Some? && x.value != 0.0
  }

  /** `s || fallback` for an optional string. */
  function TextOr(s: Option<string>, fallback: string): (r: string)
    ensures TruthyText(s) ==> r == s.value
    ensures !TruthyText(s) ==> r == fallback
  {
    if TruthyText(s) then s.value else fallback
  }

  /** `x || fallback` for an optional number. */
  function NumberOr(x: Option<real>, fallback: real): (r: real)
    ensures TruthyNumber(x) ==> r == x.value
    ensures !TruthyNumber(x) ==> r == fallback
  {
    if TruthyNumber(x) then x.value else fallback
  }
}
