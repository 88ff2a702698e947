/** The server side of the catalog: the documents the product and category controllers
    read and write, the in-memory stand-in for the database, the failures a controller
    reports, the slug rule and the object-id check. */
module Catalog {
  import opened Wrappers
  import opened Types
  import opened Text

  /** How a request fails: a status and message set by the controller, or an error thrown
      by the database or by JavaScript that reaches the error middleware. */
  datatype Failure = HttpError(status: int, message: string) | Uncaught(reason: string)

  datatype ProductDoc = ProductDoc(
    id: string,
    name: string,
    slug: string,
    price: real,
    description: string,
    richDescription: Option<string>,
    images: seq<string>,
    brand: Option<string>,
    category: string,
    countInStock: int,
    isFeatured: bool,
    attributes: Attributes,
    discountPrice: Option<real>,
    discountPercentage: Option<real>,
    rating: real,
    numReviews: int)

  datatype CategoryDoc = CategoryDoc(
    id: string,
    name: string,
    slug: string,
    description: Option<string>,
    image: Option<string>,
    parent: Option<string>,
    isActive: bool)

  datatype ReviewDoc = ReviewDoc(id: string, user: string, product: string, rating: real, title: string, comment: string)

  /** An order, reduced to the products its items reference. */
  datatype OrderDoc = OrderDoc(id: string, products: seq<string>)

  /** A user, reduced to the products in their cart and wishlist. */
  datatype UserDoc = UserDoc(id: string, cartProducts: seq<string>, wishlistProducts: seq<string>)

  /** The collections, each in its natural (insertion) order. */
  datatype Db = Db(
    products: seq<ProductDoc>,
    categories: seq<CategoryDoc>,
    reviews: seq<ReviewDoc>,
    orders: seq<OrderDoc>,
    users: seq<UserDoc>)

  /** One character of a slug: a space becomes '-', anything else is lower-cased. */
  function SlugChar(c: char): char {
    if c == ' ' then '-' else LowerChar(c)
  }

  /** `name.toLowerCase().replace(/ /g, "-")`: lower-case, every space becomes '-'. */
  function Slug(name: string): (r: string)
    ensures |r| == |name|
    ensures forall i :: 0 <= i < |name| ==> r[i] == SlugChar(name[i])
  {
    if name == [] then [] else [SlugChar(name[0])] + Slug(name[1..])
  }

  /** A slug has no spaces and no upper-case ASCII letters. */
  lemma SlugShape(name: string)
    ensures forall i :: 0 <= i < |Slug(name)| ==> Slug(name)[i] != ' ' && !('A' <= Slug(name)[i] <= 'Z')
  {
  }

  /** Slugging a slug changes nothing, so two names with the same slug clash for good. */
  lemma SlugIdempotent(name: string)
    ensures Slug(Slug(name)) == Slug(name)
  {
    var s := Slug(name);
    assert forall i :: 0 <= i < |s| ==> Slug(s)[i] == s[i];
  }

  /** Names that differ only in ASCII case share a slug. */
  lemma SlugIgnoresCase(name: string)
    ensures Slug(Lower(name)) == Slug(name)
  {
    assert forall i :: 0 <= i < |name| ==> Slug(Lower(name))[i] == Slug(name)[i];
  }

  predicate IsHexDigit(c: char) {
    '0' <= c <= '9' || 'a' <= c <= 'f' || 'A' <= c <= 'F'
  }

  /** `mongoose.Types.ObjectId.isValid` on a string: 24 hex digits, or any 12 characters
      (read as 12 raw bytes). */
  predicate IsValidObjectId(id: string) {
    |id| == 12 || (|id| == 24 && forall i :: 0 <= i < 24 ==> IsHexDigit(id[i]))
  }

  /** Position of the first element whose key is `id`, or -1: the lookup behind
      `findById` on either collection. */
  function IndexOf<T>(s: seq<T>, key: T -> string, id: string): (r: int)
    ensures -1 <= r < |s|
    ensures r >= 0 ==> key(s[r]) == id && forall j :: 0 <= j < r ==> key(s[j]) != id
    ensures r == -1 <==> forall j :: 0 <= j < |s| ==> key(s[j]) != id
  {
    if s == [] then -1
    else if key(s[0]) == id then 0
    else
      var k := IndexOf(s[1..], key, id);
      if k == -1 then -1 else k + 1
  }

  /** Position of the category with this id, or -1. */
  function CategoryIndex(categories: seq<CategoryDoc>, id: string): (r: int)
    ensures -1 <= r < |categories|
    ensures r >= 0 ==> categories[r].id == id
    ensures r == -1 <==> forall j :: 0 <= j < |categories| ==> categories[j].id != id
  {
    IndexOf(categories, (c: CategoryDoc) => c.id, id)
  }

  /** Position of the product with this id, or -1. */
  function ProductIndex(products: seq<ProductDoc>, id: string): (r: int)
    ensures -1 <= r < |products|
    ensures r >= 0 ==> products[r].id == id
    ensures r == -1 <==> forall j :: 0 <= j < |products| ==> products[j].id != id
  {
    IndexOf(products, (p: ProductDoc) => p.id, id)
  }

  /** `Category.findById(id)`: a malformed id makes the cast to ObjectId throw; otherwise
      the position of the category, or -1 when there is none. */
  function FindCategory(categories: seq<CategoryDoc>, id: string): (r: Result<int, Failure>)
    ensures r.Err? <==> !IsValidObjectId(id)
    ensures r.Ok? ==> r.value == CategoryIndex(categories, id)
  {
    if !IsValidObjectId(id) then Err(Uncaught("CastError")) else Ok(CategoryIndex(categories, id))
  }

  /** `Product.findById(id)`, with the same cast rule. */
  function FindProduct(products: seq<ProductDoc>, id: string): (r: Result<int, Failure>)
    ensures r.Err? <==> !IsValidObjectId(id)
    ensures r.Ok? ==> r.value == ProductIndex(products, id)
  {
    if !IsValidObjectId(id) then Err(Uncaught("CastError")) else Ok(ProductIndex(products, id))
  }

  /** No two products share a slug. */
  predicate ProductSlugsUnique(products: seq<ProductDoc>) {
    forall i, j :: 0 <= i < j < |products| ==> products[i].slug != products[j].slug
  }

  /** No two categories share a slug. */
  predicate CategorySlugsUnique(categories: seq<CategoryDoc>) {
    forall i, j :: 0 <= i < j < |categories| ==> categories[i].slug != categories[j].slug
  }
}
