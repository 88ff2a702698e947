/** `server/controllers/productController.js`: the product listing query with its
    pagination, creating, updating and deleting a product, and adding a review. */
module ProductController {
  import opened Wrappers
  import opened Types
  import opened Seqs
  import opened Text
  import opened Paging
  import opened Catalog

  const PageSize: nat := 10

  /** The query string of `GET /api/products`, as far as the controller reads it.
      `pageNumber` is `Number(...)` of the parameter, None when that is NaN; a price bound
      is present when its parameter is a non-empty string. */
  datatype ProductQuery = ProductQuery(
    pageNumber: Option<int>,
    keyword: Option<string>,
    category: Option<string>,
    brand: Option<string>,
    priceMin: Option<real>,
    priceMax: Option<real>,
    sortBy: Option<string>,
    sortOrder: Option<string>)

  /** One `sortOption` entry: the field and whether it is descending (-1). */
  datatype SortSpec = SortSpec(field: string, descending: bool)

  /** The listing response. */
  datatype Listing = Listing(products: seq<ProductDoc>, page: int, pages: int, count: int, sort: SortSpec)

  /** `Number(req.query.pageNumber) || 1`: NaN and 0 fall back to page 1. */
  function PageOf(pageNumber: Option<int>): (r: int)
    ensures r != 0
    ensures pageNumber.Some? && pageNumber.value != 0 ==> r == pageNumber.value
    ensures pageNumber.None? || pageNumber.value == 0 ==> r == 1
  {
    if pageNumber.Some? && pageNumber.value != 0 then pageNumber.value else 1
  }

  /** The sort option: the given field, descending only for "desc"; newest first by default. */
  function SortOf(sortBy: Option<string>, sortOrder: Option<string>): (r: SortSpec)
    ensures TruthyText(sortBy) ==> r.field == sortBy.value && (r.descending <==> sortOrder == Some("desc"))
    ensures !TruthyText(sortBy) ==> r == SortSpec("createdAt", true)
  {
    if TruthyText(sortBy) then SortSpec(sortBy.value, sortOrder == Some("desc"))
    else SortSpec("createdAt", true)
  }

  /** The database filter: keyword in the name or the description ignoring case, exact
      category and brand, and the price range only when both bounds are given. */
  predicate Matches(q: ProductQuery, p: ProductDoc)
    ensures (!TruthyText(q.keyword) && !TruthyText(q.category) && !TruthyText(q.brand)
             && (q.priceMin.None? || q.priceMax.None?)) ==> Matches(q, p)
    ensures Matches(q, p) && q.priceMin.Some? && q.priceMax.Some? ==> q.priceMin.value <= q.priceMax.value
  {
    (TruthyText(q.keyword) ==> MatchesIgnoringCase(p.name, q.keyword.value) || MatchesIgnoringCase(p.description, q.keyword.value))
    && (TruthyText(q.category) ==> p.category == q.category.value)
    && (TruthyText(q.brand) ==> p.brand == q.brand)
    && (q.priceMin.Some? && q.priceMax.Some? ==> q.priceMin.value <= p.price <= q.priceMax.value)
  }

  function MatcherOf(q: ProductQuery): ProductDoc -> bool {
    (p: ProductDoc) => Matches(q, p)
  }

  /** The products the filter selects, in the order the sort option gives them. */
  function Matching(products: seq<ProductDoc>, q: ProductQuery): seq<ProductDoc> {
    Filter(products, MatcherOf(q))
  }

  /** `.skip(skip).limit(limit)` on a result set. */
  function SkipLimit<T>(s: seq<T>, skip: nat, limit: nat): (r: seq<T>)
    ensures |r| <= limit
    ensures |r| == if skip >= |s| then 0 else if skip + limit < |s| then limit else |s| - skip
    ensures forall i :: 0 <= i < |r| ==> skip + i < |s| && r[i] == s[skip + i]
  {
    var from := if skip < |s| then skip else |s|;
    var to := if skip + limit < |s| then skip + limit else |s|;
    s[from..to]
  }

  /** A truthy `category` parameter that is no ObjectId: casting it for the `category`
      path of the filter throws. */
  predicate CategoryCastFails(q: ProductQuery) {
    TruthyText(q.category) && !IsValidObjectId(q.category.value)
  }

  /** `getProducts`. The database is handed `products` already in the order of the sort
      option; it skips `10 * (page - 1)` matches and returns the next 10. A category that
      is no ObjectId throws in `countDocuments`, before the listing query; a negative skip
      is refused by the database. */
  function GetProducts(products: seq<ProductDoc>, q: ProductQuery): (r: Result<Listing, Failure>)
    ensures CategoryCastFails(q) ==> r == Err(Uncaught("CastError"))
    ensures r.Err? <==> CategoryCastFails(q) || PageOf(q.pageNumber) < 1
    ensures r.Ok? ==> r.value.page == PageOf(q.pageNumber) && r.value.sort == SortOf(q.sortBy, q.sortOrder)
    ensures r.Ok? ==> r.value.count == |Matching(products, q)| && r.value.pages == CeilDiv(r.value.count, PageSize)
    ensures r.Ok? ==> |r.value.products| <= PageSize
    ensures r.Ok? ==> forall i :: 0 <= i < |r.value.products| ==> Matches(q, r.value.products[i])
  {
    var page := PageOf(q.pageNumber);
    var skip := PageSize * (page - 1);
    if CategoryCastFails(q) then Err(Uncaught("CastError"))
    else if skip < 0 then Err(Uncaught("skip must be non-negative"))
    else
      var matched := Matching(products, q);
      assert forall i :: 0 <= i < |matched| ==> MatcherOf(q)(matched[i]);
      Ok(Listing(SkipLimit(matched, skip, PageSize), page, CeilDiv(|matched|, PageSize), |matched|, SortOf(q.sortBy, q.sortOrder)))
  }

  /** The listed products are page `page` of the matches as the client pages a list:
      `slice((page - 1) * 10, page * 10)`. */
  lemma ListingIsPageSlice(products: seq<ProductDoc>, q: ProductQuery)
    ensures var r := GetProducts(products, q);
            r.Ok? ==> r.value.products == PageSlice(Matching(products, q), r.value.page, PageSize)
  {
    var r := GetProducts(products, q);
    if r.Ok? {
      var page := PageOf(q.pageNumber);
      var matched := Matching(products, q);
      PageSliceShape(matched, page, PageSize);
      var skip: nat := PageSize * (page - 1);
      assert (page - 1) * PageSize == skip;
    }
  }

  /** Every matching product is listed: the j-th match is on page j / 10 + 1, which is
      within the page count the response reports. The stored categories are ObjectIds, so
      a query that matches anything casts. */
  lemma EveryMatchIsListed(products: seq<ProductDoc>, q: ProductQuery, j: nat)
    requires forall i :: 0 <= i < |products| ==> IsValidObjectId(products[i].category)
    requires j < |Matching(products, q)|
    ensures var r := GetProducts(products, q.(pageNumber := Some(j / PageSize + 1)));
            r.Ok? && 1 <= r.value.page <= r.value.pages && Matching(products, q)[j] in r.value.products
  {
    var m := Matching(products, q)[j];
    assert m in products && Matches(q, m);
    var q' := q.(pageNumber := Some(j / PageSize + 1));
    FilterAgree(products, MatcherOf(q'), MatcherOf(q));
    EveryElementOnAPage(Matching(products, q), j, PageSize);
    ListingIsPageSlice(products, q');
  }

  /** Without filters the listing covers every product, newest first. */
  lemma EmptyQueryListsAll(products: seq<ProductDoc>, pageNumber: Option<int>)
    ensures var q := ProductQuery(pageNumber, None, None, None, None, None, None, None);
            Matching(products, q) == products && SortOf(q.sortBy, q.sortOrder) == SortSpec("createdAt", true)
  {
    var q := ProductQuery(pageNumber, None, None, None, None, None, None, None);
    FilterKeepsAll(products, MatcherOf(q));
  }

  /** A single price bound is ignored: the range filter needs both. */
  lemma OneBoundIgnored(q: ProductQuery, p: ProductDoc)
    requires q.priceMin.None? || q.priceMax.None?
    ensures Matches(q, p) == Matches(q.(priceMin := None, priceMax := None), p)
  {
  }

  /** The body of a create or update request; None is a field left out of the body. */
  datatype ProductInput = ProductInput(
    name: Option<string>,
    price: Option<real>,
    description: Option<string>,
    richDescription: Option<string>,
    images: Option<seq<string>>,
    brand: Option<string>,
    category: Option<string>,
    countInStock: Option<int>,
    isFeatured: Option<bool>,
    attributes: Option<Attributes>,
    discountPrice: Option<real>,
    discountPercentage: Option<real>)

  /** The document `Product.create` stores; fields left out of the body take neutral
      values, because the schema's defaults are not part of this model. */
  function NewProductDoc(id: string, slug: string, category: string, body: ProductInput): ProductDoc {
    ProductDoc(id, body.name.GetOr(""), slug, body.price.GetOr(0.0), body.description.GetOr(""), body.richDescription,
      body.images.GetOr([]), body.brand, category, body.countInStock.GetOr(0), body.isFeatured.GetOr(false),
      body.attributes.GetOr(map[]), body.discountPrice, body.discountPercentage, 0.0, 0)
  }

  predicate SlugTaken(products: seq<ProductDoc>, slug: string) {
    exists i :: 0 <= i < |products| && products[i].slug == slug
  }

  /** `createProduct`: a missing name throws; then the category must exist (400), then the
      slug must be free (400); only then is the product appended. */
  function CreateProduct(db: Db, body: ProductInput, newId: string): (r: Result<Db, Failure>)
    ensures body.name.None? ==> r.Err? && r.error.Uncaught?
    ensures body.name.Some? && body.category.None? ==> r == Err(HttpError(400, "Invalid category"))
    ensures (body.name.Some? && body.category.Some? && IsValidObjectId(body.category.value)
             && CategoryIndex(db.categories, body.category.value) == -1)
            ==> r == Err(HttpError(400, "Invalid category"))
    ensures (body.name.Some? && body.category.Some? && IsValidObjectId(body.category.value)
             && CategoryIndex(db.categories, body.category.value) >= 0 && SlugTaken(db.products, Slug(body.name.value)))
            ==> r == Err(HttpError(400, "Product with this name already exists"))
    ensures r.Ok? <==> body.name.Some? && body.category.Some? && IsValidObjectId(body.category.value)
                       && CategoryIndex(db.categories, body.category.value) >= 0 && !SlugTaken(db.products, Slug(body.name.value))
    ensures r.Ok? ==> r.value == db.(products := db.products + [NewProductDoc(newId, Slug(body.name.value), body.category.value, body)])
  {
    if body.name.None? then Err(Uncaught("Cannot read properties of undefined (reading 'toLowerCase')"))
    else
      var slug := Slug(body.name.value);
      if body.category.None? then Err(HttpError(400, "Invalid category"))
      else
        var found :- FindCategory(db.categories, body.category.value);
        if found == -1 then Err(HttpError(400, "Invalid category"))
        else if SlugTaken(db.products, slug) then Err(HttpError(400, "Product with this name already exists"))
        else Ok(db.(products := db.products + [NewProductDoc(newId, slug, body.category.value, body)]))
  }

  /** Creating never gives two products the same slug. */
  lemma CreateKeepsSlugsUnique(db: Db, body: ProductInput, newId: string)
    requires ProductSlugsUnique(db.products)
    ensures var r := CreateProduct(db, body, newId);
            r.Ok? ==> ProductSlugsUnique(r.value.products)
  {
  }

  /** The merge of `updateProduct`: name, price, description, rich description, images,
      brand, category and attributes are replaced only by a truthy value (so a price of 0 is
      ignored, an empty array is not); stock, featured flag and the two discounts are
      replaced by any value that is present. The slug follows a truthy name. */
  function MergeProduct(p: ProductDoc, body: ProductInput): (r: ProductDoc)
    ensures r.id == p.id && r.rating == p.rating && r.numReviews == p.numReviews
    ensures TruthyText(body.name) ==> r.name == body.name.value && r.slug == Slug(r.name)
    ensures !TruthyText(body.name) ==> r.name == p.name && r.slug == p.slug
  {
    ProductDoc(
      p.id,
      TextOr(body.name, p.name),
      if TruthyText(body.name) then Slug(body.name.value) else p.slug,
      NumberOr(body.price, p.price),
      TextOr(body.description, p.description),
      if TruthyText(body.richDescription) then body.richDescription else p.richDescription,
      if body.images.Some? then body.images.value else p.images,
      if TruthyText(body.brand) then body.brand else p.brand,
      TextOr(body.category, p.category),
      body.countInStock.GetOr(p.countInStock),
      body.isFeatured.GetOr(p.isFeatured),
      if body.attributes.Some? then body.attributes.value else p.attributes,
      if body.discountPrice.Some? then body.discountPrice else p.discountPrice,
      if body.discountPercentage.Some? then body.discountPercentage else p.discountPercentage,
      p.rating,
      p.numReviews)
  }

  /** An empty body changes nothing. */
  lemma MergeEmptyBody(p: ProductDoc)
    ensures MergeProduct(p, ProductInput(None, None, None, None, None, None, None, None, None, None, None, None)) == p
  {
  }

  /** Zero is ignored for the price but applied for the stock. */
  lemma MergeZeroes(p: ProductDoc)
    ensures var b := ProductInput(None, Some(0.0), None, None, None, None, None, Some(0), None, None, None, None);
            MergeProduct(p, b).price == p.price && MergeProduct(p, b).countInStock == 0
  {
  }

  /** Applying the same update twice is the same as applying it once; id, rating and
      review count are never touched. */
  lemma MergeIdempotent(p: ProductDoc, body: ProductInput)
    ensures MergeProduct(MergeProduct(p, body), body) == MergeProduct(p, body)
    ensures MergeProduct(p, body).id == p.id && MergeProduct(p, body).rating == p.rating
            && MergeProduct(p, body).numReviews == p.numReviews
  {
  }

  /** The fetched product document, whose fields `updateProduct` assigns one by one. */
  class ProductDocument {
    const id: string
    var name: string
    var slug: string
    var price: real
    var description: string
    var richDescription: Option<string>
    var images: seq<string>
    var brand: Option<string>
    var category: string
    var countInStock: int
    var isFeatured: bool
    var attributes: Attributes
    var discountPrice: Option<real>
    var discountPercentage: Option<real>
    var rating: real
    var numReviews: int

    /** Hydrate a document from the stored record. */
    constructor(p: ProductDoc)
      ensures Snapshot() == p
    {
      id := p.id;
      name := p.name;
      slug := p.slug;
      price := p.price;
      description := p.description;
      richDescription := p.richDescription;
      images := p.images;
      brand := p.brand;
      category := p.category;
      countInStock := p.countInStock;
      isFeatured := p.isFeatured;
      attributes := p.attributes;
      discountPrice := p.discountPrice;
      discountPercentage := p.discountPercentage;
      rating := p.rating;
      numReviews := p.numReviews;
    }

    /** The record `save` writes back. */
    function Snapshot(): ProductDoc
      reads this
    {
      ProductDoc(id, name, slug, price, description, richDescription, images, brand, category, countInStock,
        isFeatured, attributes, discountPrice, discountPercentage, rating, numReviews)
    }

    /** The field assignments of `updateProduct`, in the source's order. */
    method ApplyUpdate(body: ProductInput)
      modifies this
      ensures Snapshot() == MergeProduct(old(Snapshot()), body)
    {
      AssignNameAndPrice(body);
      AssignDetails(body);
      AssignStockAndOffers(body);
    }

    /** name, slug (computed from the name before the category check), price, description. */
    method AssignNameAndPrice(body: ProductInput)
      modifies this`name, this`slug, this`price, this`description
      ensures name == TextOr(body.name, old(name))
      ensures slug == if TruthyText(body.name) then Slug(body.name.value) else old(slug)
      ensures price == NumberOr(body.price, old(price))
      ensures description == TextOr(body.description, old(description))
    {
      var newSlug := if TruthyText(body.name) then Slug(body.name.value) else slug;
      name := TextOr(body.name, name);
      slug := newSlug;
      price := NumberOr(body.price, price);
      description := TextOr(body.description, description);
    }

    /** richDescription, images, brand, category. */
    method AssignDetails(body: ProductInput)
      modifies this`richDescription, this`images, this`brand, this`category
      ensures richDescription == if TruthyText(body.richDescription) then body.richDescription else old(richDescription)
      ensures images == if body.images.Some? then body.images.value else old(images)
      ensures brand == if TruthyText(body.brand) then body.brand else old(brand)
      ensures category == TextOr(body.category, old(category))
    {
      richDescription := if TruthyText(body.richDescription) then body.richDescription else richDescription;
      images := if body.images.Some? then body.images.value else images;
      brand := if TruthyText(body.brand) then body.brand else brand;
      category := TextOr(body.category, category);
    }

    /** countInStock, isFeatured, attributes and the two discounts. */
    method AssignStockAndOffers(body: ProductInput)
      modifies this`countInStock, this`isFeatured, this`attributes, this`discountPrice, this`discountPercentage
      ensures countInStock == body.countInStock.GetOr(old(countInStock))
      ensures isFeatured == body.isFeatured.GetOr(old(isFeatured))
      ensures attributes == if body.attributes.Some? then body.attributes.value else old(attributes)
      ensures discountPrice == if body.discountPrice.Some? then body.discountPrice else old(discountPrice)
      ensures discountPercentage == if body.discountPercentage.Some? then body.discountPercentage else old(discountPercentage)
    {
      countInStock := if body.countInStock.Some? then body.countInStock.value else countInStock;
      isFeatured := if body.isFeatured.Some? then body.isFeatured.value else isFeatured;
      attributes := if body.attributes.Some? then body.attributes.value else attributes;
      discountPrice := if body.discountPrice.Some? then body.discountPrice else discountPrice;
      discountPercentage := if body.discountPercentage.Some? then body.discountPercentage else discountPercentage;
    }
  }

  /** `updateProduct`: an unknown product is 404; a truthy category must exist (400);
      otherwise the document is merged and saved in place, every other product unchanged. */
  method UpdateProduct(db: Db, id: string, body: ProductInput) returns (r: Result<Db, Failure>)
    ensures !IsValidObjectId(id) ==> r.Err? && r.error.Uncaught?
    ensures IsValidObjectId(id) && ProductIndex(db.products, id) == -1 ==> r == Err(HttpError(404, "Product not found"))
    ensures IsValidObjectId(id) && ProductIndex(db.products, id) >= 0 && TruthyText(body.category)
            && IsValidObjectId(body.category.value) && CategoryIndex(db.categories, body.category.value) == -1
            ==> r == Err(HttpError(400, "Invalid category"))
    ensures r.Ok? <==> IsValidObjectId(id) && ProductIndex(db.products, id) >= 0
                       && (TruthyText(body.category) ==> IsValidObjectId(body.category.value) && CategoryIndex(db.categories, body.category.value) >= 0)
    ensures r.Ok? ==> var i := ProductIndex(db.products, id);
                      r.value == db.(products := db.products[i := MergeProduct(db.products[i], body)])
  {
    var found := FindProduct(db.products, id);
    if found.Err? {
      return Err(found.error);
    }
    var i := found.value;
    if i == -1 {
      return Err(HttpError(404, "Product not found"));
    }
    var product := new ProductDocument(db.products[i]);
    if TruthyText(body.category) {
      var parentCheck := FindCategory(db.categories, body.category.value);
      if parentCheck.Err? {
        return Err(parentCheck.error);
      }
      if parentCheck.value == -1 {
        return Err(HttpError(400, "Invalid category"));
      }
    }
    product.ApplyUpdate(body);
    r := Ok(db.(products := db.products[i := product.Snapshot()]));
  }

  predicate InSomeOrder(orders: seq<OrderDoc>, id: string) {
    exists i :: 0 <= i < |orders| && id in orders[i].products
  }

  predicate InSomeCartOrWishlist(users: seq<UserDoc>, id: string) {
    exists i :: 0 <= i < |users| && (id in users[i].cartProducts || id in users[i].wishlistProducts)
  }

  /** `deleteProduct`, its checks in order: not found (404), referenced by an order (400),
      in a cart or wishlist (400); only when all pass is the product removed. */
  function DeleteProduct(db: Db, id: string): (r: Result<Db, Failure>)
    ensures !IsValidObjectId(id) ==> r.Err? && r.error.Uncaught?
    ensures IsValidObjectId(id) && ProductIndex(db.products, id) == -1 ==> r == Err(HttpError(404, "Product not found"))
    ensures IsValidObjectId(id) && ProductIndex(db.products, id) >= 0 && InSomeOrder(db.orders, id)
            ==> r == Err(HttpError(400, "Cannot delete: Product is in existing orders."))
    ensures IsValidObjectId(id) && ProductIndex(db.products, id) >= 0 && !InSomeOrder(db.orders, id) && InSomeCartOrWishlist(db.users, id)
            ==> r == Err(HttpError(400, "Cannot delete: Product is in user carts/wishlists."))
    ensures r.Ok? <==> IsValidObjectId(id) && ProductIndex(db.products, id) >= 0
                       && !InSomeOrder(db.orders, id) && !InSomeCartOrWishlist(db.users, id)
    ensures r.Ok? ==> r.value == db.(products := RemoveAt(db.products, ProductIndex(db.products, id)))
  {
    var i :- FindProduct(db.products, id);
    if i == -1 then Err(HttpError(404, "Product not found"))
    else if InSomeOrder(db.orders, id) then Err(HttpError(400, "Cannot delete: Product is in existing orders."))
    else if InSomeCartOrWishlist(db.users, id) then Err(HttpError(400, "Cannot delete: Product is in user carts/wishlists."))
    else Ok(db.(products := RemoveAt(db.products, i)))
  }

  /** With unique ids, a successful delete leaves no product with that id and drops nothing else. */
  lemma DeleteRemovesOnlyThat(db: Db, id: string)
    requires forall i, j :: 0 <= i < j < |db.products| ==> db.products[i].id != db.products[j].id
    ensures var r := DeleteProduct(db, id);
            r.Ok? ==> |r.value.products| == |db.products| - 1
                      && (forall k :: 0 <= k < |r.value.products| ==> r.value.products[k].id != id)
                      && (forall k :: 0 <= k < |db.products| && db.products[k].id != id ==> db.products[k] in r.value.products)
  {
    var r := DeleteProduct(db, id);
    if r.Ok? {
      var i := ProductIndex(db.products, id);
      forall k | 0 <= k < |db.products| && db.products[k].id != id
        ensures db.products[k] in r.value.products
      {
        if k < i {
          assert r.value.products[k] == db.products[k];
        } else {
          assert r.value.products[k - 1] == db.products[k];
        }
      }
    }
  }

  function ForProduct(productId: string): ReviewDoc -> bool {
    (rv: ReviewDoc) => rv.product == productId
  }

  /** The ratings of some reviews, in order. */
  function Ratings(reviews: seq<ReviewDoc>): (r: seq<real>)
    ensures |r| == |reviews| && forall i :: 0 <= i < |r| ==> r[i] == reviews[i].rating
  {
    seq(|reviews|, i requires 0 <= i < |reviews| => reviews[i].rating)
  }

  predicate AlreadyReviewed(reviews: seq<ReviewDoc>, user: string, productId: string) {
    exists i :: 0 <= i < |reviews| && reviews[i].user == user && reviews[i].product == productId
  }

  /** `createProductReview`: unknown product 404, a second review by the same user 400;
      otherwise the review is stored and the product's review count and rating are
      recomputed from all of its reviews. */
  function CreateProductReview(db: Db, productId: string, user: string, rating: real, title: string, comment: string, newId: string)
    : (r: Result<Db, Failure>)
    ensures !IsValidObjectId(productId) ==> r.Err? && r.error.Uncaught?
    ensures IsValidObjectId(productId) && ProductIndex(db.products, productId) == -1 ==> r == Err(HttpError(404, "Product not found"))
    ensures IsValidObjectId(productId) && ProductIndex(db.products, productId) >= 0 && AlreadyReviewed(db.reviews, user, productId)
            ==> r == Err(HttpError(400, "Product already reviewed"))
    ensures r.Ok? <==> IsValidObjectId(productId) && ProductIndex(db.products, productId) >= 0 && !AlreadyReviewed(db.reviews, user, productId)
    ensures r.Ok? ==> r.value.reviews == db.reviews + [ReviewDoc(newId, user, productId, rating, title, comment)]
                      && r.value.categories == db.categories && r.value.orders == db.orders && r.value.users == db.users
    ensures r.Ok? ==> var i := ProductIndex(db.products, productId);
                      var mine := Filter(r.value.reviews, ForProduct(productId));
                      |mine| > 0
                      && r.value.products == db.products[i := db.products[i].(numReviews := |mine|, rating := Mean(Ratings(mine)))]
  {
    var i :- FindProduct(db.products, productId);
    if i == -1 then Err(HttpError(404, "Product not found"))
    else if AlreadyReviewed(db.reviews, user, productId) then Err(HttpError(400, "Product already reviewed"))
    else
      var review := ReviewDoc(newId, user, productId, rating, title, comment);
      var reviews := db.reviews + [review];
      var mine := Filter(reviews, ForProduct(productId));
      assert ForProduct(productId)(reviews[|reviews| - 1]);
      var p := db.products[i].(numReviews := |mine|, rating := Mean(Ratings(mine)));
      Ok(db.(reviews := reviews, products := db.products[i := p]))
  }

  /** A successful review raises the product's review count by one and, with every rating
      in 1..5, keeps its rating in 1..5. */
  lemma ReviewCountAndRating(db: Db, productId: string, user: string, rating: real, title: string, comment: string, newId: string)
    requires forall k :: 0 <= k < |db.reviews| ==> 1.0 <= db.reviews[k].rating <= 5.0
    requires 1.0 <= rating <= 5.0
    ensures var r := CreateProductReview(db, productId, user, rating, title, comment, newId);
            r.Ok? ==> var p := r.value.products[ProductIndex(db.products, productId)];
                      p.numReviews == |Filter(db.reviews, ForProduct(productId))| + 1 && 1.0 <= p.rating <= 5.0
  {
    var r := CreateProductReview(db, productId, user, rating, title, comment, newId);
    if r.Ok? {
      var review := ReviewDoc(newId, user, productId, rating, title, comment);
      var reviews := db.reviews + [review];
      assert r.value.reviews == reviews;
      FilterAppend(db.reviews, [review], ForProduct(productId));
      assert Filter([review], ForProduct(productId)) == [review] + Filter([], ForProduct(productId));
      FilteredRatingsInRange(reviews, ForProduct(productId));
      MeanBounds(Ratings(Filter(reviews, ForProduct(productId))), 1.0, 5.0);
    }
  }

  /** Filtering reviews whose ratings lie in 1..5 leaves ratings in 1..5. */
  lemma {:induction false} FilteredRatingsInRange(reviews: seq<ReviewDoc>, p: ReviewDoc -> bool)
    requires forall k :: 0 <= k < |reviews| ==> 1.0 <= reviews[k].rating <= 5.0
    ensures var rs := Ratings(Filter(reviews, p));
            forall k :: 0 <= k < |rs| ==> 1.0 <= rs[k] <= 5.0
  {
    if reviews != [] {
      FilteredRatingsInRange(reviews[1..], p);
      var rest := Filter(reviews[1..], p);
      if p(reviews[0]) {
        var f := [reviews[0]] + rest;
        assert Filter(reviews, p) == f;
        assert forall k :: 0 < k < |f| ==> f[k] == rest[k - 1];
      }
    }
  }

  /** One review per user and product: a store that has it keeps it. */
  lemma ReviewKeepsOnePerUser(db: Db, productId: string, user: string, rating: real, title: string, comment: string, newId: string)
    requires forall a, b :: 0 <= a < b < |db.reviews| ==>
               !(db.reviews[a].user == db.reviews[b].user && db.reviews[a].product == db.reviews[b].product)
    ensures var r := CreateProductReview(db, productId, user, rating, title, comment, newId);
            r.Ok? ==> forall a, b :: 0 <= a < b < |r.value.reviews| ==>
                        !(r.value.reviews[a].user == r.value.reviews[b].user && r.value.reviews[a].product == r.value.reviews[b].product)
  {
  }
}
