/** `client/src/pages/ProductDetailPage.tsx`: the review form with its optimistic update,
    refetch and rollback; the quantity options; and adding the product to the cart. */
module ProductDetail {
  import opened Wrappers
  import opened Types
  import opened Seqs
  import opened GuestCart

  /** The ratings of a list of reviews, in order. */
  function Ratings(reviews: seq<Review>): (r: seq<real>)
    ensures |r| == |reviews|
    ensures forall i :: 0 <= i < |r| ==> r[i] == reviews[i].rating
  {
    seq(|reviews|, i requires 0 <= i < |reviews| => reviews[i].rating)
  }

  /** `reviews.reduce((sum, r) => sum + r.rating, 0) / reviews.length`. */
  function AverageRating(reviews: seq<Review>): (r: real)
    requires |reviews| > 0
    ensures r * |reviews| as real == SumReals(Ratings(reviews))
  {
    Mean(Ratings(reviews))
  }

  /** The product with its rating and review count taken from a review list. */
  function Rerated(p: Product, reviews: seq<Review>): (r: Product)
    requires |reviews| > 0
    ensures r.numReviews == |reviews| && r.rating == AverageRating(reviews)
    ensures r.(rating := p.rating, numReviews := p.numReviews) == p
  {
    p.(rating := AverageRating(reviews), numReviews := |reviews|)
  }

  /** The placeholder review shown until the list is fetched again. */
  function Placeholder(rating: real, title: string, comment: string): Review {
    Review("temp-id", title, comment, rating, false, "You")
  }

  /** The parts of the page's state a review submission touches. */
  datatype ReviewState = ReviewState(
    product: Option<Product>,
    reviews: seq<Review>,
    rating: real,
    title: string,
    comment: string,
    showReviewForm: bool)

  /** The state right after the review is accepted: the placeholder is appended, the
      product re-rated over the longer list, and the form reset. */
  function Optimistic(s: ReviewState): (r: ReviewState)
    ensures r.reviews == s.reviews + [Placeholder(s.rating, s.title, s.comment)]
    ensures s.product.None? ==> r.product.None?
    ensures s.product.Some? ==> r.product == Some(Rerated(s.product.value, r.reviews))
    ensures r.rating == 5.0 && r.title == "" && r.comment == "" && !r.showReviewForm
  {
    var updated := s.reviews + [Placeholder(s.rating, s.title, s.comment)];
    ReviewState(
      if s.product.Some? then Some(Rerated(s.product.value, updated)) else None,
      updated, 5.0, "", "", false)
  }

  /** The outcome of `handleReviewSubmit`. `created` says whether the review was accepted;
      `serverReviews` is the refetched list, or None when that call fails. Unauthenticated
      or without a product id nothing changes; a failure at either call puts the reviews
      and the product back as they were before the submission. */
  function SubmitOutcome(s: ReviewState, isAuthenticated: bool, id: Option<string>, created: bool,
                         serverReviews: Option<seq<Review>>): (r: ReviewState)
    ensures r.reviews == s.reviews || (serverReviews.Some? && r.reviews == serverReviews.value)
    ensures isAuthenticated && TruthyText(id) && created ==>
              r.rating == 5.0 && r.title == "" && r.comment == "" && !r.showReviewForm
  {
    if !isAuthenticated || !TruthyText(id) then s
    else if !created then s
    else
      var opt := Optimistic(s);
      if serverReviews.None? then opt.(reviews := s.reviews, product := s.product)
      else
        var server := serverReviews.value;
        opt.(reviews := server,
             product := if |server| > 0 && s.product.Some? then Some(Rerated(s.product.value, server)) else opt.product)
  }

  /** Submitting while signed out, or failing to create the review, changes nothing. */
  lemma RejectedSubmitChangesNothing(s: ReviewState, isAuthenticated: bool, id: Option<string>, created: bool,
                                     serverReviews: Option<seq<Review>>)
    requires !isAuthenticated || !created
    ensures SubmitOutcome(s, isAuthenticated, id, created, serverReviews) == s
  {
  }

  /** After the refetch the page shows the server's list, and the product's rating and
      count are those of that list; the form is reset. */
  lemma RefetchRerates(s: ReviewState, id: string, server: seq<Review>)
    requires id != "" && |server| > 0 && s.product.Some?
    ensures var r := SubmitOutcome(s, true, Some(id), true, Some(server));
            r.reviews == server && r.product.Some?
            && r.product.value.numReviews == |server| && r.product.value.rating == AverageRating(server)
            && r.rating == 5.0 && r.title == "" && r.comment == ""
  {
  }

  /** A failed refetch rolls the list and the product back, though the review was created
      and the form has already been reset. */
  lemma RefetchFailureRollsBack(s: ReviewState, id: string)
    requires id != ""
    ensures var r := SubmitOutcome(s, true, Some(id), true, None);
            r.reviews == s.reviews && r.product == s.product && r.title == "" && r.rating == 5.0
  {
  }

  /** The optimistic rating is the mean over the old reviews and the submitted rating:
      times the new count it is the old sum plus the submitted rating. */
  lemma OptimisticRatingIsMean(s: ReviewState)
    requires s.product.Some?
    ensures var p := Optimistic(s).product.value;
            p.numReviews == |s.reviews| + 1
            && p.rating * (|s.reviews| + 1) as real == SumReals(Ratings(s.reviews)) + s.rating
  {
    var updated := s.reviews + [Placeholder(s.rating, s.title, s.comment)];
    assert Ratings(updated) == Ratings(s.reviews) + [s.rating];
    SumRealsAppend(Ratings(s.reviews), [s.rating]);
  }

  /** A refetch that returns no reviews leaves the optimistic product in place, since
      the re-rating needs a non-empty list. */
  lemma EmptyRefetchKeepsOptimistic(s: ReviewState, id: string)
    requires id != ""
    ensures SubmitOutcome(s, true, Some(id), true, Some([])).product == Optimistic(s).product
    ensures SubmitOutcome(s, true, Some(id), true, Some([])).reviews == []
  {
  }

  /** With ratings 1..5 on the list and the form, the optimistic rating stays in 1..5. */
  lemma OptimisticRatingInRange(s: ReviewState)
    requires s.product.Some? && 1.0 <= s.rating <= 5.0
    requires forall i :: 0 <= i < |s.reviews| ==> 1.0 <= s.reviews[i].rating <= 5.0
    ensures 1.0 <= Optimistic(s).product.value.rating <= 5.0
  {
    var updated := s.reviews + [Placeholder(s.rating, s.title, s.comment)];
    MeanBounds(Ratings(updated), 1.0, 5.0);
  }

  /** `[...Array(Math.min(10, countInStock))]` as options 1.., shown only when the
      product is in stock. */
  function QuantityOptions(countInStock: int): (r: Option<seq<int>>)
    ensures r.Some? <==> countInStock > 0
    ensures r.Some? ==> |r.value| == (if countInStock < 10 then countInStock else 10)
    ensures r.Some? ==> forall i :: 0 <= i < |r.value| ==> r.value[i] == i + 1
  {
    if countInStock > 0 then Some(Range(1, if countInStock < 10 then countInStock else 10)) else None
  }

  /** An in-stock product offers exactly the quantities 1..min(10, countInStock). */
  lemma QuantityOffered(countInStock: int, quantity: int)
    requires countInStock > 0
    ensures quantity in QuantityOptions(countInStock).value <==> 1 <= quantity <= 10 && quantity <= countInStock
  {
    var opts := QuantityOptions(countInStock).value;
    if 1 <= quantity <= 10 && quantity <= countInStock {
      assert opts[quantity - 1] == quantity;
    }
  }

  /** The product data `ProductCard` hands to `addToCart`. */
  function CardData(p: Product): (r: ProductData)
    ensures r.price == Some(p.price) && r.name == Some(p.name)
    ensures ImageOf(Some(r)) == (if |p.images| > 0 then Some(p.images[0]) else None)
  {
    ProductData(Some(p.price), Some(p.name), None, if |p.images| > 0 then Some(p.images[0]) else None)
  }

  /** As written, the detail page adds a new product to a guest cart with no product data,
      so the cart line costs 0 and is named "Unknown Product". */
  lemma DetailAddLosesPriceAndName(items: seq<GuestItem>, p: Product, quantity: int)
    requires FirstIndexOf(items, p.id) == -1
    ensures var r := AddGuest(items, p.id, quantity, None);
            |r| == |items| + 1 && r[|items|].price == 0.0 && r[|items|].name == "Unknown Product"
            && r[|items|].image.None?
  {
  }

  /** With the card's product data the new line carries the product's price, name and
      first image (passed as `image`, so through the fallback of `images?.[0] || image`). */
  lemma CardDataKeepsPriceAndName(items: seq<GuestItem>, p: Product, quantity: int)
    requires FirstIndexOf(items, p.id) == -1
    ensures var r := AddGuest(items, p.id, quantity, Some(CardData(p)));
            |r| == |items| + 1 && r[|items|].price == p.price
            && (p.name != "" ==> r[|items|].name == p.name)
            && r[|items|].image == (if |p.images| > 0 then Some(p.images[0]) else None)
  {
  }

  /** The page's state. */
  class DetailPage {
    var product: Option<Product>
    var reviews: seq<Review>
    var quantity: int
    var selectedImage: string
    var rating: real
    var title: string
    var comment: string
    var showReviewForm: bool

    /** The page after loading a product and its reviews: the first image is selected. */
    constructor(loaded: Product, loadedReviews: seq<Review>)
      ensures product == Some(loaded) && reviews == loadedReviews && quantity == 1
      ensures selectedImage == (if |loaded.images| > 0 then loaded.images[0] else "")
      ensures rating == 5.0 && title == "" && comment == "" && !showReviewForm
    {
      product := Some(loaded);
      reviews := loadedReviews;
      quantity := 1;
      selectedImage := if |loaded.images| > 0 then loaded.images[0] else "";
      rating := 5.0;
      title := "";
      comment := "";
      showReviewForm := false;
    }

    function State(): ReviewState
      reads this
    {
      ReviewState(product, reviews, rating, title, comment, showReviewForm)
    }

    /** Step 3 to 5 of `handleReviewSubmit`. */
    method ApplyOptimistic()
      modifies this`product, this`reviews, this`rating, this`title, this`comment, this`showReviewForm
      ensures State() == Optimistic(old(State()))
    {
      var updated := reviews + [Placeholder(rating, title, comment)];
      reviews := updated;
      if product.Some? {
        product := Some(product.value.(rating := AverageRating(updated), numReviews := |updated|));
      }
      rating := 5.0;
      title := "";
      comment := "";
      showReviewForm := false;
    }

    /** `handleReviewSubmit`, step by step. */
    method SubmitReview(isAuthenticated: bool, id: Option<string>, created: bool, serverReviews: Option<seq<Review>>)
      modifies this`product, this`reviews, this`rating, this`title, this`comment, this`showReviewForm
      ensures State() == SubmitOutcome(old(State()), isAuthenticated, id, created, serverReviews)
    {
      if !isAuthenticated {
        return;
      }
      if id.None? || id.value == "" {
        return;
      }
      var savedReviews, savedProduct := reviews, product;
      if !created {
        reviews, product := savedReviews, savedProduct;
        return;
      }
      ApplyOptimistic();
      if serverReviews.None? {
        reviews, product := savedReviews, savedProduct;
        return;
      }
      var server := serverReviews.value;
      reviews := server;
      if |server| > 0 && savedProduct.Some? {
        product := Some(savedProduct.value.(rating := AverageRating(server), numReviews := |server|));
      }
    }

    /** `handleAddToCart` as written: the id and quantity, no product data. */
    method HandleAddToCart(store: CartProvider, reply: Option<ServerCart>)
      modifies store
      ensures product.None? ==> store.guestCart == old(store.guestCart) && store.cart == old(store.cart)
      ensures product.Some? && !store.isAuthenticated ==>
                store.guestCart == AddGuest(old(store.guestCart), product.value.id, quantity, None)
    {
      if product.Some? {
        store.AddToCart(product.value.id, quantity, None, reply);
      }
    }

    /** `handleAddToCart` passing the card's product data, as `ProductCard` does. */
    method HandleAddToCartIntended(store: CartProvider, reply: Option<ServerCart>)
      modifies store
      ensures product.None? ==> store.guestCart == old(store.guestCart) && store.cart == old(store.cart)
      ensures product.Some? && !store.isAuthenticated ==>
                store.guestCart == AddGuest(old(store.guestCart), product.value.id, quantity, Some(CardData(product.value)))
    {
      if product.Some? {
        store.AddToCart(product.value.id, quantity, Some(CardData(product.value)), reply);
      }
    }
  }
}
