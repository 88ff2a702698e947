/** The cart store of `client/src/context/CartContext.tsx`. A guest keeps a list of
    items in the browser, at most one per product; a signed-in user's cart lives on the
    server and is replaced by whatever the cart API returns. */
module GuestCart {
  import opened Wrappers
  import opened Types
  import opened Seqs

  /** One guest cart entry; `productId` is its identity, attributes play no part in it. */
  datatype GuestItem = GuestItem(
    productId: string,
    quantity: int,
    attributes: Option<Attributes>,
    price: real,
    name: string,
    image: Option<string>)

  /** The optional product data a caller may pass to `addToCart`. */
  datatype ProductData = ProductData(
    price: Option<real>,
    name: Option<string>,
    images: Option<seq<string>>,
    image: Option<string>)

  /** One entry of the payload sent to the merge endpoint at login. */
  datatype MergeItem = MergeItem(productId: string, quantity: int, attributes: Attributes)

  /** At most one entry per product id. */
  predicate UniqueIds(items: seq<GuestItem>) {
    forall i, j :: 0 <= i < j < |items| ==> items[i].productId != items[j].productId
  }

  /** `findIndex(item => item.productId === productId)`: the first match, or -1. */
  function FirstIndexOf(items: seq<GuestItem>, productId: string): (r: int)
    ensures -1 <= r < |items|
    ensures r >= 0 ==> items[r].productId == productId
    ensures r >= 0 ==> forall j :: 0 <= j < r ==> items[j].productId != productId
    ensures r == -1 <==> forall j :: 0 <= j < |items| ==> items[j].productId != productId
  {
    if items == [] then -1
    else if items[0].productId == productId then 0
    else
      var k := FirstIndexOf(items[1..], productId);
      if k == -1 then -1 else k + 1
  }

  /** `productData?.images?.[0] || productData?.image`. */
  function ImageOf(data: Option<ProductData>): (r: Option<string>)
    ensures data.None? ==> r.None?
    ensures data.Some? && data.value.images.Some? && |data.value.images.value| > 0 && data.value.images.value[0] != ""
            ==> r == Some(data.value.images.value[0])
    ensures data.Some? && !(data.value.images.Some? && |data.value.images.value| > 0 && data.value.images.value[0] != "")
            ==> r == data.value.image
  {
    match data
    case None => None
    case Some(d) =>
      var first := if d.images.Some? && |d.images.value| > 0 then Some(d.images.value[0]) else None;
      if TruthyText(first) then first else d.image
  }

  /** The entry created for a product not yet in the guest cart. */
  function NewItem(productId: string, quantity: int, data: Option<ProductData>): (r: GuestItem)
    ensures r.productId == productId && r.quantity == quantity && r.attributes == Some(map[])
    ensures data.None? ==> r.price == 0.0 && r.name == "Unknown Product" && r.image.None?
  {
    var price := if data.Some? then data.value.price else None;
    var name := if data.Some? then data.value.name else None;
    GuestItem(productId, quantity, Some(map[]), NumberOr(price, 0.0), TextOr(name, "Unknown Product"), ImageOf(data))
  }

  /** The guest branch of `addToCart`: raise the quantity of the entry with this id, or
      append a new entry at the end. */
  function AddGuest(items: seq<GuestItem>, productId: string, quantity: int, data: Option<ProductData>): (r: seq<GuestItem>)
    ensures FirstIndexOf(r, productId) >= 0
    ensures |r| == |items| + (if FirstIndexOf(items, productId) == -1 then 1 else 0)
    ensures forall j :: 0 <= j < |items| && items[j].productId != productId ==> r[j] == items[j]
  {
    var i := FirstIndexOf(items, productId);
    if i > -1 then
      var r := items[i := items[i].(quantity := items[i].quantity + quantity)];
      assert r[i].productId == productId;
      r
    else
      var r := items + [NewItem(productId, quantity, data)];
      assert r[|items|].productId == productId;
      r
  }

  /** The guest branch of `updateItem`: every entry with this id gets the new quantity. */
  function SetQuantity(items: seq<GuestItem>, productId: string, quantity: int): (r: seq<GuestItem>)
    ensures |r| == |items|
    ensures forall i :: 0 <= i < |r| ==> r[i].productId == items[i].productId
    ensures forall i :: 0 <= i < |r| && r[i].productId == productId ==> r[i].quantity == quantity
  {
    seq(|items|, i requires 0 <= i < |items| =>
      if items[i].productId == productId then items[i].(quantity := quantity) else items[i])
  }

  function IsNot(productId: string): GuestItem -> bool {
    (item: GuestItem) => item.productId != productId
  }

  function Is(productId: string): GuestItem -> bool {
    (item: GuestItem) => item.productId == productId
  }

  /** The guest branch of `removeItem`: keep the entries with another id. */
  function Without(items: seq<GuestItem>, productId: string): (r: seq<GuestItem>)
    ensures |r| <= |items|
    ensures forall i :: 0 <= i < |items| && items[i].productId != productId ==> items[i] in r
  {
    Filter(items, IsNot(productId))
  }

  /** `reduce((total, item) => total + item.quantity, 0)`. */
  function Count(items: seq<GuestItem>): (r: int)
    ensures (forall i :: 0 <= i < |items| ==> items[i].quantity >= 0) ==>
              forall i :: 0 <= i < |items| ==> 0 <= items[i].quantity <= r
  {
    if items == [] then 0 else items[0].quantity + Count(items[1..])
  }

  /** `reduce((total, item) => total + item.price * item.quantity, 0)`. */
  function Total(items: seq<GuestItem>): real {
    if items == [] then 0.0 else items[0].price * items[0].quantity as real + Total(items[1..])
  }

  /** With non-negative prices and quantities the cart total is never negative. */
  lemma {:induction false} TotalNonNegative(items: seq<GuestItem>)
    requires forall i :: 0 <= i < |items| ==> items[i].price >= 0.0 && items[i].quantity >= 0
    ensures Total(items) >= 0.0
  {
    if items != [] {
      TotalNonNegative(items[1..]);
      NonNegativeProduct(items[0].price, items[0].quantity as real);
    }
  }

  lemma NonNegativeProduct(a: real, b: real)
    requires a >= 0.0 && b >= 0.0
    ensures a * b >= 0.0
  {
  }

  /** The merge request body: productId, quantity and `attributes || {}` of each entry. */
  function MergePayload(items: seq<GuestItem>): (r: seq<MergeItem>)
    ensures |r| == |items|
    ensures forall i :: 0 <= i < |items| ==>
              r[i].productId == items[i].productId && r[i].quantity == items[i].quantity
              && r[i].attributes == (if items[i].attributes.Some? then items[i].attributes.value else map[])
  {
    seq(|items|, i requires 0 <= i < |items| =>
      MergeItem(items[i].productId, items[i].quantity, items[i].attributes.GetOr(map[])))
  }

  // Adding

  /** Adding a product already in the cart raises that entry's quantity and changes nothing else. */
  lemma AddExisting(items: seq<GuestItem>, productId: string, quantity: int, data: Option<ProductData>, i: int)
    requires 0 <= i < |items| && items[i].productId == productId
    requires UniqueIds(items)
    ensures var r := AddGuest(items, productId, quantity, data);
            |r| == |items|
            && r[i] == items[i].(quantity := items[i].quantity + quantity)
            && forall j :: 0 <= j < |items| && j != i ==> r[j] == items[j]
  {
    var k := FirstIndexOf(items, productId);
    assert k == i;
  }

  /** Adding a product not in the cart appends one entry with the defaults of `addToCart`. */
  lemma AddNew(items: seq<GuestItem>, productId: string, quantity: int, data: Option<ProductData>)
    requires forall j :: 0 <= j < |items| ==> items[j].productId != productId
    ensures var r := AddGuest(items, productId, quantity, data);
            r[..|items|] == items && |r| == |items| + 1
            && r[|items|].productId == productId && r[|items|].quantity == quantity
            && r[|items|].attributes == Some(map[])
            && r[|items|].price == (if data.Some? && TruthyNumber(data.value.price) then data.value.price.value else 0.0)
            && r[|items|].name == (if data.Some? && TruthyText(data.value.name) then data.value.name.value else "Unknown Product")
            && r[|items|].image == ImageOf(data)
  {
    var r := AddGuest(items, productId, quantity, data);
    assert r == items + [NewItem(productId, quantity, data)];
  }

  /** Adding never creates a second entry for a product. */
  lemma AddKeepsUnique(items: seq<GuestItem>, productId: string, quantity: int, data: Option<ProductData>)
    requires UniqueIds(items)
    ensures UniqueIds(AddGuest(items, productId, quantity, data))
  {
    var r := AddGuest(items, productId, quantity, data);
    if FirstIndexOf(items, productId) == -1 {
      assert forall j :: 0 <= j < |items| ==> r[j] == items[j];
    } else {
      assert forall j :: 0 <= j < |items| ==> r[j].productId == items[j].productId;
    }
  }

  // Sums

  lemma {:induction false} CountAppend(a: seq<GuestItem>, b: seq<GuestItem>)
    ensures Count(a + b) == Count(a) + Count(b)
  {
    if a == [] {
      assert a + b == b;
    } else {
      assert (a + b)[1..] == a[1..] + b;
      CountAppend(a[1..], b);
    }
  }

  lemma {:induction false} TotalAppend(a: seq<GuestItem>, b: seq<GuestItem>)
    ensures Total(a + b) == Total(a) + Total(b)
  {
    if a == [] {
      assert a + b == b;
    } else {
      assert (a + b)[1..] == a[1..] + b;
      TotalAppend(a[1..], b);
    }
  }

  lemma {:induction false} CountUpdate(items: seq<GuestItem>, i: int, x: GuestItem)
    requires 0 <= i < |items|
    ensures Count(items[i := x]) == Count(items) - items[i].quantity + x.quantity
  {
    if i > 0 {
      assert items[i := x][1..] == items[1..][i - 1 := x];
      CountUpdate(items[1..], i - 1, x);
    } else {
      assert items[i := x][1..] == items[1..];
    }
  }

  lemma {:induction false} TotalUpdate(items: seq<GuestItem>, i: int, x: GuestItem)
    requires 0 <= i < |items|
    ensures Total(items[i := x]) == Total(items) - items[i].price * items[i].quantity as real + x.price * x.quantity as real
  {
    if i > 0 {
      assert items[i := x][1..] == items[1..][i - 1 := x];
      TotalUpdate(items[1..], i - 1, x);
    } else {
      assert items[i := x][1..] == items[1..];
    }
  }

  /** Adding `quantity` of a product raises the item count by exactly `quantity`. */
  lemma {:induction false} AddCount(items: seq<GuestItem>, productId: string, quantity: int, data: Option<ProductData>)
    ensures Count(AddGuest(items, productId, quantity, data)) == Count(items) + quantity
  {
    var i := FirstIndexOf(items, productId);
    if i > -1 {
      var x := items[i].(quantity := items[i].quantity + quantity);
      assert AddGuest(items, productId, quantity, data) == items[i := x];
      CountUpdate(items, i, x);
    } else {
      var x := NewItem(productId, quantity, data);
      assert AddGuest(items, productId, quantity, data) == items + [x];
      CountAppend(items, [x]);
      assert Count([x]) == quantity + Count([]);
    }
  }

  /** Adding raises the total by `quantity` times the price already recorded for the
      product, or times the new entry's price when the product is new: a re-add never
      reprices the entry. */
  lemma {:induction false} AddTotal(items: seq<GuestItem>, productId: string, quantity: int, data: Option<ProductData>)
    ensures FirstIndexOf(items, productId) > -1 ==>
              Total(AddGuest(items, productId, quantity, data))
              == Total(items) + items[FirstIndexOf(items, productId)].price * quantity as real
    ensures FirstIndexOf(items, productId) == -1 ==>
              Total(AddGuest(items, productId, quantity, data))
              == Total(items) + NewItem(productId, quantity, data).price * quantity as real
  {
    var i := FirstIndexOf(items, productId);
    if i > -1 {
      AddTotalExisting(items, productId, quantity, data, i);
    } else {
      AddTotalNew(items, productId, quantity, data);
    }
  }

  lemma {:induction false} AddTotalExisting(items: seq<GuestItem>, productId: string, quantity: int, data: Option<ProductData>, i: int)
    requires i == FirstIndexOf(items, productId) && i > -1
    ensures Total(AddGuest(items, productId, quantity, data)) == Total(items) + items[i].price * quantity as real
  {
    assert AddGuest(items, productId, quantity, data) == items[i := items[i].(quantity := items[i].quantity + quantity)];
    RaiseTotal(items, i, quantity);
  }

  lemma {:induction false} AddTotalNew(items: seq<GuestItem>, productId: string, quantity: int, data: Option<ProductData>)
    requires FirstIndexOf(items, productId) == -1
    ensures var x := NewItem(productId, quantity, data);
            Total(AddGuest(items, productId, quantity, data)) == Total(items) + x.price * quantity as real
  {
    var x := NewItem(productId, quantity, data);
    assert AddGuest(items, productId, quantity, data) == items + [x];
    AppendTotal(items, x);
  }

  lemma {:induction false} AppendTotal(items: seq<GuestItem>, x: GuestItem)
    ensures Total(items + [x]) == Total(items) + x.price * x.quantity as real
  {
    TotalAppend(items, [x]);
    assert Total([x]) == x.price * x.quantity as real + Total([]);
  }

  lemma {:induction false} RaiseTotal(items: seq<GuestItem>, i: int, quantity: int)
    requires 0 <= i < |items|
    ensures Total(items[i := items[i].(quantity := items[i].quantity + quantity)])
            == Total(items) + items[i].price * quantity as real
  {
    var x := items[i].(quantity := items[i].quantity + quantity);
    TotalUpdate(items, i, x);
    var p, a, b := items[i].price, items[i].quantity as real, quantity as real;
    assert x.price == p && x.quantity as real == a + b;
    Distribute(p, a, b);
  }

  lemma Distribute(p: real, a: real, b: real)
    ensures p * (a + b) == p * a + p * b
  {
  }

  // Updating

  /** Update sets the quantity of the matching entries and changes nothing else, order included. */
  lemma SetQuantitySpec(items: seq<GuestItem>, productId: string, quantity: int)
    ensures var r := SetQuantity(items, productId, quantity);
            |r| == |items|
            && (forall i :: 0 <= i < |items| && items[i].productId == productId ==> r[i] == items[i].(quantity := quantity))
            && (forall i :: 0 <= i < |items| && items[i].productId != productId ==> r[i] == items[i])
            && UniqueIds(r) == UniqueIds(items)
  {
    var r := SetQuantity(items, productId, quantity);
    assert forall i :: 0 <= i < |items| ==> r[i].productId == items[i].productId;
  }

  // Removing

  /** Remove leaves no entry with the id, keeps the others in order, and is a no-op for an absent id. */
  lemma RemoveSpec(items: seq<GuestItem>, productId: string)
    ensures var r := Without(items, productId);
            (forall i :: 0 <= i < |r| ==> r[i].productId != productId)
            && (forall i :: 0 <= i < |items| && items[i].productId != productId ==> items[i] in r)
            && IsSubsequence(r, items)
    ensures FirstIndexOf(items, productId) == -1 ==> Without(items, productId) == items
  {
    var r := Without(items, productId);
    forall i | 0 <= i < |r|
      ensures r[i].productId != productId
    {
      assert IsNot(productId)(r[i]);
    }
    FilterIsSubsequence(items, IsNot(productId));
    if FirstIndexOf(items, productId) == -1 {
      FilterKeepsAll(items, IsNot(productId));
    }
  }

  /** Removing keeps ids unique. */
  lemma {:induction false} RemoveKeepsUnique(items: seq<GuestItem>, productId: string)
    requires UniqueIds(items)
    ensures UniqueIds(Without(items, productId))
  {
    if items != [] {
      var rest := Without(items[1..], productId);
      RemoveKeepsUnique(items[1..], productId);
      if IsNot(productId)(items[0]) {
        assert Without(items, productId) == [items[0]] + rest;
        HeadIdNotInTail(items);
      } else {
        assert Without(items, productId) == rest;
      }
    }
  }

  lemma HeadIdNotInTail(items: seq<GuestItem>)
    requires items != [] && UniqueIds(items)
    ensures forall x :: x in items[1..] ==> x.productId != items[0].productId
  {
    forall x | x in items[1..]
      ensures x.productId != items[0].productId
    {
      var k :| 0 <= k < |items| - 1 && items[1..][k] == x;
      assert items[k + 1] == x;
    }
  }

  /** The count of the remaining cart plus the quantities removed is the old count. */
  lemma {:induction false} RemoveCount(items: seq<GuestItem>, productId: string)
    ensures Count(items) == Count(Without(items, productId)) + Count(Filter(items, Is(productId)))
  {
    if items != [] {
      RemoveCount(items[1..], productId);
      var head := if IsNot(productId)(items[0]) then [items[0]] else [];
      var gone := if Is(productId)(items[0]) then [items[0]] else [];
      assert Without(items, productId) == head + Without(items[1..], productId);
      assert Filter(items, Is(productId)) == gone + Filter(items[1..], Is(productId));
      CountAppend(head, Without(items[1..], productId));
      CountAppend(gone, Filter(items[1..], Is(productId)));
    }
  }

  /** In a cart with unique ids, removing a present product lowers the count by its quantity. */
  lemma RemovePresentCount(items: seq<GuestItem>, productId: string)
    requires UniqueIds(items)
    ensures var i := FirstIndexOf(items, productId);
            Count(Without(items, productId)) == Count(items) - (if i > -1 then items[i].quantity else 0)
  {
    RemoveCount(items, productId);
    var i := FirstIndexOf(items, productId);
    if i > -1 {
      OnlyOneMatch(items, productId, i);
    } else {
      NoMatch(items, productId);
    }
  }

  lemma {:induction false} OnlyOneMatch(items: seq<GuestItem>, productId: string, i: int)
    requires UniqueIds(items) && 0 <= i < |items| && items[i].productId == productId
    ensures Filter(items, Is(productId)) == [items[i]]
  {
    if i == 0 {
      NoMatch(items[1..], productId);
    } else {
      assert items[0].productId != productId;
      OnlyOneMatch(items[1..], productId, i - 1);
    }
  }

  lemma NoMatch(items: seq<GuestItem>, productId: string)
    requires forall j :: 0 <= j < |items| ==> items[j].productId != productId
    ensures Filter(items, Is(productId)) == []
  {
  }

  /** The cart store: who is signed in, the server cart (`null` as None), and the guest cart. */
  class CartProvider {
    var isAuthenticated: bool
    var cart: Option<ServerCart>
    var guestCart: seq<GuestItem>

    /** A provider starts signed out, with the guest cart restored from the browser. */
    constructor(saved: seq<GuestItem>)
      ensures !isAuthenticated && cart == None && guestCart == saved
    {
      isAuthenticated := false;
      cart := None;
      guestCart := saved;
    }

    /** Whether the server cart is in use: signed in and loaded. */
    predicate UsesServerCart()
      reads this
    {
      isAuthenticated && cart.Some?
    }

    /** The login effect. Signed in with guest items: send the merge payload; on success
        the returned cart replaces the server cart and the guest cart is emptied, on
        failure the guest cart is kept and the cart is fetched again. Signed in without
        guest items: fetch the cart, and fetch once more if that fails. Signed out: drop
        the server cart and keep the guest cart. `first` is the reply of the merge or the
        first fetch, `retry` the reply of the fetch in the error path (None = failed). */
    method HandleUserLogin(authenticated: bool, hasUser: bool, first: Option<ServerCart>, retry: Option<ServerCart>)
      returns (payload: Option<seq<MergeItem>>)
      modifies this
      ensures isAuthenticated == authenticated
      ensures payload == (if authenticated && hasUser && |old(guestCart)| > 0 then Some(MergePayload(old(guestCart))) else None)
      ensures guestCart == (if authenticated && hasUser && |old(guestCart)| > 0 && first.Some? then [] else old(guestCart))
      ensures !(authenticated && hasUser) ==> cart == None
      ensures authenticated && hasUser && first.Some? ==> cart == first
      ensures authenticated && hasUser && first.None? ==> cart == (if retry.Some? then retry else old(cart))
    {
      isAuthenticated := authenticated;
      payload := None;
      if isAuthenticated && hasUser {
        if |guestCart| > 0 {
          payload := Some(MergePayload(guestCart));
        }
        if first.Some? {
          cart := first;
          if payload.Some? {
            guestCart := [];
          }
        } else if retry.Some? {
          cart := retry;
        }
      } else {
        cart := None;
      }
    }

    /** `addToCart`: signed in, the cart becomes the API's reply (unchanged when the call
        fails); as a guest, the entry for the product is raised or appended. */
    method AddToCart(productId: string, quantity: int, data: Option<ProductData>, reply: Option<ServerCart>)
      modifies this
      ensures isAuthenticated == old(isAuthenticated)
      ensures isAuthenticated ==> guestCart == old(guestCart) && cart == (if reply.Some? then reply else old(cart))
      ensures !isAuthenticated ==> cart == old(cart) && guestCart == AddGuest(old(guestCart), productId, quantity, data)
      ensures UniqueIds(old(guestCart)) ==> UniqueIds(guestCart)
    {
      if isAuthenticated {
        if reply.Some? {
          cart := reply;
        }
      } else {
        if UniqueIds(guestCart) {
          AddKeepsUnique(guestCart, productId, quantity, data);
        }
        var i := FirstIndexOf(guestCart, productId);
        if i > -1 {
          guestCart := guestCart[i := guestCart[i].(quantity := guestCart[i].quantity + quantity)];
        } else {
          guestCart := guestCart + [NewItem(productId, quantity, data)];
        }
      }
    }

    /** `updateItem`: the server cart when signed in and loaded, otherwise the guest cart. */
    method UpdateItem(itemId: string, quantity: int, reply: Option<ServerCart>)
      modifies this
      ensures isAuthenticated == old(isAuthenticated)
      ensures old(UsesServerCart()) ==> guestCart == old(guestCart) && cart == (if reply.Some? then reply else old(cart))
      ensures !old(UsesServerCart()) ==> cart == old(cart) && guestCart == SetQuantity(old(guestCart), itemId, quantity)
      ensures UniqueIds(old(guestCart)) ==> UniqueIds(guestCart)
    {
      SetQuantitySpec(guestCart, itemId, quantity);
      if isAuthenticated && cart.Some? {
        if reply.Some? {
          cart := reply;
        }
      } else {
        guestCart := SetQuantity(guestCart, itemId, quantity);
      }
    }

    /** `removeItem`: the server cart when signed in and loaded, otherwise the guest cart. */
    method RemoveItem(itemId: string, reply: Option<ServerCart>)
      modifies this
      ensures isAuthenticated == old(isAuthenticated)
      ensures old(UsesServerCart()) ==> guestCart == old(guestCart) && cart == (if reply.Some? then reply else old(cart))
      ensures !old(UsesServerCart()) ==> cart == old(cart) && guestCart == Without(old(guestCart), itemId)
      ensures UniqueIds(old(guestCart)) ==> UniqueIds(guestCart)
    {
      if UniqueIds(guestCart) {
        RemoveKeepsUnique(guestCart, itemId);
      }
      if isAuthenticated && cart.Some? {
        if reply.Some? {
          cart := reply;
        }
      } else {
        guestCart := Without(guestCart, itemId);
      }
    }

    /** `clearCartItems`: signed in (loaded or not), a successful call drops the server
        cart; as a guest, the guest cart is emptied. */
    method ClearCartItems(apiOk: bool)
      modifies this
      ensures isAuthenticated == old(isAuthenticated)
      ensures isAuthenticated ==> guestCart == old(guestCart) && cart == (if apiOk then None else old(cart))
      ensures !isAuthenticated ==> cart == old(cart) && guestCart == []
    {
      if isAuthenticated {
        if apiOk {
          cart := None;
        }
      } else {
        guestCart := [];
      }
    }

    /** `getCartItemsCount`: the server's `totalItems` when the server cart is in use,
        otherwise the sum of the guest quantities. */
    function GetCartItemsCount(): (r: int)
      reads this
      ensures UsesServerCart() ==> r == cart.value.totalItems
      ensures !UsesServerCart() ==> r == Count(guestCart)
    {
      if isAuthenticated && cart.Some? then cart.value.totalItems else Count(guestCart)
    }

    /** `getCartTotal`: the server's `totalPrice` when the server cart is in use,
        otherwise the sum of price times quantity over the guest cart. */
    function GetCartTotal(): (r: real)
      reads this
      ensures UsesServerCart() ==> r == cart.value.totalPrice
      ensures !UsesServerCart() ==> r == Total(guestCart)
    {
      if isAuthenticated && cart.Some? then cart.value.totalPrice else Total(guestCart)
    }
  }
}
