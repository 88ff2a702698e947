/** The cart page (`client/src/pages/CartPage.tsx`): when the cart counts as empty, which
    rows are shown, what the quantity selects offer, line totals, and how a row's
    actions reach the cart store. */
module CartPage {
  import opened Wrappers
  import opened Types
  import opened Seqs
  import opened GuestCart

  /** `isCartEmpty`: signed in, no server cart or one without lines; as a guest, no entries. */
  function IsCartEmpty(isAuthenticated: bool, cart: Option<ServerCart>, guestCart: seq<GuestItem>): (r: bool)
    ensures r <==> |Rows(isAuthenticated, cart, guestCart)| == 0 || (isAuthenticated && cart.None?)
  {
    if isAuthenticated then cart.None? || |cart.value.items| == 0 else |guestCart| == 0
  }

  /** A rendered row: a server cart line, or a guest entry. */
  datatype Row = ServerRow(line: CartLine) | GuestRow(item: GuestItem)

  /** `renderCartItems`: the server lines when signed in with a cart loaded, else the guest entries. */
  function Rows(isAuthenticated: bool, cart: Option<ServerCart>, guestCart: seq<GuestItem>): (r: seq<Row>)
    ensures isAuthenticated && cart.Some? ==> |r| == |cart.value.items| && forall i :: 0 <= i < |r| ==> r[i] == ServerRow(cart.value.items[i])
    ensures !(isAuthenticated && cart.Some?) ==> |r| == |guestCart| && forall i :: 0 <= i < |r| ==> r[i] == GuestRow(guestCart[i])
  {
    if isAuthenticated && cart.Some? then seq(|cart.value.items|, i requires 0 <= i < |cart.value.items| => ServerRow(cart.value.items[i]))
    else seq(|guestCart|, i requires 0 <= i < |guestCart| => GuestRow(guestCart[i]))
  }

  /** The id a row passes to `updateItem` and `removeItem`: the line id for a server row,
      the product id for a guest row. */
  function RowId(row: Row): string {
    match row
    case ServerRow(line) => line.id
    case GuestRow(item) => item.productId
  }

  /** Whenever the page gets past the empty check it shows at least one row, and a
      signed-in user only ever sees server rows, never the guest cart. */
  lemma NonEmptyShowsRows(isAuthenticated: bool, cart: Option<ServerCart>, guestCart: seq<GuestItem>)
    requires !IsCartEmpty(isAuthenticated, cart, guestCart)
    ensures |Rows(isAuthenticated, cart, guestCart)| > 0
    ensures isAuthenticated ==> forall i :: 0 <= i < |Rows(isAuthenticated, cart, guestCart)| ==> Rows(isAuthenticated, cart, guestCart)[i].ServerRow?
  {
  }

  /** With one entry per product, removing by a guest row's id removes exactly that row. */
  lemma {:induction false} GuestRowRemove(guestCart: seq<GuestItem>, i: int)
    requires UniqueIds(guestCart) && 0 <= i < |guestCart|
    ensures Without(guestCart, RowId(GuestRow(guestCart[i]))) == RemoveAt(guestCart, i)
  {
    var pid := guestCart[i].productId;
    var tail := guestCart[1..];
    if i == 0 {
      RemoveFirstRow(guestCart);
    } else {
      assert UniqueIds(tail);
      assert tail[i - 1] == guestCart[i];
      GuestRowRemove(tail, i - 1);
      assert IsNot(pid)(guestCart[0]);
      assert Without(guestCart, pid) == [guestCart[0]] + Without(tail, pid);
      RemoveAtCons(guestCart, i);
    }
  }

  lemma RemoveAtCons<T>(s: seq<T>, i: int)
    requires 0 < i < |s|
    ensures RemoveAt(s, i) == [s[0]] + RemoveAt(s[1..], i - 1)
  {
    assert s[..i] == [s[0]] + s[1..][..i - 1];
    assert s[i + 1..] == s[1..][i..];
  }

  lemma RemoveFirstRow(guestCart: seq<GuestItem>)
    requires UniqueIds(guestCart) && 0 < |guestCart|
    ensures Without(guestCart, guestCart[0].productId) == guestCart[1..]
  {
    var pid := guestCart[0].productId;
    var tail := guestCart[1..];
    assert Without(guestCart, pid) == Without(tail, pid);
    assert forall j :: 0 <= j < |tail| ==> IsNot(pid)(tail[j]) by {
      forall j | 0 <= j < |tail|
        ensures IsNot(pid)(tail[j])
      {
        assert tail[j] == guestCart[j + 1];
      }
    }
    FilterKeepsAll(tail, IsNot(pid));
  }

  /** With one entry per product, updating by a guest row's id changes exactly that row. */
  lemma GuestRowUpdate(guestCart: seq<GuestItem>, i: int, quantity: int)
    requires UniqueIds(guestCart) && 0 <= i < |guestCart|
    ensures SetQuantity(guestCart, RowId(GuestRow(guestCart[i])), quantity) == guestCart[i := guestCart[i].(quantity := quantity)]
  {
    SetQuantitySpec(guestCart, guestCart[i].productId, quantity);
  }

  /** `[...Array(Math.min(10, countInStock))]` numbered from 1; a negative length makes
      `Array` throw, which is None here. */
  function ServerQuantityOptions(countInStock: int): (r: Option<seq<int>>)
    ensures r.Some? <==> countInStock >= 0
    ensures r.Some? ==> |r.value| == (if countInStock < 10 then countInStock else 10)
    ensures r.Some? ==> forall i :: 0 <= i < |r.value| ==> r.value[i] == i + 1
  {
    var n := if countInStock < 10 then countInStock else 10;
    if n < 0 then None else Some(Range(1, n))
  }

  /** A quantity is offered on a server row exactly when it lies in 1..min(10, countInStock). */
  lemma ServerOptionOffered(countInStock: int, quantity: int)
    requires countInStock >= 0
    ensures quantity in ServerQuantityOptions(countInStock).value <==> 1 <= quantity <= 10 && quantity <= countInStock
  {
    var opts := ServerQuantityOptions(countInStock).value;
    if 1 <= quantity <= 10 && quantity <= countInStock {
      assert opts[quantity - 1] == quantity;
    }
  }

  /** Guest rows always offer 1..10, whatever the stock. */
  function GuestQuantityOptions(): (r: seq<int>)
    ensures |r| == 10 && forall i :: 0 <= i < 10 ==> r[i] == i + 1
  {
    Range(1, 10)
  }

  /** `item.price * item.quantity`. */
  function LineTotal(price: real, quantity: int): (r: real)
    ensures quantity == 0 ==> r == 0.0
    ensures quantity == 1 ==> r == price
    ensures price >= 0.0 && quantity >= 0 ==> r >= 0.0
  {
    price * quantity as real
  }

  function GuestLineTotals(guestCart: seq<GuestItem>): (r: seq<real>)
    ensures |r| == |guestCart|
    ensures forall i :: 0 <= i < |r| ==> r[i] == LineTotal(guestCart[i].price, guestCart[i].quantity)
  {
    seq(|guestCart|, i requires 0 <= i < |guestCart| => LineTotal(guestCart[i].price, guestCart[i].quantity))
  }

  /** For a guest the line totals shown on the rows add up to the subtotal the summary
      shows (`getCartTotal`). */
  lemma {:induction false} LineTotalsAddUp(guestCart: seq<GuestItem>)
    ensures SumReals(GuestLineTotals(guestCart)) == Total(guestCart)
  {
    if guestCart != [] {
      LineTotalsAddUp(guestCart[1..]);
      assert GuestLineTotals(guestCart)[1..] == GuestLineTotals(guestCart[1..]);
    }
  }

  /** `handleQuantityChange`: forward to `updateItem` only for a positive quantity. */
  method HandleQuantityChange(store: CartProvider, itemId: string, quantity: int, reply: Option<ServerCart>)
    modifies store
    ensures quantity <= 0 ==> store.cart == old(store.cart) && store.guestCart == old(store.guestCart)
    ensures quantity > 0 && old(store.UsesServerCart()) ==>
              store.guestCart == old(store.guestCart) && store.cart == (if reply.Some? then reply else old(store.cart))
    ensures quantity > 0 && !old(store.UsesServerCart()) ==>
              store.cart == old(store.cart) && store.guestCart == SetQuantity(old(store.guestCart), itemId, quantity)
    ensures store.isAuthenticated == old(store.isAuthenticated)
  {
    if quantity > 0 {
      store.UpdateItem(itemId, quantity, reply);
    }
  }
}
