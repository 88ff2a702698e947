/** Order placement in `client/src/pages/CheckoutPage.tsx`: the prices of an order, the
    order items copied from the server cart, the request body, the default shipping
    address and the order summary the page displays. */
module Checkout {
  import opened Wrappers
  import opened Types
  import GuestCart

  /** Shipping, tax and grand total of an order. */
  datatype Pricing = Pricing(shippingPrice: real, taxPrice: real, totalPrice: real)

  /** One item of the order request. */
  datatype OrderItem = OrderItem(product: string, name: string, quantity: int, image: string, price: real, attributes: Option<Attributes>)

  /** The body sent to the order endpoint; both addresses are address ids. */
  datatype OrderRequest = OrderRequest(
    orderItems: seq<OrderItem>,
    shippingAddress: string,
    billingAddress: string,
    paymentMethod: string,
    pricing: Pricing)

  /** The "Order Summary" panel: shipping label, tax and total as displayed (before `toFixed`). */
  datatype Summary = Summary(shippingLabel: string, tax: real, total: real)

  const TaxRate: real := 1.0 / 10.0
  const FreeShippingOver: real := 100.0
  const ShippingFee: real := 10.0

  /** Free shipping strictly over 100, a flat 10 otherwise; 10% tax; total = subtotal + tax + shipping. */
  function OrderPricing(subtotal: real): (r: Pricing)
    ensures r.shippingPrice == 0.0 <==> subtotal > 100.0
    ensures r.shippingPrice == 0.0 || r.shippingPrice == 10.0
    ensures r.taxPrice * 10.0 == subtotal
    ensures r.totalPrice == subtotal + r.taxPrice + r.shippingPrice
  {
    var shipping := if subtotal > FreeShippingOver then 0.0 else ShippingFee;
    var tax := subtotal * TaxRate;
    Pricing(shipping, tax, subtotal + tax + shipping)
  }

  /** The grand total is not monotone in the subtotal: crossing 100 by less than 100/11
      (a cart of 100 against one of 101, say) makes the order cheaper. */
  lemma TotalDropsAtThreshold(subtotal: real, larger: real)
    requires subtotal <= 100.0 < larger && (larger - subtotal) * 11.0 < 100.0
    ensures OrderPricing(larger).totalPrice < OrderPricing(subtotal).totalPrice
  {
  }

  /** For a non-negative subtotal the total is at least 1.1 times the subtotal, and
      shipping adds at most 10 to that. */
  lemma TotalBounds(subtotal: real)
    requires subtotal >= 0.0
    ensures var t := OrderPricing(subtotal).totalPrice;
            subtotal * 11.0 / 10.0 <= t <= subtotal * 11.0 / 10.0 + 10.0
  {
  }

  /** `item.product.images[0] || ""`: the first image, or "" when there is none or it is empty. */
  function FirstImage(images: seq<string>): (r: string)
    ensures |images| > 0 ==> r == images[0]
    ensures |images| == 0 ==> r == ""
  {
    if |images| > 0 && images[0] != "" then images[0] else ""
  }

  function OrderItemOf(line: CartLine): OrderItem {
    OrderItem(line.product.id, line.product.name, line.quantity, FirstImage(line.product.images), line.price, line.attributes)
  }

  /** `cart.items.map(...)`: one order item per cart line, in the same order, copying the
      product id and name, the quantity, the line price and the attributes. */
  function OrderItems(lines: seq<CartLine>): (r: seq<OrderItem>)
    ensures |r| == |lines|
    ensures forall i :: 0 <= i < |lines| ==>
              r[i].product == lines[i].product.id && r[i].name == lines[i].product.name
              && r[i].quantity == lines[i].quantity && r[i].price == lines[i].price
              && r[i].attributes == lines[i].attributes
              && r[i].image == (if |lines[i].product.images| > 0 then lines[i].product.images[0] else "")
  {
    seq(|lines|, i requires 0 <= i < |lines| => OrderItemOf(lines[i]))
  }

  /** The request `handlePlaceOrder` sends, or None when it returns early: no cart loaded,
      or no address selected (the empty id is falsy). */
  function PlaceOrderRequest(cart: Option<ServerCart>, selectedAddress: string, paymentMethod: string): (r: Option<OrderRequest>)
    ensures r.Some? <==> cart.Some? && selectedAddress != ""
    ensures r.Some? ==> r.value.shippingAddress == selectedAddress && r.value.billingAddress == selectedAddress
    ensures r.Some? ==> r.value.paymentMethod == paymentMethod
    ensures r.Some? ==> r.value.orderItems == OrderItems(cart.value.items)
    ensures r.Some? ==> r.value.pricing == OrderPricing(cart.value.totalPrice)
  {
    if cart.None? then None
    else if selectedAddress == "" then None
    else
      var c := cart.value;
      Some(OrderRequest(OrderItems(c.items), selectedAddress, selectedAddress, paymentMethod, OrderPricing(c.totalPrice)))
  }

  /** `handlePlaceOrder` against the cart store: when a request is sent and the order is
      created, the cart is cleared through `clearCartItems`; a failed order, or an early
      return, leaves the store alone. */
  method HandlePlaceOrder(store: GuestCart.CartProvider, selectedAddress: string, paymentMethod: string, orderCreated: bool, clearOk: bool)
    returns (request: Option<OrderRequest>)
    modifies store
    ensures request == PlaceOrderRequest(old(store.cart), selectedAddress, paymentMethod)
    ensures store.isAuthenticated == old(store.isAuthenticated)
    ensures request.Some? && orderCreated && store.isAuthenticated ==>
              store.guestCart == old(store.guestCart) && store.cart == (if clearOk then None else old(store.cart))
    ensures request.Some? && orderCreated && !store.isAuthenticated ==>
              store.guestCart == [] && store.cart == old(store.cart)
    ensures !(request.Some? && orderCreated) ==>
              store.guestCart == old(store.guestCart) && store.cart == old(store.cart)
  {
    request := PlaceOrderRequest(store.cart, selectedAddress, paymentMethod);
    if request.Some? && orderCreated {
      store.ClearCartItems(clearOk);
    }
  }

  /** The displayed summary: "Free" or "$10.00", `totalPrice * 0.1`, and the sum written out again. */
  function OrderSummary(subtotal: real): (r: Summary)
    ensures r.shippingLabel == "Free" <==> subtotal > 100.0
    ensures r.total == subtotal + r.tax + (if r.shippingLabel == "Free" then 0.0 else 10.0)
  {
    Summary(
      if subtotal > 100.0 then "Free" else "$10.00",
      subtotal * TaxRate,
      subtotal + subtotal * TaxRate + (if subtotal > 100.0 then 0.0 else 10.0))
  }

  /** What the page displays is what it submits: same tax, same total, and "Free" exactly
      when the order's shipping price is 0. */
  lemma SummaryMatchesOrder(subtotal: real)
    ensures OrderSummary(subtotal).tax == OrderPricing(subtotal).taxPrice
    ensures OrderSummary(subtotal).total == OrderPricing(subtotal).totalPrice
    ensures OrderSummary(subtotal).shippingLabel == "Free" <==> OrderPricing(subtotal).shippingPrice == 0.0
  {
  }

  /** `addresses.find(addr => addr.isDefault)`: index of the first default address, or -1. */
  function FirstDefault(addresses: seq<Address>): (r: int)
    ensures -1 <= r < |addresses|
    ensures r >= 0 ==> addresses[r].isDefault && forall j :: 0 <= j < r ==> !addresses[j].isDefault
    ensures r == -1 <==> forall j :: 0 <= j < |addresses| ==> !addresses[j].isDefault
  {
    if addresses == [] then -1
    else if addresses[0].isDefault then 0
    else
      var k := FirstDefault(addresses[1..]);
      if k == -1 then -1 else k + 1
  }

  /** The selection after loading the addresses: the first default address, else the
      first address, else the selection stays as it was. */
  function DefaultSelection(addresses: seq<Address>, current: string): (r: string)
    ensures (exists j :: 0 <= j < |addresses| && addresses[j].isDefault) ==>
              exists j :: 0 <= j < |addresses| && addresses[j].isDefault && r == addresses[j].id
                          && forall k :: 0 <= k < j ==> !addresses[k].isDefault
    ensures (forall j :: 0 <= j < |addresses| ==> !addresses[j].isDefault) && |addresses| > 0 ==> r == addresses[0].id
    ensures |addresses| == 0 ==> r == current
  {
    var d := FirstDefault(addresses);
    if d >= 0 then addresses[d].id
    else if |addresses| > 0 then addresses[0].id
    else current
  }
}
