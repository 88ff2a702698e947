/** `client/src/pages/admin/AdminDashboard.tsx`: the statistics computed from the fetched
    lists, and the database status that follows the fetch. */
module AdminDashboard {
  import opened Wrappers
  import opened Types
  import opened Seqs

  /** `orders.reduce((total, order) => order.isPaid ? total + order.totalPrice : total, 0)`,
      folded from the left as `reduce` does. */
  function Revenue(orders: seq<Order>): real {
    if orders == [] then 0.0
    else
      var last := orders[|orders| - 1];
      Revenue(orders[..|orders| - 1]) + (if last.isPaid then last.totalPrice else 0.0)
  }

  function IsPaid(o: Order): bool {
    o.isPaid
  }

  /** The totals of the paid orders, in order. */
  function PaidTotals(orders: seq<Order>): (r: seq<real>)
    ensures |r| <= |orders|
    ensures (forall i :: 0 <= i < |orders| ==> orders[i].totalPrice >= 0.0) ==> forall i :: 0 <= i < |r| ==> r[i] >= 0.0
    ensures (forall i :: 0 <= i < |orders| ==> !orders[i].isPaid) ==> r == []
  {
    var paid := Filter(orders, IsPaid);
    assert (forall i :: 0 <= i < |orders| ==> !orders[i].isPaid) ==> paid == [] by {
      if forall i :: 0 <= i < |orders| ==> !orders[i].isPaid {
        FilterKeepsNone(orders, IsPaid);
      }
    }
    seq(|paid|, i requires 0 <= i < |paid| => paid[i].totalPrice)
  }

  lemma PaidTotalsAppend(orders: seq<Order>, o: Order)
    ensures PaidTotals(orders + [o]) == PaidTotals(orders) + (if o.isPaid then [o.totalPrice] else [])
  {
    FilterAppend(orders, [o], IsPaid);
    assert Filter([o], IsPaid) == (if o.isPaid then [o] else []) + Filter([], IsPaid);
  }

  /** Revenue is the sum of the totals of the paid orders and of nothing else. */
  lemma {:induction false} RevenueIsPaidSum(orders: seq<Order>)
    ensures Revenue(orders) == SumReals(PaidTotals(orders))
    decreases |orders|
  {
    if orders != [] {
      var init, last := orders[..|orders| - 1], orders[|orders| - 1];
      assert orders == init + [last];
      RevenueIsPaidSum(init);
      PaidTotalsAppend(init, last);
      SumRealsAppend(PaidTotals(init), if last.isPaid then [last.totalPrice] else []);
    }
  }

  /** Unpaid orders never count: marking an unpaid order as not paid, or adding one,
      leaves the revenue unchanged. */
  lemma UnpaidOrderAddsNothing(orders: seq<Order>, o: Order)
    requires !o.isPaid
    ensures Revenue(orders + [o]) == Revenue(orders)
  {
    assert (orders + [o])[..|orders|] == orders;
  }

  /** With non-negative order totals the revenue is non-negative. */
  lemma {:induction false} RevenueNonNegative(orders: seq<Order>)
    requires forall i :: 0 <= i < |orders| ==> orders[i].totalPrice >= 0.0
    ensures Revenue(orders) >= 0.0
    decreases |orders|
  {
    if orders != [] {
      RevenueNonNegative(orders[..|orders| - 1]);
    }
  }

  function IsPending(o: Order): bool {
    o.status == Some("Pending")
  }

  /** `orders.filter((order) => order.status === "Pending").length`. */
  function PendingOrders(orders: seq<Order>): (r: nat)
    ensures r <= |orders|
    ensures r == 0 <==> forall i :: 0 <= i < |orders| ==> !IsPending(orders[i])
  {
    var pending := Filter(orders, IsPending);
    if forall i :: 0 <= i < |orders| ==> !IsPending(orders[i]) then
      FilterKeepsNone(orders, IsPending);
      |pending|
    else
      var i :| 0 <= i < |orders| && IsPending(orders[i]);
      assert orders[i] in pending;
      |pending|
  }

  datatype Stats = Stats(products: int, orders: nat, users: nat, categories: nat, revenue: real, pendingOrders: nat)

  /** The four lists `Promise.all` delivers: the product list's `count` and the rest in full. */
  datatype Fetched = Fetched(productCount: int, orders: seq<Order>, users: seq<User>, categories: seq<Category>)

  datatype DbStatus = Connected | DbError

  /** `fetchDashboardData`: on success the statistics come from the lists and the database
      shows as connected; if any fetch fails the statistics stay as they were and the
      database shows an error. */
  function AfterFetch(prev: Stats, fetched: Option<Fetched>): (r: (Stats, DbStatus))
    ensures fetched.None? ==> r == (prev, DbError)
    ensures fetched.Some? ==> r.1 == Connected
    ensures fetched.Some? ==> var f := fetched.value;
              r.0.products == f.productCount && r.0.orders == |f.orders| && r.0.users == |f.users|
              && r.0.categories == |f.categories| && r.0.revenue == SumReals(PaidTotals(f.orders))
              && r.0.pendingOrders == PendingOrders(f.orders)
  {
    match fetched
    case None => (prev, DbError)
    case Some(f) =>
      RevenueIsPaidSum(f.orders);
      (Stats(f.productCount, |f.orders|, |f.users|, |f.categories|, Revenue(f.orders), PendingOrders(f.orders)), Connected)
  }
}
