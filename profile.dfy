/**
 * The profile page: the signed-in user's past orders, read once from
 * `localStorage` under `<uid>_orders`, and the two figures shown above
 * them, the number of orders and the amount spent.
 */
module Profile {
  import opened Prelude
  import opened LocalStorage

  /** One purchased line, as the profile page and the item analytics read it. */
  datatype Order = Order(id: string, name: string, price: int, quantity: int, date: string)

  /** The key holding a user's orders. */
  function OrdersKey(uid: string): string
  {
    uid + "_orders"
  }

  /** What the page holds after its loading effect: the orders and whether it still shows "Loading...". */
  datatype ProfileState = ProfileState(userOrders: seq<Order>, loading: bool)

  /**
   * `retrieveOrders` for the uid of the signed-in user, if any: without a
   * user nothing is read and the page stays loading with no orders.
   */
  function RetrieveOrders(uid: Option<string>, storage: Store<Order>): (r: ProfileState)
    ensures uid.None? ==> r.userOrders == [] && r.loading
    ensures uid.Some? ==> !r.loading
    ensures uid.Some? && OrdersKey(uid.value) !in storage ==> r.userOrders == []
    ensures uid.Some? && OrdersKey(uid.value) in storage ==> r.userOrders == storage[OrdersKey(uid.value)]
  {
    match uid
    case None => ProfileState([], true)
    case Some(u) => ProfileState(GetOrEmpty(storage, OrdersKey(u)), false)
  }

  /** `order.price * order.quantity`. */
  function OrderAmount(order: Order): int
  {
    order.price * order.quantity
  }

  /** `totalSpent`: the sum of the order amounts, 0 for no orders. */
  function TotalSpent(orders: seq<Order>): (r: int)
    ensures orders == [] ==> r == 0
    ensures |orders| == 1 ==> r == OrderAmount(orders[0])
  {
    SumOfOne(orders, OrderAmount);
    SumOf(orders, OrderAmount)
  }

  /** `totalOrders`. */
  function TotalOrders(orders: seq<Order>): (r: nat)
    ensures orders == [] <==> r == 0
  {
    |orders|
  }

  /** Spending over two order lists laid end to end is the sum of their spending. */
  lemma TotalSpentConcat(a: seq<Order>, b: seq<Order>)
    ensures TotalSpent(a + b) == TotalSpent(a) + TotalSpent(b)
  {
    SumOfConcat(a, b, OrderAmount);
  }

  /** With non-negative prices and quantities, no order list spends a negative amount. */
  lemma TotalSpentNonNegative(orders: seq<Order>)
    requires forall i :: 0 <= i < |orders| ==> orders[i].price >= 0 && orders[i].quantity >= 0
    ensures TotalSpent(orders) >= 0
  {
    SumOfNonNegative(orders, OrderAmount);
  }

  /** One more order adds exactly its amount. */
  lemma TotalSpentAppend(orders: seq<Order>, order: Order)
    ensures TotalSpent(orders + [order]) == TotalSpent(orders) + order.price * order.quantity
    ensures TotalOrders(orders + [order]) == TotalOrders(orders) + 1
  {
    TotalSpentConcat(orders, [order]);
    SumOfSingleton(order, OrderAmount);
  }
}
