/**
 * The order store: creation with a sequential number, status updates and the
 * queries the bots and services run. The repository is an in-memory table of
 * rows kept in insertion order; `MaxOrderNumber` plays the part of the
 * `MAX(CAST(order_number AS int))` query.
 */
module OrderStore {
  import opened Wrappers
  import opened OrderEntity
  import Seqs
  import Text

  /** The largest order number in `rows`; None for an empty table (SQL `MAX` of no rows is null). */
  function MaxOrderNumber(rows: seq<Order>): (r: Option<nat>)
    ensures r.None? <==> rows == []
    ensures r.Some? ==> forall i :: 0 <= i < |rows| ==> rows[i].number <= r.value
    ensures r.Some? ==> exists i :: 0 <= i < |rows| && rows[i].number == r.value
    decreases |rows|
  {
    if rows == [] then None
    else
      var last := rows[|rows| - 1].number;
      match MaxOrderNumber(rows[..|rows| - 1])
      case None => Some(last)
      case Some(m) => Some(if m < last then last else m)
  }

  /** `generateOrderNumber`: 1 for an empty table, otherwise the maximum plus one, so a number no row carries yet. */
  function NextOrderNumber(rows: seq<Order>): (n: nat)
    ensures rows == [] ==> n == 1
    ensures n >= 1
    ensures forall i :: 0 <= i < |rows| ==> rows[i].number < n
    ensures rows != [] ==> exists i :: 0 <= i < |rows| && rows[i].number == n - 1
  {
    match MaxOrderNumber(rows)
    case None => 1
    case Some(m) => m + 1
  }

  /** Appending a row that carries the next number moves the next number up by exactly one. */
  lemma {:induction false} NextOrderNumberAfterAppend(rows: seq<Order>, o: Order)
    requires o.number == NextOrderNumber(rows)
    ensures NextOrderNumber(rows + [o]) == o.number + 1
  {
    var grown := rows + [o];
    assert grown[..|grown| - 1] == rows;
  }

  /** No two rows share an order number. */
  ghost predicate DistinctNumbers(rows: seq<Order>) {
    forall i, j :: 0 <= i < j < |rows| ==> rows[i].number != rows[j].number
  }

  /** Position of the first row whose order-number text is exactly `text`. */
  function IndexOfNumber(rows: seq<Order>, text: string): (r: Option<nat>)
    ensures r.Some? ==> r.value < |rows| && rows[r.value].OrderNumber() == text
    ensures r.Some? ==> forall i :: 0 <= i < r.value ==> rows[i].OrderNumber() != text
    ensures r.None? <==> forall i :: 0 <= i < |rows| ==> rows[i].OrderNumber() != text
    decreases |rows|
  {
    if rows == [] then None
    else if rows[0].OrderNumber() == text then Some(0)
    else match IndexOfNumber(rows[1..], text)
      case None => None
      case Some(k) => Some(k + 1)
  }

  /** With distinct numbers, every row is found at its own position from its own number text. */
  lemma IndexOfOwnNumber(rows: seq<Order>, i: nat)
    requires DistinctNumbers(rows) && i < |rows|
    ensures IndexOfNumber(rows, rows[i].OrderNumber()) == Some(i)
  {
    var r := IndexOfNumber(rows, rows[i].OrderNumber());
    var k := r.value;
    if k != i {
      Text.NumberTextInjective(rows[k].number, rows[i].number);
    }
  }

  /** No row before position `i` has the number text `text`. */
  predicate FirstBefore(rows: seq<Order>, text: string, i: nat) {
    forall j :: 0 <= j < i && j < |rows| ==> rows[j].OrderNumber() != text
  }

  /** The row `UpdateOrderStatus` stores: the new status, then the `@PreUpdate` hook. */
  function WithStatus(o: Order, status: OrderStatus, now: int): (r: Order)
    ensures r.status == status && r.number == o.number && r.createdAt == o.createdAt
  {
    OnUpdate(o.(status := status), now)
  }

  /**
   * The rows after setting the status of the row whose number text is `text`:
   * the first such row (the one `findByOrderNumber` returns) gets the new
   * status and every other row stays; an unknown number changes nothing.
   */
  function StatusUpdated(rows: seq<Order>, text: string, status: OrderStatus, now: int): (r: seq<Order>)
    ensures |r| == |rows|
    ensures (forall j :: 0 <= j < |rows| ==> rows[j].OrderNumber() != text) ==> r == rows
    ensures forall i :: 0 <= i < |rows| && rows[i].OrderNumber() == text && FirstBefore(rows, text, i) ==>
      && r[i] == WithStatus(rows[i], status, now)
      && forall j :: 0 <= j < |rows| && j != i ==> r[j] == rows[j]
    ensures forall j :: 0 <= j < |rows| && r[j] != rows[j] ==> r[j] == WithStatus(rows[j], status, now)
  {
    match IndexOfNumber(rows, text)
    case None => rows
    case Some(i) => rows[i := WithStatus(rows[i], status, now)]
  }

  class OrderService {
    /** The repository's rows, oldest first. */
    var orders: seq<Order>

    ghost predicate Valid()
      reads this
    {
      DistinctNumbers(orders)
    }

    constructor ()
      ensures Valid() && orders == []
    {
      orders := [];
    }

    /**
     * `createOrder`: a PENDING order with the next sequential number and exactly
     * the given fields is appended; the `@PrePersist` hook stamps it with `now`.
     */
    method CreateOrder(customerId: Option<int>, shop: CoffeeShop, coffeeType: Option<string>,
                       size: string, milkType: Option<string>, syrupType: Option<string>,
                       totalPrice: int, now: int) returns (o: Order)
      requires Valid()
      modifies this
      ensures Valid()
      ensures o == Order(NextOrderNumber(old(orders)), customerId, shop, coffeeType, size,
                         milkType, syrupType, totalPrice, PENDING, now, now)
      ensures orders == old(orders) + [o]
      ensures NextOrderNumber(orders) == o.number + 1
    {
      var orderNumber := NextOrderNumber(orders);
      var draft := Order(orderNumber, customerId, shop, coffeeType, size, milkType, syrupType,
                         totalPrice, PENDING, 0, 0);
      o := OnCreate(draft, now);
      NextOrderNumberAfterAppend(orders, o);
      orders := orders + [o];
    }

    /**
     * `updateOrderStatus`: the row with the given number text takes the new
     * status (whatever the old one was) and is returned; every other row is
     * untouched. An unknown number is the "Order not found" exception, as None,
     * and leaves the store unchanged.
     */
    method UpdateOrderStatus(orderNumber: string, newStatus: OrderStatus, now: int)
      returns (r: Option<Order>)
      requires Valid()
      modifies this
      ensures Valid()
      ensures old(IndexOfNumber(orders, orderNumber)).None? ==> r.None? && orders == old(orders)
      ensures old(IndexOfNumber(orders, orderNumber)).Some? ==>
        var i := old(IndexOfNumber(orders, orderNumber)).value;
        && r == Some(WithStatus(old(orders)[i], newStatus, now))
        && orders == old(orders)[i := r.value]
      ensures orders == StatusUpdated(old(orders), orderNumber, newStatus, now)
    {
      var found := IndexOfNumber(orders, orderNumber);
      match found
      case None =>
        r := None;
      case Some(i) =>
        var updated := WithStatus(orders[i], newStatus, now);
        orders := orders[i := updated];
        r := Some(updated);
    }

    /** `getOrderByNumber`: the row whose number text is exactly `orderNumber`, if any. */
    function GetOrderByNumber(orderNumber: string): (r: Option<Order>)
      reads this
      ensures r.Some? ==> r.value in orders && r.value.OrderNumber() == orderNumber
      ensures r.None? <==> forall o :: o in orders ==> o.OrderNumber() != orderNumber
    {
      match IndexOfNumber(orders, orderNumber)
      case None => None
      case Some(i) => Some(orders[i])
    }

    /** `getOrdersByCustomerId` */
    function GetOrdersByCustomerId(customerId: int): (r: seq<Order>)
      reads this
      ensures forall o :: o in r <==> o in orders && o.customerId == Some(customerId)
    {
      Seqs.Filter(orders, (o: Order) => o.customerId == Some(customerId))
    }

    /** `getOrdersByStatus` */
    function GetOrdersByStatus(status: OrderStatus): (r: seq<Order>)
      reads this
      ensures forall o :: o in r <==> o in orders && o.status == status
    {
      Seqs.Filter(orders, (o: Order) => o.status == status)
    }

    /** `getOrdersByShopAndStatus`: shops are compared as entities, by id. */
    function GetOrdersByShopAndStatus(shop: CoffeeShop, status: OrderStatus): (r: seq<Order>)
      reads this
      ensures forall o :: o in r <==> o in orders && o.shop.id == shop.id && o.status == status
    {
      Seqs.Filter(orders, (o: Order) => o.shop.id == shop.id && o.status == status)
    }

    /** `getOrdersByCustomerIdAndStatus` */
    function GetOrdersByCustomerIdAndStatus(customerId: int, status: OrderStatus): (r: seq<Order>)
      reads this
      ensures forall o :: o in r <==> o in orders && o.customerId == Some(customerId) && o.status == status
    {
      Seqs.Filter(orders, (o: Order) => o.customerId == Some(customerId) && o.status == status)
    }
  }

  /** Every stored order is found by the text of its own number. */
  lemma LookupFindsEveryOrder(store: OrderService, i: nat)
    requires store.Valid() && i < |store.orders|
    ensures store.GetOrderByNumber(store.orders[i].OrderNumber()) == Some(store.orders[i])
  {
    IndexOfOwnNumber(store.orders, i);
  }
}
