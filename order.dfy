/**
 * The persistent records shared by the three bots: a coffee shop and an order
 * with its five-valued status and its two timestamps.
 *
 * Timestamps are whole seconds of an injected clock; prices are whole tenge.
 */
module OrderEntity {
  import opened Wrappers
  import Text

  /** The lifecycle states of an order. The type admits no other value. */
  datatype OrderStatus = PENDING | IN_PREPARATION | READY | COMPLETED | CANCELLED

  /** A coffee shop row: database id, display name, address, location code, active flag. */
  datatype CoffeeShop = CoffeeShop(id: nat, name: string, address: string, code: string, active: bool)

  /**
   * An order row. `number` is the sequential order number, whose text
   * (`OrderNumber`) is what the bots show and exchange. `customerId` is a
   * nullable `Long`; the coffee-shop reference is mandatory. `coffeeType`,
   * `milkType` and `syrupType` are nullable strings.
   */
  datatype Order = Order(
    number: nat,
    customerId: Option<int>,
    shop: CoffeeShop,
    coffeeType: Option<string>,
    size: string,
    milkType: Option<string>,
    syrupType: Option<string>,
    totalPrice: int,
    status: OrderStatus,
    createdAt: int,
    updatedAt: int)
  {
    /** The order number as a string, as stored in the `order_number` column. */
    function OrderNumber(): string {
      Text.NumberText(number)
    }
  }

  /** Two orders agree on every field except the two timestamps. */
  predicate SameExceptTimestamps(a: Order, b: Order) {
    && a.number == b.number && a.customerId == b.customerId && a.shop == b.shop
    && a.coffeeType == b.coffeeType && a.size == b.size && a.milkType == b.milkType
    && a.syrupType == b.syrupType && a.totalPrice == b.totalPrice && a.status == b.status
  }

  /** The `@PrePersist` hook: both timestamps are taken from the clock, nothing else moves. */
  function OnCreate(o: Order, now: int): (r: Order)
    ensures r.createdAt == now && r.updatedAt == now
    ensures SameExceptTimestamps(r, o)
  {
    o.(createdAt := now, updatedAt := now)
  }

  /** The `@PreUpdate` hook: only `updatedAt` is refreshed; `createdAt` is kept. */
  function OnUpdate(o: Order, now: int): (r: Order)
    ensures r.updatedAt == now && r.createdAt == o.createdAt
    ensures SameExceptTimestamps(r, o)
  {
    o.(updatedAt := now)
  }

  /** The sort key of the newest-first listings. */
  function CreatedAt(o: Order): int {
    o.createdAt
  }

  /**
   * Whole minutes between `createdAt` and `now`, as `Duration.toMinutes`
   * gives them: the quotient truncated toward zero, also for a negative span.
   */
  function WaitMinutes(createdAt: int, now: int): (m: int)
    ensures now >= createdAt ==> 0 <= m && m * 60 <= now - createdAt < (m + 1) * 60
    ensures now < createdAt ==> m <= 0 && (m - 1) * 60 < now - createdAt <= m * 60
  {
    var d := now - createdAt;
    if d >= 0 then d / 60 else -((-d) / 60)
  }
}
