/**
 * Daily statistics for the admin: per-shop counters of completed orders and
 * the day's totals. A calendar day is a day number; it covers the clock
 * seconds `day * 86400` through `day * 86400 + 86399`, both included.
 */
module Statistics {
  import opened OrderEntity
  import opened OrderStore
  import opened ShopDirectory
  import Seqs

  const SecondsPerDay := 86400

  /** `LocalDate.now()`: the day number of the clock reading `now`. */
  function Day(now: int): (day: int)
    ensures InDay(now, day)
  {
    now / SecondsPerDay
  }

  /** `!createdAt.isBefore(dayStart) && !createdAt.isAfter(dayEnd)` with the end at the day's last second. */
  predicate InDay(createdAt: int, day: int) {
    day * SecondsPerDay <= createdAt <= day * SecondsPerDay + SecondsPerDay - 1
  }

  /** The completed orders of `day`, in store order. */
  function DayOrders(completed: seq<Order>, day: int): (r: seq<Order>)
    ensures forall o :: o in r <==> o in completed && InDay(o.createdAt, day)
  {
    Seqs.Filter(completed, (o: Order) => InDay(o.createdAt, day))
  }

  /** The orders of `dayOrders` that belong to `shop`, compared by id. */
  function ShopOrders(dayOrders: seq<Order>, shop: CoffeeShop): (r: seq<Order>)
    ensures forall o :: o in r <==> o in dayOrders && o.shop.id == shop.id
  {
    Seqs.Filter(dayOrders, (o: Order) => o.shop.id == shop.id)
  }

  /** The sum of the prices of `orders`. */
  function Revenue(orders: seq<Order>): int
    decreases |orders|
  {
    if orders == [] then 0 else Revenue(orders[..|orders| - 1]) + orders[|orders| - 1].totalPrice
  }

  /** One shop's (order count, revenue) for the day. */
  function Tally(dayOrders: seq<Order>, shop: CoffeeShop): (int, int) {
    var mine := ShopOrders(dayOrders, shop);
    (|mine|, Revenue(mine))
  }

  /** The sum of the shops' counts. */
  function TotalCount(dayOrders: seq<Order>, shops: seq<CoffeeShop>): int
    decreases |shops|
  {
    if shops == [] then 0
    else TotalCount(dayOrders, shops[..|shops| - 1]) + Tally(dayOrders, shops[|shops| - 1]).0
  }

  /** The sum of the shops' revenues. */
  function TotalRevenue(dayOrders: seq<Order>, shops: seq<CoffeeShop>): int
    decreases |shops|
  {
    if shops == [] then 0
    else TotalRevenue(dayOrders, shops[..|shops| - 1]) + Tally(dayOrders, shops[|shops| - 1]).1
  }

  /**
   * The per-shop table keyed by shop name as `HashMap.put` builds it: shops
   * are entered in list order, so a later shop overwrites an earlier one of
   * the same name.
   */
  function TallyTable(dayOrders: seq<Order>, shops: seq<CoffeeShop>): (t: map<string, (int, int)>)
    ensures t.Keys == set s | s in shops :: s.name
    decreases |shops|
  {
    if shops == [] then map[]
    else
      var init := shops[..|shops| - 1];
      var last := shops[|shops| - 1];
      assert shops == init + [last];
      TallyTable(dayOrders, init)[last.name := Tally(dayOrders, last)]
  }

  /** With distinct shop names, each shop's entry is its own tally. */
  lemma {:induction false} TallyTableEntry(dayOrders: seq<Order>, shops: seq<CoffeeShop>, k: nat)
    requires k < |shops|
    requires forall i, j :: 0 <= i < j < |shops| ==> shops[i].name != shops[j].name
    ensures TallyTable(dayOrders, shops)[shops[k].name] == Tally(dayOrders, shops[k])
    decreases |shops|
  {
    if k < |shops| - 1 {
      TallyTableEntry(dayOrders, shops[..|shops| - 1], k);
    }
  }

  /** With no completed order, every counter and both totals are zero. */
  lemma {:induction false} NoOrdersAllZero(shops: seq<CoffeeShop>)
    ensures TotalCount([], shops) == 0 && TotalRevenue([], shops) == 0
    ensures forall n :: n in TallyTable([], shops) ==> TallyTable([], shops)[n] == (0, 0)
    decreases |shops|
  {
    if shops != [] {
      NoOrdersAllZero(shops[..|shops| - 1]);
    }
  }

  /** A shop with no completed order on the day has the entry 0/0; it is still listed. */
  lemma IdleShopTally(dayOrders: seq<Order>, shop: CoffeeShop)
    requires forall o :: o in dayOrders ==> o.shop.id != shop.id
    ensures Tally(dayOrders, shop) == (0, 0)
  {
    Seqs.FilterNone(dayOrders, (o: Order) => o.shop.id == shop.id);
  }

  /** Revenue of prices that are never negative is never negative. */
  lemma {:induction false} RevenueNonNegative(orders: seq<Order>)
    requires forall o :: o in orders ==> o.totalPrice >= 0
    ensures Revenue(orders) >= 0
    decreases |orders|
  {
    if orders != [] {
      assert forall o :: o in orders[..|orders| - 1] ==> o in orders;
      RevenueNonNegative(orders[..|orders| - 1]);
    }
  }

  /** One more shop in the list: its tally is added to the totals and entered under its name. */
  lemma TallyStep(dayOrders: seq<Order>, shops: seq<CoffeeShop>, k: nat)
    requires k < |shops|
    ensures var t := Tally(dayOrders, shops[k]);
      && TotalCount(dayOrders, shops[..k + 1]) == TotalCount(dayOrders, shops[..k]) + t.0
      && TotalRevenue(dayOrders, shops[..k + 1]) == TotalRevenue(dayOrders, shops[..k]) + t.1
      && TallyTable(dayOrders, shops[..k + 1]) == TallyTable(dayOrders, shops[..k])[shops[k].name := t]
  {
    assert shops[..k + 1][..k] == shops[..k];
  }

  /** The counters of one shop (`CoffeeShopStats`). */
  class CoffeeShopStats {
    const name: string
    var orderCount: int
    var totalRevenue: int

    /** A new counter starts at zero orders and zero revenue. */
    constructor (name: string)
      ensures this.name == name && orderCount == 0 && totalRevenue == 0
    {
      this.name := name;
      orderCount := 0;
      totalRevenue := 0;
    }

    /** `addOrder`: one more order, its price added to the revenue. */
    method AddOrder(order: Order)
      modifies this
      ensures orderCount == old(orderCount) + 1
      ensures totalRevenue == old(totalRevenue) + order.totalPrice
    {
      orderCount := orderCount + 1;
      totalRevenue := totalRevenue + order.totalPrice;
    }
  }

  /** The day's report (`DailyStats`): per-shop counters under shop names and the totals. */
  class DailyStats {
    const date: int
    var coffeeShopStats: map<string, CoffeeShopStats>
    var totalOrderCount: int
    var totalRevenue: int

    constructor (date: int)
      ensures this.date == date && coffeeShopStats == map[] && totalOrderCount == 0 && totalRevenue == 0
    {
      this.date := date;
      coffeeShopStats := map[];
      totalOrderCount := 0;
      totalRevenue := 0;
    }

    /** `addShopStats`: the entry goes under the shop's name and its counters are added to the totals. */
    method AddShopStats(shopStats: CoffeeShopStats)
      modifies this
      ensures coffeeShopStats == old(coffeeShopStats)[shopStats.name := shopStats]
      ensures totalOrderCount == old(totalOrderCount) + shopStats.orderCount
      ensures totalRevenue == old(totalRevenue) + shopStats.totalRevenue
    {
      coffeeShopStats := coffeeShopStats[shopStats.name := shopStats];
      totalOrderCount := totalOrderCount + shopStats.orderCount;
      totalRevenue := totalRevenue + shopStats.totalRevenue;
    }
  }

  /** The counters of one shop over the day's orders, added one order at a time. */
  method CountShop(dayOrders: seq<Order>, shop: CoffeeShop) returns (stats: CoffeeShopStats)
    ensures fresh(stats)
    ensures stats.name == shop.name
    ensures (stats.orderCount, stats.totalRevenue) == Tally(dayOrders, shop)
  {
    stats := new CoffeeShopStats(shop.name);
    var shopOrders := ShopOrders(dayOrders, shop);
    var i := 0;
    while i < |shopOrders|
      invariant 0 <= i <= |shopOrders|
      invariant stats.orderCount == i && stats.totalRevenue == Revenue(shopOrders[..i])
    {
      assert shopOrders[..i + 1][..i] == shopOrders[..i];
      stats.AddOrder(shopOrders[i]);
      i := i + 1;
    }
    assert shopOrders[..i] == shopOrders;
  }

  /** The counters under each name hold the figures of `table` under that name, and no other name is listed. */
  ghost predicate Reports(stats: map<string, CoffeeShopStats>, table: map<string, (int, int)>)
    reads set n | n in stats :: stats[n]
  {
    && stats.Keys == table.Keys
    && forall n :: n in stats ==> (stats[n].orderCount, stats[n].totalRevenue) == table[n]
  }

  /** Entering one more counter under its name enters its figures. */
  lemma ReportsPut(stats: map<string, CoffeeShopStats>, table: map<string, (int, int)>, s: CoffeeShopStats)
    requires Reports(stats, table)
    ensures Reports(stats[s.name := s], table[s.name := (s.orderCount, s.totalRevenue)])
  {
  }

  /**
   * `getDayStats`: every active shop gets an entry with the count and revenue
   * of its COMPLETED orders created on `day`; the totals are the sums over the
   * active shops, so orders of inactive shops are not counted.
   */
  method GetDayStats(orders: OrderService, shops: CoffeeShopService, day: int) returns (d: DailyStats)
    ensures fresh(d) && d.date == day
    ensures var dayOrders := DayOrders(orders.GetOrdersByStatus(COMPLETED), day);
      var active := shops.GetAllActiveShops();
      && d.totalOrderCount == TotalCount(dayOrders, active)
      && d.totalRevenue == TotalRevenue(dayOrders, active)
      && d.coffeeShopStats.Keys == TallyTable(dayOrders, active).Keys
      && forall n :: n in d.coffeeShopStats ==>
           (d.coffeeShopStats[n].orderCount, d.coffeeShopStats[n].totalRevenue) == TallyTable(dayOrders, active)[n]
  {
    var completedOrders := DayOrders(orders.GetOrdersByStatus(COMPLETED), day);
    var coffeeShops := shops.GetAllActiveShops();
    d := new DailyStats(day);
    var k := 0;
    while k < |coffeeShops|
      invariant 0 <= k <= |coffeeShops|
      invariant fresh(d) && d.date == day
      invariant d.totalOrderCount == TotalCount(completedOrders, coffeeShops[..k])
      invariant d.totalRevenue == TotalRevenue(completedOrders, coffeeShops[..k])
      invariant Reports(d.coffeeShopStats, TallyTable(completedOrders, coffeeShops[..k]))
    {
      AddShop(d, completedOrders, coffeeShops, k);
      k := k + 1;
    }
    assert coffeeShops[..k] == coffeeShops;
  }

  /** One round of `getDayStats`'s loop: count shop `k` and add its counters to the report. */
  method AddShop(d: DailyStats, dayOrders: seq<Order>, shops: seq<CoffeeShop>, k: nat)
    requires k < |shops|
    requires d.totalOrderCount == TotalCount(dayOrders, shops[..k])
    requires d.totalRevenue == TotalRevenue(dayOrders, shops[..k])
    requires Reports(d.coffeeShopStats, TallyTable(dayOrders, shops[..k]))
    modifies d
    ensures d.totalOrderCount == TotalCount(dayOrders, shops[..k + 1])
    ensures d.totalRevenue == TotalRevenue(dayOrders, shops[..k + 1])
    ensures Reports(d.coffeeShopStats, TallyTable(dayOrders, shops[..k + 1]))
  {
    TallyStep(dayOrders, shops, k);
    var shopStats := CountShop(dayOrders, shops[k]);
    ReportsPut(d.coffeeShopStats, TallyTable(dayOrders, shops[..k]), shopStats);
    d.AddShopStats(shopStats);
  }
}
