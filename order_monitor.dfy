/**
 * The admin-side escalation state: the registry of admins who watch pending
 * orders, the ledger of order numbers already reported to them, the
 * delayed-order filter and the hourly cleanup sweep of the ledger.
 *
 * Both `HashMap<_, Boolean>` fields only ever hold `true`, so each is a set
 * of its keys.
 */
module OrderMonitor {
  import opened Wrappers
  import opened OrderEntity
  import opened OrderStore
  import Seqs

  /** A pending order is delayed once it has waited five whole minutes. */
  const DelayMinutes := 5

  /** The (order, wait) entry of every order in `pending` whose wait is at least five minutes, in list order. */
  function DelayedEntries(pending: seq<Order>, now: int): (r: seq<(Order, int)>)
    ensures |r| <= |pending|
    decreases |pending|
  {
    if pending == [] then [] else DelayedEntry(pending[0], now) + DelayedEntries(pending[1..], now)
  }

  /** The entry of one order: the order with its wait when it has waited five minutes or more. */
  function DelayedEntry(o: Order, now: int): seq<(Order, int)> {
    var w := WaitMinutes(o.createdAt, now);
    if w >= DelayMinutes then [(o, w)] else []
  }

  /** The entries of `DelayedEntries` are exactly the delayed orders of the list, each with its own wait. */
  lemma {:induction false} DelayedEntriesMembers(pending: seq<Order>, now: int, e: (Order, int))
    ensures e in DelayedEntries(pending, now) <==>
      e.0 in pending && e.1 == WaitMinutes(e.0.createdAt, now) && e.1 >= DelayMinutes
    decreases |pending|
  {
    if pending != [] {
      DelayedEntriesMembers(pending[1..], now, e);
      assert pending == [pending[0]] + pending[1..];
    }
  }

  /** One step of a scan over `pending`: the entry of position `i`, if any, then the rest. */
  lemma DelayedEntriesStep(pending: seq<Order>, i: nat, now: int)
    requires i < |pending|
    ensures DelayedEntries(pending[i..], now) == DelayedEntry(pending[i], now) + DelayedEntries(pending[i + 1..], now)
  {
    assert pending[i..][0] == pending[i] && pending[i..][1..] == pending[i + 1..];
  }

  function Orders(entries: seq<(Order, int)>): (r: seq<Order>)
    ensures |r| == |entries|
    ensures forall i :: 0 <= i < |r| ==> r[i] == entries[i].0
  {
    if entries == [] then [] else [entries[0].0] + Orders(entries[1..])
  }

  /** The delayed list keeps its orders in the order of the input: it is that list filtered. */
  lemma {:induction false} DelayedEntriesInOrder(pending: seq<Order>, now: int)
    ensures Orders(DelayedEntries(pending, now))
      == Seqs.Filter(pending, (o: Order) => WaitMinutes(o.createdAt, now) >= DelayMinutes)
    decreases |pending|
  {
    if pending != [] {
      DelayedEntriesInOrder(pending[1..], now);
      OrdersAppend(DelayedEntry(pending[0], now), DelayedEntries(pending[1..], now));
    }
  }

  lemma OrdersAppend(a: seq<(Order, int)>, b: seq<(Order, int)>)
    ensures Orders(a + b) == Orders(a) + Orders(b)
  {
  }

  /** The text of every order number in `rows`. */
  ghost function NumberSet(rows: seq<Order>): set<string> {
    set o | o in rows :: o.OrderNumber()
  }

  /** One ledger operation: marking or clearing an order number. */
  datatype LedgerOp = Mark(number: string) | Clear(number: string)

  /** The ledger after the operations, applied first to last. */
  function Replay(ledger: set<string>, ops: seq<LedgerOp>): set<string>
    decreases |ops|
  {
    if ops == [] then ledger
    else
      var last := ops[|ops| - 1];
      var before := Replay(ledger, ops[..|ops| - 1]);
      match last
      case Mark(n) => before + {n}
      case Clear(n) => before - {n}
  }

  /** The last operation on `n` in `ops`: true for a mark, false for a clear. */
  function LastOpOn(ops: seq<LedgerOp>, n: string): Option<bool>
    decreases |ops|
  {
    if ops == [] then None
    else if ops[|ops| - 1].number == n then Some(ops[|ops| - 1].Mark?)
    else LastOpOn(ops[..|ops| - 1], n)
  }

  /** An order is in the ledger iff it was marked and not cleared since (or was there and untouched). */
  lemma {:induction false} NotifiedIffMarkedSinceCleared(ledger: set<string>, ops: seq<LedgerOp>, n: string)
    ensures n in Replay(ledger, ops) <==>
      match LastOpOn(ops, n)
      case None => n in ledger
      case Some(marked) => marked
    decreases |ops|
  {
    if ops != [] {
      NotifiedIffMarkedSinceCleared(ledger, ops[..|ops| - 1], n);
    }
  }

  lemma NonEmptyHasElement(s: set<int>)
    requires s != {}
    ensures exists x :: x in s
  {
    if forall x :: x !in s {
      assert false;
    }
  }

  class OrderMonitorService {
    const orderService: OrderService
    /** Chat ids of the admins registered for monitoring. */
    var adminMonitors: set<int>
    /** Order numbers already reported to the admins. */
    var notifiedOrders: set<string>

    constructor (orders: OrderService)
      ensures orderService == orders && adminMonitors == {} && notifiedOrders == {}
    {
      orderService := orders;
      adminMonitors := {};
      notifiedOrders := {};
    }

    /** `registerAdminMonitor`: adds the admin (again, harmlessly); the ledger is untouched. */
    method RegisterAdminMonitor(adminChatId: int)
      modifies this
      ensures adminMonitors == old(adminMonitors) + {adminChatId}
      ensures notifiedOrders == old(notifiedOrders)
    {
      adminMonitors := adminMonitors + {adminChatId};
    }

    /** `unregisterAdminMonitor`: removes only that admin; the ledger is untouched. */
    method UnregisterAdminMonitor(adminChatId: int)
      modifies this
      ensures adminMonitors == old(adminMonitors) - {adminChatId}
      ensures notifiedOrders == old(notifiedOrders)
    {
      adminMonitors := adminMonitors - {adminChatId};
    }

    /**
     * `getActiveAdminMonitors`: the registered admins as a list, once each. The
     * order of a `HashMap` key set is unspecified, so each next element is any
     * one not yet taken.
     */
    method GetActiveAdminMonitors() returns (r: seq<int>)
      ensures forall a :: a in r <==> a in adminMonitors
      ensures forall i, j :: 0 <= i < j < |r| ==> r[i] != r[j]
      ensures |r| == |adminMonitors|
    {
      r := [];
      var rest := adminMonitors;
      while rest != {}
        invariant forall a :: a in r ==> a !in rest
        invariant forall a :: a in adminMonitors <==> a in r || a in rest
        invariant forall i, j :: 0 <= i < j < |r| ==> r[i] != r[j]
        invariant |r| + |rest| == |adminMonitors|
        decreases |rest|
      {
        NonEmptyHasElement(rest);
        var next :| next in rest;
        r := r + [next];
        rest := rest - {next};
      }
    }

    /** `getDelayedPendingOrders`: each PENDING order that has waited at least five minutes, with its wait. */
    method GetDelayedPendingOrders(now: int) returns (r: seq<(Order, int)>)
      ensures r == DelayedEntries(orderService.GetOrdersByStatus(PENDING), now)
    {
      var pending := orderService.GetOrdersByStatus(PENDING);
      r := [];
      var i := 0;
      while i < |pending|
        invariant 0 <= i <= |pending|
        invariant r + DelayedEntries(pending[i..], now) == DelayedEntries(pending, now)
      {
        var o := pending[i];
        var waitTimeMinutes := WaitMinutes(o.createdAt, now);
        DelayedEntriesStep(pending, i, now);
        ghost var before := r;
        if waitTimeMinutes >= DelayMinutes {
          r := r + [(o, waitTimeMinutes)];
        }
        assert r == before + DelayedEntry(o, now);
        Seqs.AppendAssoc(before, DelayedEntry(o, now), DelayedEntries(pending[i + 1..], now));
        i := i + 1;
      }
    }

    /** `isOrderAlreadyNotified` */
    predicate IsOrderAlreadyNotified(orderNumber: string)
      reads this
    {
      orderNumber in notifiedOrders
    }

    /** `markOrderAsNotified`: idempotent; the registry is untouched. */
    method MarkOrderAsNotified(orderNumber: string)
      modifies this
      ensures notifiedOrders == Replay(old(notifiedOrders), [Mark(orderNumber)])
      ensures IsOrderAlreadyNotified(orderNumber)
      ensures adminMonitors == old(adminMonitors)
    {
      notifiedOrders := notifiedOrders + {orderNumber};
    }

    /** `clearOrderNotification`: removes only that number (a no-op when absent); the registry is untouched. */
    method ClearOrderNotification(orderNumber: string)
      modifies this
      ensures notifiedOrders == Replay(old(notifiedOrders), [Clear(orderNumber)])
      ensures !IsOrderAlreadyNotified(orderNumber)
      ensures adminMonitors == old(adminMonitors)
    {
      notifiedOrders := notifiedOrders - {orderNumber};
    }

    /** Clears the ledger entry of every order in `rows`, one by one. */
    method ClearAll(rows: seq<Order>)
      modifies this
      ensures notifiedOrders == old(notifiedOrders) - NumberSet(rows)
      ensures adminMonitors == old(adminMonitors)
    {
      var i := 0;
      while i < |rows|
        invariant 0 <= i <= |rows|
        invariant notifiedOrders == old(notifiedOrders) - NumberSet(rows[..i])
        invariant adminMonitors == old(adminMonitors)
      {
        assert NumberSet(rows[..i + 1]) == NumberSet(rows[..i]) + {rows[i].OrderNumber()} by {
          assert rows[..i + 1] == rows[..i] + [rows[i]];
        }
        ClearOrderNotification(rows[i].OrderNumber());
        i := i + 1;
      }
      assert rows[..i] == rows;
    }

    /**
     * `cleanupOldNotifications`: the ledger loses the numbers of all COMPLETED,
     * IN_PREPARATION and READY orders. CANCELLED is not swept.
     */
    method CleanupOldNotifications()
      modifies this
      ensures notifiedOrders == old(notifiedOrders) - SweptNumbers(orderService.orders)
      ensures adminMonitors == old(adminMonitors)
    {
      var completedOrders := orderService.GetOrdersByStatus(COMPLETED);
      var inProgressOrders := orderService.GetOrdersByStatus(IN_PREPARATION);
      var readyOrders := orderService.GetOrdersByStatus(READY);
      ClearAll(completedOrders);
      ClearAll(inProgressOrders);
      ClearAll(readyOrders);
      assert SweptNumbers(orderService.orders)
        == NumberSet(completedOrders) + NumberSet(inProgressOrders) + NumberSet(readyOrders);
    }
  }

  /** The statuses whose ledger entries the sweep removes. */
  predicate Swept(s: OrderStatus) {
    s == COMPLETED || s == IN_PREPARATION || s == READY
  }

  /** The numbers of the orders in `rows` whose status is swept. */
  ghost function SweptNumbers(rows: seq<Order>): set<string> {
    set o | o in rows && Swept(o.status) :: o.OrderNumber()
  }

  /**
   * With distinct order numbers, the ledger entry of a PENDING or CANCELLED
   * order survives the sweep, and that of any other stored order does not.
   */
  lemma SweepKeepsPendingAndCancelled(rows: seq<Order>, k: nat)
    requires DistinctNumbers(rows) && k < |rows|
    ensures rows[k].OrderNumber() in SweptNumbers(rows) <==> Swept(rows[k].status)
  {
    if !Swept(rows[k].status) && rows[k].OrderNumber() in SweptNumbers(rows) {
      var o :| o in rows && Swept(o.status) && o.OrderNumber() == rows[k].OrderNumber();
      var j :| 0 <= j < |rows| && rows[j] == o;
      Text.NumberTextInjective(o.number, rows[k].number);
      assert false;
    }
  }
}
