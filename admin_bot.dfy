/**
 * The admin bot: per chat a state; the monitoring menu registers the chat
 * with the order monitor, the order views list pending and delayed orders,
 * the statistics menu shows the day's report, a delayed order's button sends
 * a reminder to a barista, and the scheduled check escalates every order that
 * has waited ten minutes to the registered admins, once.
 *
 * Replies are modelled by what they offer (keyboard labels, the listed orders
 * with their wait, the callback data of inline buttons, the report's figures);
 * message texts are not modelled.
 */
module AdminDialogue {
  import opened Wrappers
  import opened Text
  import opened OrderEntity
  import opened OrderStore
  import opened ShopDirectory
  import opened OrderMonitor
  import Statistics
  import BaristaDialogue
  import Seqs

  datatype AdminState = START | MONITORING | MONITORING_ALL_ORDERS | MONITORING_DELAYED_ORDERS | VIEWING_STATISTICS

  // Texts the bot reacts to
  const StartCommand := "/start"
  const MonitoringText := "Мониторинг заказов"
  const StatisticsText := "Статистика"
  const MainMenuText := "Вернуться в главное меню"
  const AllOrdersText := "Все заказы"
  const DelayedOrdersText := "Заказы с задержкой"
  const CheckOrdersText := "Проверить заказы"
  const BackText := "Назад"
  const DailyReportText := "Отчёт за день"

  // The reply keyboards
  const WelcomeButtons := [MonitoringText, StatisticsText]
  const MonitoringButtons := [AllOrdersText, DelayedOrdersText, MainMenuText]
  const StatisticsButtons := [DailyReportText, MainMenuText]

  /** The wait, in minutes, from which the scheduled check escalates an order. */
  const CriticalMinutes := 10

  /** The barista chat every reminder button addresses; a fixed placeholder, not a lookup. */
  const BaristaChatId := 987654321

  const NotifyPrefix := "notify_barista:"

  /**
   * The listing mark of an order by its wait: ⚠️ from ten minutes, ⏰ from five,
   * ✅ below. The marks agree with the monitor and the scheduled check: an
   * order is marked ⏰ or ⚠️ exactly when the monitor counts it as delayed, and
   * ⚠️ exactly when the check escalates it.
   */
  function WaitIndicator(wait: int): (r: string)
    ensures r != "✅ " <==> wait >= DelayMinutes
    ensures r == "⚠️ " <==> wait >= CriticalMinutes
  {
    if wait >= CriticalMinutes then "⚠️ " else if wait >= DelayMinutes then "⏰ " else "✅ "
  }

  /** The callback data of a delayed order's reminder button. */
  function NotifyData(orderNumber: string, baristaChat: nat): string {
    NotifyPrefix + orderNumber + ":" + NumberText(baristaChat)
  }

  /**
   * The routing of admin callback data: after the prefix, `split(":")` gives
   * the order number and the barista chat, which `Long.parseLong` reads. No
   * prefix is ignored; a missing or unreadable chat field is an exception
   * that ends the update. Both are None.
   */
  function NotifyRoute(data: string): (r: Option<(string, int)>)
    ensures r.Some? ==> StartsWith(data, NotifyPrefix)
  {
    if StartsWith(data, NotifyPrefix) then
      match TwoFields(data[|NotifyPrefix|..])
      case None => None
      case Some(fields) =>
        match ParseLong(fields.1)
        case None => None
        case Some(chat) => Some((fields.0, chat))
    else None
  }

  /** A reminder button made for an order routes back to that order and that barista. */
  lemma NotifyRoundTrip(o: Order, baristaChat: nat)
    ensures NotifyRoute(NotifyData(o.OrderNumber(), baristaChat)) == Some((o.OrderNumber(), baristaChat))
  {
    var n := o.OrderNumber();
    var c := NumberText(baristaChat);
    NumberTextDigits(o.number);
    NumberTextDigits(baristaChat);
    var data := NotifyData(n, baristaChat);
    assert data == NotifyPrefix + (n + ":" + c);
    assert data[..|NotifyPrefix|] == NotifyPrefix;
    assert data[|NotifyPrefix|..] == n + ":" + c;
    TwoFieldsJoin(n, c);
    ParseNumberText(baristaChat);
  }

  /** One delayed-order message of the scheduled check, sent to an admin. */
  datatype Alert = Alert(admin: int, order: Order, wait: int)

  /** One `notifyBarista` call: the barista chat, the order, its wait, and the data of its take button. */
  datatype Reminder = Reminder(barista: int, order: Order, wait: int, takeData: string)

  /** The reminder `handleNotifyBarista` sends for a pending order. */
  function ReminderFor(baristaChat: int, o: Order, now: int): Reminder {
    Reminder(baristaChat, o, WaitMinutes(o.createdAt, now), BaristaDialogue.TakePrefix + o.OrderNumber())
  }

  /** The reminder's button, pressed in the barista bot, takes exactly that order. */
  lemma ReminderTakesItsOrder(baristaChat: int, o: Order, now: int)
    ensures BaristaDialogue.ParseCallback(ReminderFor(baristaChat, o, now).takeData) == BaristaDialogue.Take(o.OrderNumber())
  {
    BaristaDialogue.CallbackRoundTrip(o.OrderNumber());
  }

  function WaitOf(e: (Order, int)): int {
    e.1
  }

  predicate IsCritical(e: (Order, int)) {
    e.1 >= CriticalMinutes
  }

  /** The delayed entries the scheduled check escalates: ten minutes or more, longest wait first. */
  function Criticals(delayed: seq<(Order, int)>): (r: seq<(Order, int)>)
    ensures forall e :: e in r <==> e in delayed && e.1 >= CriticalMinutes
    ensures Seqs.SortedDesc(r, WaitOf)
  {
    var kept := Seqs.Filter(delayed, IsCritical);
    Seqs.SortDescSorted(kept, WaitOf);
    var sorted := Seqs.SortDesc(kept, WaitOf);
    assert forall e :: e in sorted <==> e in multiset(kept);
    sorted
  }

  /** The escalated entries are exactly the pending orders that waited ten minutes or more, with their wait, longest first. */
  lemma CriticalsAreLongWaits(pending: seq<Order>, now: int, e: (Order, int))
    ensures e in Criticals(DelayedEntries(pending, now)) <==>
      e.0 in pending && e.1 == WaitMinutes(e.0.createdAt, now) && e.1 >= CriticalMinutes
    ensures Seqs.SortedDesc(Criticals(DelayedEntries(pending, now)), WaitOf)
  {
    DelayedEntriesMembers(pending, now, e);
  }

  /** The order numbers of some entries. */
  ghost function NumbersOf(entries: seq<(Order, int)>): set<string> {
    set e | e in entries :: e.0.OrderNumber()
  }

  /** The order numbers some alerts are about. */
  ghost function AlertNumbers(alerts: seq<Alert>): set<string> {
    set a | a in alerts :: a.order.OrderNumber()
  }

  /**
   * One admin's pass over the critical entries, first to last: an entry whose
   * number is not in the ledger is sent and its number marked at once. The
   * alerts sent and the ledger afterwards.
   */
  function PassAlerts(admin: int, ledger: set<string>, crits: seq<(Order, int)>): (r: (seq<Alert>, set<string>))
    ensures forall k :: 0 <= k < |r.0| ==> r.0[k].admin == admin && r.0[k].order.OrderNumber() !in ledger
    ensures ledger <= r.1
    decreases |crits|
  {
    if crits == [] then ([], ledger)
    else
      var n := crits[0].0.OrderNumber();
      if n in ledger then PassAlerts(admin, ledger, crits[1..])
      else
        var rest := PassAlerts(admin, ledger + {n}, crits[1..]);
        ([Alert(admin, crits[0].0, crits[0].1)] + rest.0, rest.1)
  }

  /** The passes of the admins in list order, each starting from the ledger the previous one left. */
  function RoundAlerts(admins: seq<int>, ledger: set<string>, crits: seq<(Order, int)>): (r: (seq<Alert>, set<string>))
    ensures forall k :: 0 <= k < |r.0| ==> r.0[k].admin in admins && r.0[k].order.OrderNumber() !in ledger
    ensures ledger <= r.1
    decreases |admins|
  {
    if admins == [] then ([], ledger)
    else
      var pass := PassAlerts(admins[0], ledger, crits);
      var rest := RoundAlerts(admins[1..], pass.1, crits);
      (pass.0 + rest.0, rest.1)
  }

  lemma NumbersOfCons(crits: seq<(Order, int)>)
    requires crits != []
    ensures NumbersOf(crits) == {crits[0].0.OrderNumber()} + NumbersOf(crits[1..])
  {
    assert crits == [crits[0]] + crits[1..];
  }

  /** After one pass every critical number is in the ledger, and nothing else was added. */
  lemma {:induction false} PassMarksAll(admin: int, ledger: set<string>, crits: seq<(Order, int)>)
    ensures PassAlerts(admin, ledger, crits).1 == ledger + NumbersOf(crits)
    decreases |crits|
  {
    if crits == [] {
      assert NumbersOf(crits) == {};
    } else {
      NumbersOfCons(crits);
      var n := crits[0].0.OrderNumber();
      if n in ledger {
        PassMarksAll(admin, ledger, crits[1..]);
      } else {
        PassMarksAll(admin, ledger + {n}, crits[1..]);
      }
    }
  }

  /** A pass sends exactly the critical numbers the ledger did not hold, to its admin, each with its entry's wait. */
  lemma {:induction false} PassSendsUnmarked(admin: int, ledger: set<string>, crits: seq<(Order, int)>)
    ensures AlertNumbers(PassAlerts(admin, ledger, crits).0) == NumbersOf(crits) - ledger
    ensures forall a :: a in PassAlerts(admin, ledger, crits).0 ==> a.admin == admin && (a.order, a.wait) in crits
    decreases |crits|
  {
    if crits == [] {
      assert NumbersOf(crits) == {};
    } else {
      NumbersOfCons(crits);
      var n := crits[0].0.OrderNumber();
      var tail := crits[1..];
      if n in ledger {
        PassSendsUnmarked(admin, ledger, tail);
      } else {
        PassSendsUnmarked(admin, ledger + {n}, tail);
        var rest := PassAlerts(admin, ledger + {n}, tail).0;
        var sent := PassAlerts(admin, ledger, crits).0;
        assert sent == [Alert(admin, crits[0].0, crits[0].1)] + rest;
        assert AlertNumbers(sent) == {n} + AlertNumbers(rest);
      }
    }
  }

  /** No two alerts are about the same order number. */
  ghost predicate DistinctAlerts(sent: seq<Alert>) {
    forall i, j :: 0 <= i < j < |sent| ==> sent[i].order.OrderNumber() != sent[j].order.OrderNumber()
  }

  /** A pass never sends the same order number twice. */
  lemma {:induction false} PassSendsOnce(admin: int, ledger: set<string>, crits: seq<(Order, int)>)
    ensures DistinctAlerts(PassAlerts(admin, ledger, crits).0)
    decreases |crits|
  {
    if crits != [] {
      var n := crits[0].0.OrderNumber();
      var tail := crits[1..];
      if n in ledger {
        PassSendsOnce(admin, ledger, tail);
        assert PassAlerts(admin, ledger, crits).0 == PassAlerts(admin, ledger, tail).0;
      } else {
        PassSendsOnce(admin, ledger + {n}, tail);
        PassSendsUnmarked(admin, ledger + {n}, tail);
        var rest := PassAlerts(admin, ledger + {n}, tail).0;
        var sent := PassAlerts(admin, ledger, crits).0;
        assert sent == [Alert(admin, crits[0].0, crits[0].1)] + rest;
        forall i, j | 0 <= i < j < |sent| ensures sent[i].order.OrderNumber() != sent[j].order.OrderNumber() {
          assert sent[j] == rest[j - 1];
          if i == 0 {
            assert sent[j].order.OrderNumber() in AlertNumbers(rest);
          } else {
            assert sent[i] == rest[i - 1];
          }
        }
      }
    }
  }

  /** A ledger that already holds every critical number sends nothing and stays as it is. */
  lemma {:induction false} SilentWhenAllNotified(admin: int, ledger: set<string>, crits: seq<(Order, int)>)
    requires NumbersOf(crits) <= ledger
    ensures PassAlerts(admin, ledger, crits) == ([], ledger)
    decreases |crits|
  {
    if crits != [] {
      NumbersOfCons(crits);
      SilentWhenAllNotified(admin, ledger, crits[1..]);
    }
  }

  /**
   * Because the ledger is marked inside the per-admin loop, the first admin's
   * pass sends everything and the later admins receive nothing; with no admin
   * nothing is sent and nothing marked.
   */
  lemma RoundGoesToFirstAdmin(admins: seq<int>, ledger: set<string>, crits: seq<(Order, int)>)
    ensures admins == [] ==> RoundAlerts(admins, ledger, crits) == ([], ledger)
    ensures admins != [] ==>
      RoundAlerts(admins, ledger, crits) == (PassAlerts(admins[0], ledger, crits).0, ledger + NumbersOf(crits))
  {
    if admins != [] {
      var pass := PassAlerts(admins[0], ledger, crits);
      PassMarksAll(admins[0], ledger, crits);
      LaterAdminsSilent(admins[1..], pass.1, crits);
      assert pass.0 + [] == pass.0;
    }
  }

  lemma {:induction false} LaterAdminsSilent(admins: seq<int>, ledger: set<string>, crits: seq<(Order, int)>)
    requires NumbersOf(crits) <= ledger
    ensures RoundAlerts(admins, ledger, crits) == ([], ledger)
    decreases |admins|
  {
    if admins != [] {
      SilentWhenAllNotified(admins[0], ledger, crits);
      LaterAdminsSilent(admins[1..], ledger, crits);
      var pass := PassAlerts(admins[0], ledger, crits);
      var rest := RoundAlerts(admins[1..], pass.1, crits);
      assert pass.0 == [] && pass.1 == ledger;
      assert rest.0 == [] && rest.1 == ledger;
      assert pass.0 + rest.0 == [];
    }
  }

  /** One row of the all-orders listing: the order, its wait and its mark. */
  datatype BoardRow = BoardRow(order: Order, wait: int, indicator: string)

  function BoardRows(orders: seq<Order>, now: int): (r: seq<BoardRow>)
    ensures |r| == |orders|
    ensures forall k :: 0 <= k < |r| ==> r[k].order == orders[k]
    ensures forall k :: 0 <= k < |r| ==>
      r[k].wait == WaitMinutes(orders[k].createdAt, now) && r[k].indicator == WaitIndicator(r[k].wait)
    decreases |orders|
  {
    if orders == [] then []
    else
      var w := WaitMinutes(orders[0].createdAt, now);
      [BoardRow(orders[0], w, WaitIndicator(w))] + BoardRows(orders[1..], now)
  }

  /** What a reply offers. */
  datatype Reply =
    | Message(buttons: seq<string>)                            // a text, with a reply keyboard when nonempty
    | Board(rows: seq<BoardRow>)                                // the all-orders listing, with the back button
    | DelayedCard(order: Order, wait: int, callback: string)    // one delayed order with its reminder button
    | Report(day: int, shops: map<string, (int, int)>, orderCount: int, revenue: int)

  /** The delayed view's order cards, one per entry. */
  function Cards(entries: seq<(Order, int)>): (r: seq<Reply>)
    ensures |r| == |entries|
    ensures forall k :: 0 <= k < |r| ==>
      r[k] == DelayedCard(entries[k].0, entries[k].1, NotifyData(entries[k].0.OrderNumber(), BaristaChatId))
    decreases |entries|
  {
    if entries == [] then []
    else [DelayedCard(entries[0].0, entries[0].1, NotifyData(entries[0].0.OrderNumber(), BaristaChatId))] + Cards(entries[1..])
  }

  /** The delayed view over the pending orders: the back button, then one card per delayed order, longest wait first. */
  function DelayedView(pending: seq<Order>, now: int): (r: seq<Reply>)
    ensures |r| >= 1 && r[0] == Message([BackText])
    ensures forall k :: 1 <= k < |r| ==>
      && r[k].DelayedCard? && r[k].order in pending
      && r[k].wait == WaitMinutes(r[k].order.createdAt, now) && r[k].wait >= DelayMinutes
    ensures forall k, l :: 1 <= k < l < |r| ==> r[k].wait >= r[l].wait
  {
    var sorted := Seqs.SortDesc(DelayedEntries(pending, now), WaitOf);
    SortedDelayedEntries(pending, now);
    [Message([BackText])] + Cards(sorted)
  }

  /** The delayed entries sorted by wait: longest first, each a listed order with its own wait of five minutes or more. */
  lemma SortedDelayedEntries(pending: seq<Order>, now: int)
    ensures var sorted := Seqs.SortDesc(DelayedEntries(pending, now), WaitOf);
      && Seqs.SortedDesc(sorted, WaitOf)
      && forall k :: 0 <= k < |sorted| ==>
        sorted[k].0 in pending && sorted[k].1 == WaitMinutes(sorted[k].0.createdAt, now) && sorted[k].1 >= DelayMinutes
  {
    var delayed := DelayedEntries(pending, now);
    var sorted := Seqs.SortDesc(delayed, WaitOf);
    Seqs.SortDescSorted(delayed, WaitOf);
    forall k | 0 <= k < |sorted|
      ensures sorted[k].0 in pending && sorted[k].1 == WaitMinutes(sorted[k].0.createdAt, now) && sorted[k].1 >= DelayMinutes
    {
      assert sorted[k] in multiset(delayed);
      DelayedEntriesMembers(pending, now, sorted[k]);
    }
  }

  /** Every entry of a list has its card. */
  lemma CardOfEntry(entries: seq<(Order, int)>, e: (Order, int))
    requires e in entries
    ensures DelayedCard(e.0, e.1, NotifyData(e.0.OrderNumber(), BaristaChatId)) in Cards(entries)
  {
    var k :| 0 <= k < |entries| && entries[k] == e;
    assert Cards(entries)[k] == DelayedCard(e.0, e.1, NotifyData(e.0.OrderNumber(), BaristaChatId));
  }

  /** No delayed order is missing from the delayed view: its card, with its wait and reminder button, is listed. */
  lemma DelayedViewComplete(pending: seq<Order>, now: int, o: Order)
    requires o in pending && WaitMinutes(o.createdAt, now) >= DelayMinutes
    ensures DelayedCard(o, WaitMinutes(o.createdAt, now), NotifyData(o.OrderNumber(), BaristaChatId)) in DelayedView(pending, now)
  {
    var e := (o, WaitMinutes(o.createdAt, now));
    var sorted := Seqs.SortDesc(DelayedEntries(pending, now), WaitOf);
    DelayedEntriesMembers(pending, now, e);
    assert e in multiset(sorted);
    CardOfEntry(sorted, e);
    DelayedViewCards(pending, now);
  }

  /** The delayed view is the back button followed by the cards of the sorted entries. */
  lemma DelayedViewCards(pending: seq<Order>, now: int)
    ensures DelayedView(pending, now) == [Message([BackText])] + Cards(Seqs.SortDesc(DelayedEntries(pending, now), WaitOf))
  {
  }

  /** What a text message leads to on screen. */
  datatype Screen = Welcome | MonitoringMenu | AllOrders | DelayedOrders | StatisticsMenu | DailyReport | Unknown

  /** What a text message does to the monitor registry. */
  datatype Registration = Keep | Register | Unregister

  /** A text message's effect on one chat: the state put (None: none), the registry change, the screen. */
  datatype Step = Step(state: Option<AdminState>, registration: Registration, screen: Screen)

  /** The text branch of `onUpdateReceived`. */
  function AdminStep(current: AdminState, text: string): (r: Step)
    ensures r.screen == Unknown ==> r.state.None? && r.registration == Keep
    ensures r.state == Some(MONITORING_ALL_ORDERS) || r.state == Some(MONITORING_DELAYED_ORDERS) ==> current == MONITORING
    ensures r.registration == Register ==> r.state == Some(MONITORING)
    ensures r.registration == Unregister ==> r.state == Some(START)
  {
    if text == StartCommand then Step(Some(START), Keep, Welcome)
    else
      match current
      case START =>
        if text == MonitoringText then Step(Some(MONITORING), Register, MonitoringMenu)
        else if text == StatisticsText then Step(Some(VIEWING_STATISTICS), Keep, StatisticsMenu)
        else Step(None, Keep, Unknown)
      case MONITORING =>
        if text == MainMenuText then Step(Some(START), Unregister, Welcome)
        else if text == AllOrdersText then Step(Some(MONITORING_ALL_ORDERS), Keep, AllOrders)
        else if text == DelayedOrdersText then Step(Some(MONITORING_DELAYED_ORDERS), Keep, DelayedOrders)
        else if text == CheckOrdersText then Step(None, Keep, MonitoringMenu)
        else Step(None, Keep, Unknown)
      case MONITORING_ALL_ORDERS =>
        if text == BackText then Step(Some(MONITORING), Keep, MonitoringMenu) else Step(None, Keep, Unknown)
      case MONITORING_DELAYED_ORDERS =>
        if text == BackText then Step(Some(MONITORING), Keep, MonitoringMenu) else Step(None, Keep, Unknown)
      case VIEWING_STATISTICS =>
        if text == DailyReportText then Step(None, Keep, DailyReport)
        else if text == MainMenuText then Step(Some(START), Keep, Welcome)
        else Step(None, Keep, Unknown)
  }

  /** The texts each state answers to, besides "/start". */
  function Accepted(current: AdminState): seq<string> {
    match current
    case START => [MonitoringText, StatisticsText]
    case MONITORING => [MainMenuText, AllOrdersText, DelayedOrdersText, CheckOrdersText]
    case MONITORING_ALL_ORDERS => [BackText]
    case MONITORING_DELAYED_ORDERS => [BackText]
    case VIEWING_STATISTICS => [DailyReportText, MainMenuText]
  }

  /** "/start" returns any chat to START and leaves its monitor registration as it was. */
  lemma StartKeepsRegistration(current: AdminState)
    ensures AdminStep(current, StartCommand) == Step(Some(START), Keep, Welcome)
  {
  }

  /**
   * Outside "/start", a text is acted on exactly when the state accepts it;
   * anything else changes neither the state nor the registry.
   */
  lemma AdminStepAcceptedIff(current: AdminState, text: string)
    requires text != StartCommand
    ensures AdminStep(current, text).screen != Unknown <==> text in Accepted(current)
    ensures text !in Accepted(current) ==> AdminStep(current, text).state.None? && AdminStep(current, text).registration == Keep
  {
  }

  /** Only entering monitoring registers the chat, and only leaving monitoring for the main menu unregisters it. */
  lemma RegistrationOnlyAtMonitoring(current: AdminState, text: string)
    ensures AdminStep(current, text).registration == Register <==> current == START && text == MonitoringText
    ensures AdminStep(current, text).registration == Unregister <==> current == MONITORING && text == MainMenuText
  {
  }

  /** `adminStates` after an optional put. */
  function PutState(m: map<int, AdminState>, chat: int, s: Option<AdminState>): map<int, AdminState> {
    if s.Some? then m[chat := s.value] else m
  }

  /** The registry after the step's registration. */
  function Registered(admins: set<int>, chat: int, r: Registration): set<int> {
    match r
    case Keep => admins
    case Register => admins + {chat}
    case Unregister => admins - {chat}
  }

  /** Two tables with the same keys and the same entry under each key are equal. */
  lemma SameTable(table: map<string, (int, int)>, expected: map<string, (int, int)>)
    requires table.Keys == expected.Keys
    requires forall n :: n in table ==> table[n] == expected[n]
    ensures table == expected
  {
  }

  class AdminBot {
    const monitor: OrderMonitorService
    const coffeeShopService: CoffeeShopService
    var adminStates: map<int, AdminState>
    /** The delayed-order messages of the scheduled check, oldest first. */
    var alerts: seq<Alert>
    /** The barista reminders sent, oldest first. */
    var reminders: seq<Reminder>

    constructor (monitorService: OrderMonitorService, shops: CoffeeShopService)
      ensures monitor == monitorService && coffeeShopService == shops
      ensures adminStates == map[] && alerts == [] && reminders == []
    {
      monitor := monitorService;
      coffeeShopService := shops;
      adminStates := map[];
      alerts := [];
      reminders := [];
    }

    /** `adminStates.getOrDefault(chatId, START)` */
    function StateOf(chat: int): AdminState
      reads this
    {
      if chat in adminStates then adminStates[chat] else START
    }

    /** `sendAllOrders`: the PENDING orders, newest first, each with its wait and mark; or just the back button. */
    function AllOrdersReplies(now: int): (r: seq<Reply>)
      reads monitor, monitor.orderService
      ensures |r| == 1 && (r[0].Message? || r[0].Board?)
      ensures r[0].Message? <==> forall o :: o in monitor.orderService.orders ==> o.status != PENDING
      ensures r[0].Board? ==>
        && (forall o :: o in monitor.orderService.orders && o.status == PENDING <==> exists k :: 0 <= k < |r[0].rows| && r[0].rows[k].order == o)
        && (forall k, l :: 0 <= k < l < |r[0].rows| ==> r[0].rows[k].order.createdAt >= r[0].rows[l].order.createdAt)
    {
      var pendingOrders := monitor.orderService.GetOrdersByStatus(PENDING);
      if pendingOrders == [] then [Message([BackText])]
      else
        var board := Seqs.SortDesc(pendingOrders, CreatedAt);
        AllOrdersNewestFirst(monitor.orderService, now);
        assert pendingOrders[0] in pendingOrders;
        [Board(BoardRows(board, now))]
    }

    /** `sendDelayedOrders`: the delayed view over the PENDING orders of the store. */
    function DelayedReplies(now: int): (r: seq<Reply>)
      reads monitor, monitor.orderService
      ensures |r| >= 1 && r[0] == Message([BackText])
      ensures forall k :: 1 <= k < |r| ==>
        && r[k].DelayedCard? && r[k].order in monitor.orderService.orders && r[k].order.status == PENDING
        && r[k].wait == WaitMinutes(r[k].order.createdAt, now) && r[k].wait >= DelayMinutes
      ensures forall k, l :: 1 <= k < l < |r| ==> r[k].wait >= r[l].wait
      ensures forall o :: o in monitor.orderService.orders && o.status == PENDING && WaitMinutes(o.createdAt, now) >= DelayMinutes ==>
        DelayedCard(o, WaitMinutes(o.createdAt, now), NotifyData(o.OrderNumber(), BaristaChatId)) in r
    {
      var pending := monitor.orderService.GetOrdersByStatus(PENDING);
      assert forall o :: o in monitor.orderService.orders && o.status == PENDING && WaitMinutes(o.createdAt, now) >= DelayMinutes ==>
        DelayedCard(o, WaitMinutes(o.createdAt, now), NotifyData(o.OrderNumber(), BaristaChatId)) in DelayedView(pending, now) by {
        forall o | o in monitor.orderService.orders && o.status == PENDING && WaitMinutes(o.createdAt, now) >= DelayMinutes
          ensures DelayedCard(o, WaitMinutes(o.createdAt, now), NotifyData(o.OrderNumber(), BaristaChatId)) in DelayedView(pending, now)
        {
          DelayedViewComplete(pending, now, o);
        }
      }
      DelayedView(pending, now)
    }

    /** `sendDailyStatistics`: the figures of `getDayStats` for the day of `now`. */
    function ReportReplies(now: int): (r: seq<Reply>)
      reads monitor, monitor.orderService, coffeeShopService
      ensures |r| == 1 && r[0].Report? && Statistics.InDay(now, r[0].day)
      ensures r[0].shops.Keys == set s | s in coffeeShopService.shops && s.active :: s.name
      ensures (forall o :: o in monitor.orderService.orders ==> o.status != COMPLETED) ==>
        r[0].orderCount == 0 && r[0].revenue == 0 && forall n :: n in r[0].shops ==> r[0].shops[n] == (0, 0)
    {
      var day := Statistics.Day(now);
      var dayOrders := Statistics.DayOrders(monitor.orderService.GetOrdersByStatus(COMPLETED), day);
      var active := coffeeShopService.GetAllActiveShops();
      assert (set s | s in active :: s.name) == set s | s in coffeeShopService.shops && s.active :: s.name;
      assert (forall o :: o in monitor.orderService.orders ==> o.status != COMPLETED) ==> dayOrders == [] by {
        if dayOrders != [] {
          assert dayOrders[0] in dayOrders;
        }
      }
      Statistics.NoOrdersAllZero(active);
      [Report(day, Statistics.TallyTable(dayOrders, active),
              Statistics.TotalCount(dayOrders, active), Statistics.TotalRevenue(dayOrders, active))]
    }

    /** What the screen shows, drawn from the monitor and the store at that moment. */
    function Render(screen: Screen, now: int): seq<Reply>
      reads monitor, monitor.orderService, coffeeShopService
    {
      match screen
      case Welcome => [Message(WelcomeButtons)]
      case MonitoringMenu => [Message(MonitoringButtons)]
      case AllOrders => AllOrdersReplies(now)
      case DelayedOrders => DelayedReplies(now)
      case StatisticsMenu => [Message(StatisticsButtons)]
      case DailyReport => ReportReplies(now)
      case Unknown => [Message([])]
    }

    /** `sendDailyStatistics`, computed by `getDayStats` and read off its counters. */
    method SendDailyStatistics(now: int) returns (replies: seq<Reply>)
      ensures replies == ReportReplies(now)
    {
      var stats := Statistics.GetDayStats(monitor.orderService, coffeeShopService, Statistics.Day(now));
      var table := map n | n in stats.coffeeShopStats ::
        (stats.coffeeShopStats[n].orderCount, stats.coffeeShopStats[n].totalRevenue);
      ghost var dayOrders := Statistics.DayOrders(monitor.orderService.GetOrdersByStatus(COMPLETED), Statistics.Day(now));
      ghost var expected := Statistics.TallyTable(dayOrders, coffeeShopService.GetAllActiveShops());
      assert table.Keys == stats.coffeeShopStats.Keys;
      SameTable(table, expected);
      replies := [Report(stats.date, table, stats.totalOrderCount, stats.totalRevenue)];
    }

    /** The main menu: start monitoring (registering the chat) or open the statistics. */
    method HandleStart(chat: int, text: string, now: int) returns (replies: seq<Reply>)
      requires StateOf(chat) == START && text != StartCommand
      modifies this, monitor
      ensures var step := AdminStep(old(StateOf(chat)), text);
        && adminStates == PutState(old(adminStates), chat, step.state)
        && monitor.adminMonitors == Registered(old(monitor.adminMonitors), chat, step.registration)
        && replies == Render(step.screen, now)
      ensures monitor.notifiedOrders == old(monitor.notifiedOrders)
      ensures alerts == old(alerts) && reminders == old(reminders)
    {
      if text == MonitoringText {
        adminStates := adminStates[chat := MONITORING];
        monitor.RegisterAdminMonitor(chat);
        replies := [Message(MonitoringButtons)];
      } else if text == StatisticsText {
        adminStates := adminStates[chat := VIEWING_STATISTICS];
        replies := [Message(StatisticsButtons)];
      } else {
        replies := [Message([])];
      }
    }

    /** The monitoring menu: back to the main menu (unregistering), the two order views, or the menu again. */
    method HandleMonitoring(chat: int, text: string, now: int) returns (replies: seq<Reply>)
      requires StateOf(chat) == MONITORING && text != StartCommand
      modifies this, monitor
      ensures var step := AdminStep(old(StateOf(chat)), text);
        && adminStates == PutState(old(adminStates), chat, step.state)
        && monitor.adminMonitors == Registered(old(monitor.adminMonitors), chat, step.registration)
        && replies == Render(step.screen, now)
      ensures monitor.notifiedOrders == old(monitor.notifiedOrders)
      ensures alerts == old(alerts) && reminders == old(reminders)
    {
      ghost var step := AdminStep(StateOf(chat), text);
      if text == MainMenuText {
        assert step == Step(Some(START), Unregister, Welcome);
        adminStates := adminStates[chat := START];
        monitor.UnregisterAdminMonitor(chat);
        replies := [Message(WelcomeButtons)];
      } else if text == AllOrdersText {
        assert step == Step(Some(MONITORING_ALL_ORDERS), Keep, AllOrders);
        adminStates := adminStates[chat := MONITORING_ALL_ORDERS];
        replies := AllOrdersReplies(now);
      } else if text == DelayedOrdersText {
        assert step == Step(Some(MONITORING_DELAYED_ORDERS), Keep, DelayedOrders);
        adminStates := adminStates[chat := MONITORING_DELAYED_ORDERS];
        replies := DelayedReplies(now);
      } else if text == CheckOrdersText {
        replies := [Message(MonitoringButtons)];
      } else {
        replies := [Message([])];
      }
    }

    /** Either order view: the back button returns to the monitoring menu. */
    method HandleOrderView(chat: int, text: string, now: int) returns (replies: seq<Reply>)
      requires StateOf(chat) in {MONITORING_ALL_ORDERS, MONITORING_DELAYED_ORDERS} && text != StartCommand
      modifies this
      ensures var step := AdminStep(old(StateOf(chat)), text);
        && adminStates == PutState(old(adminStates), chat, step.state)
        && step.registration == Keep
        && replies == Render(step.screen, now)
      ensures alerts == old(alerts) && reminders == old(reminders)
    {
      if text == BackText {
        adminStates := adminStates[chat := MONITORING];
        replies := [Message(MonitoringButtons)];
      } else {
        replies := [Message([])];
      }
    }

    /** The statistics menu: the daily report, or back to the main menu. */
    method HandleStatistics(chat: int, text: string, now: int) returns (replies: seq<Reply>)
      requires StateOf(chat) == VIEWING_STATISTICS && text != StartCommand
      modifies this
      ensures var step := AdminStep(old(StateOf(chat)), text);
        && adminStates == PutState(old(adminStates), chat, step.state)
        && step.registration == Keep
        && replies == Render(step.screen, now)
      ensures alerts == old(alerts) && reminders == old(reminders)
    {
      ghost var step := AdminStep(StateOf(chat), text);
      if text == DailyReportText {
        assert step == Step(None, Keep, DailyReport);
        replies := SendDailyStatistics(now);
      } else if text == MainMenuText {
        adminStates := adminStates[chat := START];
        replies := [Message(WelcomeButtons)];
      } else {
        replies := [Message([])];
      }
    }

    /**
     * `onUpdateReceived` for a text message: the chat's state and the registry
     * move as `AdminStep` says, the ledger, the store and the logs are
     * untouched, and the replies are the step's screen.
     */
    method OnTextReceived(chat: int, text: string, now: int) returns (replies: seq<Reply>)
      modifies this, monitor
      ensures var step := AdminStep(old(StateOf(chat)), text);
        && adminStates == PutState(old(adminStates), chat, step.state)
        && monitor.adminMonitors == Registered(old(monitor.adminMonitors), chat, step.registration)
        && replies == Render(step.screen, now)
      ensures monitor.notifiedOrders == old(monitor.notifiedOrders)
      ensures alerts == old(alerts) && reminders == old(reminders)
    {
      if text == StartCommand {
        adminStates := adminStates[chat := START];
        replies := [Message(WelcomeButtons)];
        return;
      }
      var currentState := StateOf(chat);
      match currentState
      case START =>
        replies := HandleStart(chat, text, now);
      case MONITORING =>
        replies := HandleMonitoring(chat, text, now);
      case MONITORING_ALL_ORDERS =>
        replies := HandleOrderView(chat, text, now);
      case MONITORING_DELAYED_ORDERS =>
        replies := HandleOrderView(chat, text, now);
      case VIEWING_STATISTICS =>
        replies := HandleStatistics(chat, text, now);
    }

    /**
     * `handleNotifyBarista`: a PENDING order's reminder goes to the barista;
     * an unknown order, or one that is no longer PENDING, sends nothing.
     */
    method HandleNotifyBarista(adminChat: int, orderNumber: string, baristaChat: int, now: int)
      returns (replies: seq<Reply>)
      modifies this
      ensures var found := monitor.orderService.GetOrderByNumber(orderNumber);
        reminders == old(reminders) +
          if found.Some? && found.value.status == PENDING then [ReminderFor(baristaChat, found.value, now)] else []
      ensures replies == [Message([])]
      ensures adminStates == old(adminStates) && alerts == old(alerts)
    {
      var orderOpt := monitor.orderService.GetOrderByNumber(orderNumber);
      if orderOpt.None? {
        replies := [Message([])];
        return;
      }
      var order := orderOpt.value;
      if order.status != PENDING {
        replies := [Message([])];
        return;
      }
      var waitTimeMinutes := WaitMinutes(order.createdAt, now);
      reminders := reminders + [Reminder(baristaChat, order, waitTimeMinutes, BaristaDialogue.TakePrefix + order.OrderNumber())];
      replies := [Message([])];
    }

    /** `onUpdateReceived` for callback data: only "notify_barista:" data that parses reaches the handler. */
    method OnCallbackReceived(chat: int, data: string, now: int) returns (replies: seq<Reply>)
      modifies this
      ensures NotifyRoute(data).None? ==> reminders == old(reminders) && replies == []
      ensures NotifyRoute(data).Some? ==>
        var (orderNumber, baristaChat) := NotifyRoute(data).value;
        var found := monitor.orderService.GetOrderByNumber(orderNumber);
        reminders == old(reminders) +
          if found.Some? && found.value.status == PENDING then [ReminderFor(baristaChat, found.value, now)] else []
      ensures adminStates == old(adminStates) && alerts == old(alerts)
    {
      var route := NotifyRoute(data);
      if route.None? {
        replies := [];
        return;
      }
      replies := HandleNotifyBarista(chat, route.value.0, route.value.1, now);
    }

    /** The inner loop of `autoCheckDelayedOrders`: one admin's pass over the critical entries. */
    method AlertPass(admin: int, crits: seq<(Order, int)>)
      modifies this, monitor
      ensures var pass := PassAlerts(admin, old(monitor.notifiedOrders), crits);
        alerts == old(alerts) + pass.0 && monitor.notifiedOrders == pass.1
      ensures monitor.adminMonitors == old(monitor.adminMonitors)
      ensures adminStates == old(adminStates) && reminders == old(reminders)
    {
      var k := 0;
      while k < |crits|
        invariant 0 <= k <= |crits|
        invariant var rest := PassAlerts(admin, monitor.notifiedOrders, crits[k..]);
          var whole := PassAlerts(admin, old(monitor.notifiedOrders), crits);
          alerts + rest.0 == old(alerts) + whole.0 && rest.1 == whole.1
        invariant monitor.adminMonitors == old(monitor.adminMonitors)
        invariant adminStates == old(adminStates) && reminders == old(reminders)
      {
        var order := crits[k].0;
        var waitTimeMinutes := crits[k].1;
        assert crits[k..][1..] == crits[k + 1..];
        if !monitor.IsOrderAlreadyNotified(order.OrderNumber()) {
          ghost var sent := alerts;
          ghost var rest := PassAlerts(admin, monitor.notifiedOrders + {order.OrderNumber()}, crits[k + 1..]);
          alerts := alerts + [Alert(admin, order, waitTimeMinutes)];
          monitor.MarkOrderAsNotified(order.OrderNumber());
          Seqs.AppendAssoc(sent, [Alert(admin, order, waitTimeMinutes)], rest.0);
        }
        k := k + 1;
      }
    }

    /**
     * `autoCheckDelayedOrders`, one tick: the orders that waited ten minutes
     * or more and are not in the ledger are sent, longest wait first, and
     * marked. Since marking happens inside the per-admin loop, they all go to
     * one registered admin (the first one the registry yields) and, when an
     * admin is registered, every critical number ends up in the ledger.
     */
    method AutoCheckDelayedOrders(now: int)
      modifies this, monitor
      ensures var crits := Criticals(DelayedEntries(monitor.orderService.GetOrdersByStatus(PENDING), now));
        OneAdminAlerted(old(monitor.adminMonitors), old(monitor.notifiedOrders), crits,
                        old(alerts), alerts, monitor.notifiedOrders)
      ensures monitor.adminMonitors == old(monitor.adminMonitors)
      ensures adminStates == old(adminStates) && reminders == old(reminders)
    {
      var delayedOrders := monitor.GetDelayedPendingOrders(now);
      if delayedOrders == [] {
        NothingCriticalNothingSent(monitor.adminMonitors, monitor.notifiedOrders, alerts);
        return;
      }
      var criticalOrders := Criticals(delayedOrders);
      if criticalOrders == [] {
        NothingCriticalNothingSent(monitor.adminMonitors, monitor.notifiedOrders, alerts);
        return;
      }
      ghost var ledger := monitor.notifiedOrders;
      ghost var before := alerts;
      var admins := monitor.GetActiveAdminMonitors();
      AlertRound(admins, criticalOrders);
      RoundGoesToFirstAdmin(admins, ledger, criticalOrders);
      RoundAlertsOneAdmin(admins, monitor.adminMonitors, ledger, criticalOrders, before, alerts, monitor.notifiedOrders);
    }

    /** The outer loop of `autoCheckDelayedOrders`: every admin's pass, in list order. */
    method AlertRound(admins: seq<int>, crits: seq<(Order, int)>)
      modifies this, monitor
      ensures var round := RoundAlerts(admins, old(monitor.notifiedOrders), crits);
        alerts == old(alerts) + round.0 && monitor.notifiedOrders == round.1
      ensures monitor.adminMonitors == old(monitor.adminMonitors)
      ensures adminStates == old(adminStates) && reminders == old(reminders)
    {
      var i := 0;
      while i < |admins|
        invariant 0 <= i <= |admins|
        invariant var rest := RoundAlerts(admins[i..], monitor.notifiedOrders, crits);
          var whole := RoundAlerts(admins, old(monitor.notifiedOrders), crits);
          alerts + rest.0 == old(alerts) + whole.0 && rest.1 == whole.1
        invariant monitor.adminMonitors == old(monitor.adminMonitors)
        invariant adminStates == old(adminStates) && reminders == old(reminders)
      {
        ghost var ledger := monitor.notifiedOrders;
        ghost var sent := alerts;
        ghost var pass := PassAlerts(admins[i], ledger, crits);
        ghost var rest := RoundAlerts(admins[i + 1..], pass.1, crits);
        assert admins[i..][1..] == admins[i + 1..];
        assert RoundAlerts(admins[i..], ledger, crits) == (pass.0 + rest.0, rest.1);
        AlertPass(admins[i], crits);
        Seqs.AppendAssoc(sent, pass.0, rest.0);
        i := i + 1;
      }
    }
  }

  /**
   * The outcome of one scheduled check over the critical entries: with no
   * admin registered, nothing is sent and nothing marked; otherwise one
   * registered admin's pass is sent and every critical number is marked.
   */
  ghost predicate OneAdminAlerted(admins: set<int>, ledger: set<string>, crits: seq<(Order, int)>,
                                  before: seq<Alert>, after: seq<Alert>, ledgerAfter: set<string>)
  {
    if admins == {} then after == before && ledgerAfter == ledger
    else
      && ledgerAfter == ledger + NumbersOf(crits)
      && exists a :: a in admins && after == before + PassAlerts(a, ledger, crits).0
  }

  /** With nothing critical, the check sends nothing and marks nothing. */
  lemma NothingCriticalNothingSent(admins: set<int>, ledger: set<string>, before: seq<Alert>)
    ensures OneAdminAlerted(admins, ledger, [], before, before, ledger)
  {
    if admins != {} {
      NonEmptyHasElement(admins);
      var a :| a in admins;
      assert before + PassAlerts(a, ledger, []).0 == before;
      assert NumbersOf([]) == {};
    }
  }

  /** A round over the registry's listing has the outcome `OneAdminAlerted` describes. */
  lemma RoundAlertsOneAdmin(listing: seq<int>, admins: set<int>, ledger: set<string>, crits: seq<(Order, int)>,
                            before: seq<Alert>, after: seq<Alert>, ledgerAfter: set<string>)
    requires forall a :: a in listing <==> a in admins
    requires |listing| == |admins|
    requires after == before + RoundAlerts(listing, ledger, crits).0 && ledgerAfter == RoundAlerts(listing, ledger, crits).1
    ensures OneAdminAlerted(admins, ledger, crits, before, after, ledgerAfter)
  {
    RoundGoesToFirstAdmin(listing, ledger, crits);
    if listing == [] {
      assert admins == {};
      assert after == before + [];
    } else {
      assert listing[0] in admins;
    }
  }

  /** A check's alerts are those of `before` followed by alerts about critical numbers the ledger did not hold. */
  lemma OneAdminAlertedSends(admins: set<int>, ledger: set<string>, crits: seq<(Order, int)>,
                             before: seq<Alert>, after: seq<Alert>, ledgerAfter: set<string>)
    requires OneAdminAlerted(admins, ledger, crits, before, after, ledgerAfter)
    ensures |before| <= |after| && after[..|before|] == before
    ensures ledger <= ledgerAfter
    ensures forall i :: |before| <= i < |after| ==>
      after[i].order.OrderNumber() in ledgerAfter && after[i].order.OrderNumber() !in ledger
  {
    if admins != {} {
      var a :| a in admins && after == before + PassAlerts(a, ledger, crits).0;
      var sent := PassAlerts(a, ledger, crits).0;
      PassSendsUnmarked(a, ledger, crits);
      assert after[..|before|] == before;
      forall i | |before| <= i < |after|
        ensures after[i].order.OrderNumber() in ledgerAfter && after[i].order.OrderNumber() !in ledger
      {
        assert after[i] == sent[i - |before|];
        assert after[i].order.OrderNumber() in AlertNumbers(sent);
      }
    }
  }

  /**
   * With nothing cleared in between, an order escalated by one check is not
   * escalated again by the next one, whoever is registered then.
   */
  lemma NoRepeatNextTick(admins1: set<int>, admins2: set<int>, ledger: set<string>,
                         crits1: seq<(Order, int)>, crits2: seq<(Order, int)>,
                         alerts0: seq<Alert>, alerts1: seq<Alert>, alerts2: seq<Alert>,
                         ledger1: set<string>, ledger2: set<string>)
    requires OneAdminAlerted(admins1, ledger, crits1, alerts0, alerts1, ledger1)
    requires OneAdminAlerted(admins2, ledger1, crits2, alerts1, alerts2, ledger2)
    ensures |alerts0| <= |alerts1| <= |alerts2|
    ensures forall i, j :: |alerts0| <= i < |alerts1| <= j < |alerts2| ==>
      alerts1[i].order.OrderNumber() != alerts2[j].order.OrderNumber()
  {
    OneAdminAlertedSends(admins1, ledger, crits1, alerts0, alerts1, ledger1);
    OneAdminAlertedSends(admins2, ledger1, crits2, alerts1, alerts2, ledger2);
  }

  /** The all-orders listing holds exactly the PENDING orders, each once, newest first. */
  lemma AllOrdersNewestFirst(store: OrderService, now: int)
    ensures var board := Seqs.SortDesc(store.GetOrdersByStatus(PENDING), CreatedAt);
      && multiset(board) == multiset(store.GetOrdersByStatus(PENDING))
      && (forall o :: o in board <==> o in store.orders && o.status == PENDING)
      && Seqs.SortedDesc(board, CreatedAt)
  {
    var pending := store.GetOrdersByStatus(PENDING);
    var board := Seqs.SortDesc(pending, CreatedAt);
    Seqs.SortDescSorted(pending, CreatedAt);
    forall o ensures o in board <==> o in pending {
      assert o in board <==> o in multiset(board);
    }
  }
}
