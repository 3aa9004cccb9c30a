/**
 * The barista bot: per chat a state and the location code of the shop the
 * barista works at. Text messages choose the shop and list its orders;
 * inline-button callbacks take an order into preparation, mark it ready
 * (which notifies the customer) or show its details.
 *
 * A reply is modelled by what it offers: the labels of a reply keyboard, the
 * orders of a listing with the callback data of their inline buttons, or an
 * order's details with the callback data of its action button. Message texts
 * are not modelled.
 */
module BaristaDialogue {
  import opened Wrappers
  import opened Text
  import opened OrderEntity
  import opened OrderStore
  import opened ShopDirectory

  datatype BaristaState = START | LOCATION_SELECTION | VIEWING_ORDERS | ORDER_DETAILS

  // Texts the bot reacts to
  const StartCommand := "/start"
  const StartWorkText := "Начать работу"
  const RefreshText := "Обновить заказы"
  const ChangeLocationText := "Сменить локацию"
  const InProgressText := "Заказы в работе"

  /** The keyboard under an order listing (`getOrdersMenuKeyboard`). */
  const MenuButtons := [RefreshText, InProgressText, ChangeLocationText]

  // Prefixes of the inline buttons' callback data
  const TakePrefix := "take_order:"
  const ReadyPrefix := "ready_order:"
  const ViewPrefix := "view_order:"

  /** A callback, routed by the prefix of its data; the order number is the rest of the data. */
  datatype Callback = Take(number: string) | Ready(number: string) | View(number: string) | Unrouted

  /** The routing of `onUpdateReceived` for callback data, prefixes tested in this order. */
  function ParseCallback(data: string): (c: Callback)
    ensures c.Take? ==> data == TakePrefix + c.number
    ensures c.Ready? ==> data == ReadyPrefix + c.number
    ensures c.View? ==> data == ViewPrefix + c.number
    ensures c.Unrouted? <==>
      !StartsWith(data, TakePrefix) && !StartsWith(data, ReadyPrefix) && !StartsWith(data, ViewPrefix)
  {
    if StartsWith(data, TakePrefix) then
      assert data == TakePrefix + data[|TakePrefix|..];
      Take(data[|TakePrefix|..])
    else if StartsWith(data, ReadyPrefix) then
      assert data == ReadyPrefix + data[|ReadyPrefix|..];
      Ready(data[|ReadyPrefix|..])
    else if StartsWith(data, ViewPrefix) then
      assert data == ViewPrefix + data[|ViewPrefix|..];
      View(data[|ViewPrefix|..])
    else Unrouted
  }

  /** The data a button for `n` carries is routed back to `n`, whatever characters `n` holds. */
  lemma CallbackRoundTrip(n: string)
    ensures ParseCallback(TakePrefix + n) == Take(n)
    ensures ParseCallback(ReadyPrefix + n) == Ready(n)
    ensures ParseCallback(ViewPrefix + n) == View(n)
  {
    assert (TakePrefix + n)[..|TakePrefix|] == TakePrefix;
    assert (ReadyPrefix + n)[0] == 'r';
    assert (ReadyPrefix + n)[..|ReadyPrefix|] == ReadyPrefix;
    assert (ViewPrefix + n)[0] == 'v';
    assert (ViewPrefix + n)[..|ViewPrefix|] == ViewPrefix;
  }

  /** `getStatusText`: total over the five statuses, so the "unknown" default is never reached. */
  function StatusText(status: OrderStatus): (r: string)
    ensures r != "Неизвестно"
  {
    match status
    case PENDING => "Ожидает"
    case IN_PREPARATION => "В работе"
    case READY => "Готов"
    case COMPLETED => "Завершен"
    case CANCELLED => "Отменен"
  }

  /** `getStatusEmoji`: total over the five statuses, so the "unknown" default is never reached. */
  function StatusEmoji(status: OrderStatus): (r: string)
    ensures r != "❓"
  {
    match status
    case PENDING => "⏳"
    case IN_PREPARATION => "🔄"
    case READY => "✅"
    case COMPLETED => "🎉"
    case CANCELLED => "❌"
  }

  /** Distinct statuses read differently, in both the label and the emoji. */
  lemma StatusLabelsDistinct(a: OrderStatus, b: OrderStatus)
    ensures a != b ==> StatusText(a) != StatusText(b) && StatusEmoji(a) != StatusEmoji(b)
  {
  }

  /** The action button of the details page: take a PENDING order, finish one IN_PREPARATION, else none. */
  function DetailsCallbacks(o: Order): (r: seq<string>)
    ensures |r| <= 1
  {
    match o.status
    case PENDING => [TakePrefix + o.OrderNumber()]
    case IN_PREPARATION => [ReadyPrefix + o.OrderNumber()]
    case _ => []
  }

  /** The details page offers exactly the next step of the barista's part of the lifecycle. */
  lemma DetailsActionByStatus(o: Order)
    ensures o.status == PENDING ==>
      |DetailsCallbacks(o)| == 1 && ParseCallback(DetailsCallbacks(o)[0]) == Take(o.OrderNumber())
    ensures o.status == IN_PREPARATION ==>
      |DetailsCallbacks(o)| == 1 && ParseCallback(DetailsCallbacks(o)[0]) == Ready(o.OrderNumber())
    ensures o.status != PENDING && o.status != IN_PREPARATION ==> DetailsCallbacks(o) == []
  {
    CallbackRoundTrip(o.OrderNumber());
  }

  /** The two inline buttons of each listed order: view it, and act on it with `prefix`. */
  function OrderCallbacks(os: seq<Order>, prefix: string): (r: seq<(string, string)>)
    ensures |r| == |os|
    decreases |os|
  {
    if os == [] then []
    else [(ViewPrefix + os[0].OrderNumber(), prefix + os[0].OrderNumber())] + OrderCallbacks(os[1..], prefix)
  }

  /**
   * Every button of a listing routes to its own order: the view button to
   * View, the action button to Take on the new-orders list and to Ready on the
   * in-work list.
   */
  lemma {:induction false} OrderCallbacksRoute(os: seq<Order>, k: nat)
    requires k < |os|
    ensures ParseCallback(OrderCallbacks(os, TakePrefix)[k].0) == View(os[k].OrderNumber())
    ensures ParseCallback(OrderCallbacks(os, TakePrefix)[k].1) == Take(os[k].OrderNumber())
    ensures ParseCallback(OrderCallbacks(os, ReadyPrefix)[k].1) == Ready(os[k].OrderNumber())
    decreases k
  {
    if k == 0 {
      CallbackRoundTrip(os[0].OrderNumber());
    } else {
      OrderCallbacksRoute(os[1..], k - 1);
    }
  }

  /** With distinct numbers, every order a listing shows is found by its button's number. */
  lemma ListedOrdersAreFound(store: OrderService, shop: CoffeeShop, status: OrderStatus, k: nat)
    requires store.Valid()
    requires k < |store.GetOrdersByShopAndStatus(shop, status)|
    ensures var o := store.GetOrdersByShopAndStatus(shop, status)[k];
      match IndexOfNumber(store.orders, o.OrderNumber())
      case None => false
      case Some(i) => store.orders[i] == o
  {
    var o := store.GetOrdersByShopAndStatus(shop, status)[k];
    var i :| 0 <= i < |store.orders| && store.orders[i] == o;
    IndexOfOwnNumber(store.orders, i);
  }

  /** What a reply offers. */
  datatype Reply =
    | Message(buttons: seq<string>)                                 // a text, with a reply keyboard when nonempty
    | OrderList(orders: seq<Order>, callbacks: seq<(string, string)>) // one row of two inline buttons per order
    | Details(order: Order, status: string, actions: seq<string>)    // an order's details page

  /** What a text message leads to on screen. */
  datatype Screen = Welcome | LocationPage | Confirmed(name: string) | Pending | InProgress | InvalidLocation | Unknown

  /** A text message's effect on one chat: the state put (None: none), the chat's binding afterwards, the screen. */
  datatype Step = Step(state: Option<BaristaState>, binding: Option<string>, screen: Screen)

  /** The text branch of `onUpdateReceived`, on one chat whose binding is `binding`. */
  function TextStep(current: BaristaState, binding: Option<string>, text: string, activeShops: seq<CoffeeShop>): (r: Step)
    ensures r.binding != binding ==> text == StartCommand || current == LOCATION_SELECTION
    ensures r.binding != binding && r.binding.Some? ==>
      exists s :: s in activeShops && s.name == text && r.binding == Some(s.code)
    ensures r.state == Some(VIEWING_ORDERS) ==> current == LOCATION_SELECTION && r.binding.Some?
  {
    if text == StartCommand then Step(Some(START), None, Welcome)
    else
      match current
      case START =>
        if text == StartWorkText then Step(Some(LOCATION_SELECTION), binding, LocationPage)
        else Step(None, binding, Unknown)
      case LOCATION_SELECTION =>
        (match FirstShopNamed(activeShops, text)
         case None => Step(None, binding, InvalidLocation)
         case Some(shop) => Step(Some(VIEWING_ORDERS), Some(shop.code), Confirmed(shop.name)))
      case VIEWING_ORDERS =>
        if text == RefreshText then Step(None, binding, Pending)
        else if text == ChangeLocationText then Step(Some(LOCATION_SELECTION), binding, LocationPage)
        else if text == InProgressText then Step(None, binding, InProgress)
        else Step(None, binding, Unknown)
      case ORDER_DETAILS => Step(None, binding, Unknown)
  }

  /** The texts each state answers to, besides "/start". */
  function Accepted(current: BaristaState, activeShops: seq<CoffeeShop>): seq<string> {
    match current
    case START => [StartWorkText]
    case LOCATION_SELECTION => ShopButtons(activeShops)
    case VIEWING_ORDERS => MenuButtons
    case ORDER_DETAILS => []
  }

  /** "/start" resets the chat to START and unbinds its location, from any state. */
  lemma StartUnbinds(current: BaristaState, binding: Option<string>, activeShops: seq<CoffeeShop>)
    ensures var step := TextStep(current, binding, StartCommand, activeShops);
      step.state == Some(START) && step.binding.None?
  {
  }

  /**
   * Outside "/start", a text is acted on exactly when the state accepts it;
   * a text the state does not accept changes neither the state nor the binding.
   */
  lemma TextStepAcceptedIff(current: BaristaState, binding: Option<string>, text: string, activeShops: seq<CoffeeShop>)
    requires text != StartCommand
    ensures var step := TextStep(current, binding, text, activeShops);
      step.screen != Unknown && step.screen != InvalidLocation <==> text in Accepted(current, activeShops)
    ensures var step := TextStep(current, binding, text, activeShops);
      text !in Accepted(current, activeShops) ==> step.state.None? && step.binding == binding
  {
    if current == LOCATION_SELECTION {
      ShopButtonsNames(activeShops, text);
    }
  }

  /**
   * On the location page, the name of an active shop binds that shop's code
   * and opens the order views; anything else keeps the state and the binding.
   */
  lemma LocationSelectionBinds(binding: Option<string>, text: string, activeShops: seq<CoffeeShop>)
    requires text != StartCommand
    ensures var step := TextStep(LOCATION_SELECTION, binding, text, activeShops);
      step.state.Some? <==> exists s :: s in activeShops && s.name == text
    ensures var step := TextStep(LOCATION_SELECTION, binding, text, activeShops);
      step.state.Some? ==>
        step.state == Some(VIEWING_ORDERS)
        && exists s :: s in activeShops && s.name == text && step.binding == Some(s.code)
    ensures var step := TextStep(LOCATION_SELECTION, binding, text, activeShops);
      step.state.None? ==> step.binding == binding
  {
  }

  /** Only "Сменить локацию" leaves the order views, and it keeps the binding. */
  lemma ViewingOrdersTokens(binding: Option<string>, text: string, activeShops: seq<CoffeeShop>)
    requires text != StartCommand
    ensures var step := TextStep(VIEWING_ORDERS, binding, text, activeShops);
      step.binding == binding && (step.state.Some? <==> text == ChangeLocationText)
    ensures TextStep(VIEWING_ORDERS, binding, RefreshText, activeShops).screen == Pending
    ensures TextStep(VIEWING_ORDERS, binding, InProgressText, activeShops).screen == InProgress
  {
  }

  /** `baristaStates` after an optional put. */
  function PutState(m: map<int, BaristaState>, chat: int, s: Option<BaristaState>): map<int, BaristaState> {
    if s.Some? then m[chat := s.value] else m
  }

  /** `baristaLocations` after the chat's binding became `b` (None: removed). */
  function PutBinding(m: map<int, string>, chat: int, b: Option<string>): map<int, string> {
    if b.Some? then m[chat := b.value] else m - {chat}
  }

  /** The notice `notifyCustomerOrderReady` sends for an updated order: none without a customer id. */
  function ReadyNotice(updated: Option<Order>): (r: seq<(int, string)>)
    ensures |r| <= 1
    ensures r != [] <==> updated.Some? && updated.value.customerId.Some?
    ensures r != [] ==> r[0] == (updated.value.customerId.value, updated.value.OrderNumber())
  {
    match updated
    case None => []
    case Some(o) =>
      match o.customerId
      case None => []
      case Some(c) => [(c, o.OrderNumber())]
  }

  class BaristaBot {
    const orderService: OrderService
    const coffeeShopService: CoffeeShopService
    var baristaStates: map<int, BaristaState>
    var baristaLocations: map<int, string>
    /** Every `notifyOrderReady(customer chat, order number)` sent, oldest first. */
    var readyNotices: seq<(int, string)>

    ghost predicate Valid()
      reads this, orderService
    {
      orderService.Valid()
    }

    constructor (orders: OrderService, shops: CoffeeShopService)
      ensures orderService == orders && coffeeShopService == shops
      ensures baristaStates == map[] && baristaLocations == map[] && readyNotices == []
    {
      orderService := orders;
      coffeeShopService := shops;
      baristaStates := map[];
      baristaLocations := map[];
      readyNotices := [];
    }

    /** `baristaStates.getOrDefault(chatId, START)` */
    function StateOf(chat: int): BaristaState
      reads this
    {
      if chat in baristaStates then baristaStates[chat] else START
    }

    function BindingOf(chat: int): Option<string>
      reads this
    {
      if chat in baristaLocations then Some(baristaLocations[chat]) else None
    }

    /** `sendLocationSelectionMessage`: one button per active shop. */
    function LocationReplies(): (r: seq<Reply>)
      reads coffeeShopService
      ensures |r| == 1 && r[0].Message?
      ensures forall t :: t in r[0].buttons <==> exists s :: s in coffeeShopService.shops && s.active && s.name == t
    {
      var active := coffeeShopService.GetAllActiveShops();
      assert forall t :: t in ShopButtons(active) <==> exists s :: s in active && s.name == t by {
        forall t ensures t in ShopButtons(active) <==> exists s :: s in active && s.name == t {
          ShopButtonsNames(active, t);
        }
      }
      [Message(ShopButtons(active))]
    }

    /**
     * `sendPendingOrders` (status PENDING, take buttons, menu) and
     * `sendInProgressOrders` (status IN_PREPARATION, ready buttons, no menu):
     * without a bound code that names a shop the location page is shown
     * instead; an empty listing is a text with the menu.
     */
    function OrdersReplies(chat: int, status: OrderStatus, prefix: string, withMenu: bool): (r: seq<Reply>)
      reads this, orderService, coffeeShopService
      ensures forall k :: 0 <= k < |r| && r[k].OrderList? ==>
        forall o :: o in r[k].orders ==> o in orderService.orders && o.status == status
    {
      if chat !in baristaLocations then LocationReplies()
      else
        match coffeeShopService.GetShopByCode(baristaLocations[chat])
        case None => LocationReplies()
        case Some(shop) =>
          var os := orderService.GetOrdersByShopAndStatus(shop, status);
          if os == [] then [Message(MenuButtons)]
          else [OrderList(os, OrderCallbacks(os, prefix))] + (if withMenu then [Message(MenuButtons)] else [])
    }

    /** What the screen shows, drawn from the bot's state at that moment. */
    function Render(screen: Screen, chat: int): seq<Reply>
      reads this, orderService, coffeeShopService
    {
      match screen
      case Welcome => [Message([StartWorkText])]
      case LocationPage => LocationReplies()
      case Confirmed(_) => [Message([])] + OrdersReplies(chat, PENDING, TakePrefix, true)
      case Pending => OrdersReplies(chat, PENDING, TakePrefix, true)
      case InProgress => OrdersReplies(chat, IN_PREPARATION, ReadyPrefix, false)
      case InvalidLocation => [Message([])]
      case Unknown => [Message([])]
    }

    /** `sendOrderDetails`: the order's page with its status label and action, or a not-found text. */
    function DetailsReplies(orderNumber: string): (r: seq<Reply>)
      reads orderService
      ensures |r| == 1
      ensures r[0].Details? <==> exists o :: o in orderService.orders && o.OrderNumber() == orderNumber
      ensures r[0].Details? ==>
        && r[0].order in orderService.orders && r[0].order.OrderNumber() == orderNumber
        && r[0].status == StatusEmoji(r[0].order.status) + " " + StatusText(r[0].order.status)
        && r[0].actions == DetailsCallbacks(r[0].order)
    {
      match orderService.GetOrderByNumber(orderNumber)
      case None => [Message([])]
      case Some(o) => [Details(o, StatusEmoji(o.status) + " " + StatusText(o.status), DetailsCallbacks(o))]
    }

    /** The location page: an active shop's name binds its code and lists its new orders. */
    method HandleLocationSelection(chat: int, text: string) returns (replies: seq<Reply>)
      requires StateOf(chat) == LOCATION_SELECTION && text != StartCommand
      modifies this
      ensures var step := TextStep(old(StateOf(chat)), old(BindingOf(chat)), text, coffeeShopService.GetAllActiveShops());
        && baristaStates == PutState(old(baristaStates), chat, step.state)
        && baristaLocations == PutBinding(old(baristaLocations), chat, step.binding)
        && replies == Render(step.screen, chat)
      ensures readyNotices == old(readyNotices)
    {
      var coffeeShopOpt := FirstShopNamed(coffeeShopService.GetAllActiveShops(), text);
      if coffeeShopOpt.Some? {
        baristaLocations := baristaLocations[chat := coffeeShopOpt.value.code];
        baristaStates := baristaStates[chat := VIEWING_ORDERS];
        replies := [Message([])] + OrdersReplies(chat, PENDING, TakePrefix, true);
      } else {
        replies := [Message([])];
      }
    }

    /** The order views: refresh, switch location, or list the orders in work. */
    method HandleViewingOrders(chat: int, text: string) returns (replies: seq<Reply>)
      requires StateOf(chat) == VIEWING_ORDERS && text != StartCommand
      modifies this
      ensures var step := TextStep(old(StateOf(chat)), old(BindingOf(chat)), text, coffeeShopService.GetAllActiveShops());
        && baristaStates == PutState(old(baristaStates), chat, step.state)
        && baristaLocations == PutBinding(old(baristaLocations), chat, step.binding)
        && replies == Render(step.screen, chat)
      ensures readyNotices == old(readyNotices)
    {
      if text == RefreshText {
        replies := OrdersReplies(chat, PENDING, TakePrefix, true);
      } else if text == ChangeLocationText {
        baristaStates := baristaStates[chat := LOCATION_SELECTION];
        replies := LocationReplies();
      } else if text == InProgressText {
        replies := OrdersReplies(chat, IN_PREPARATION, ReadyPrefix, false);
      } else {
        replies := [Message([])];
      }
    }

    /**
     * `onUpdateReceived` for a text message: the chat's state and binding move
     * as `TextStep` says, the store and the notices are untouched, and the
     * replies are the step's screen.
     */
    method OnTextReceived(chat: int, text: string) returns (replies: seq<Reply>)
      modifies this
      ensures var step := TextStep(old(StateOf(chat)), old(BindingOf(chat)), text, coffeeShopService.GetAllActiveShops());
        && baristaStates == PutState(old(baristaStates), chat, step.state)
        && baristaLocations == PutBinding(old(baristaLocations), chat, step.binding)
        && replies == Render(step.screen, chat)
      ensures readyNotices == old(readyNotices)
    {
      if text == StartCommand {
        baristaStates := baristaStates[chat := START];
        baristaLocations := baristaLocations - {chat};
        replies := [Message([StartWorkText])];
        return;
      }
      var currentState := StateOf(chat);
      match currentState
      case START =>
        if text == StartWorkText {
          baristaStates := baristaStates[chat := LOCATION_SELECTION];
          replies := LocationReplies();
        } else {
          replies := [Message([])];
        }
      case LOCATION_SELECTION =>
        replies := HandleLocationSelection(chat, text);
      case VIEWING_ORDERS =>
        replies := HandleViewingOrders(chat, text);
      case ORDER_DETAILS =>
        replies := [Message([])];
    }

    /** `notifyCustomerOrderReady`: the order's customer is told, unless the order has none. */
    method NotifyCustomerOrderReady(order: Order)
      modifies this
      ensures readyNotices == old(readyNotices) + ReadyNotice(Some(order))
      ensures baristaStates == old(baristaStates) && baristaLocations == old(baristaLocations)
    {
      if order.customerId.None? {
        return;
      }
      readyNotices := readyNotices + [(order.customerId.value, order.OrderNumber())];
    }

    /**
     * `handleTakeOrder`: the order goes to IN_PREPARATION and the new-orders
     * listing is refreshed; an unknown number is an error text. No customer is
     * notified.
     */
    method HandleTakeOrder(chat: int, orderNumber: string, now: int) returns (replies: seq<Reply>)
      requires Valid()
      modifies orderService
      ensures Valid()
      ensures orderService.orders == StatusUpdated(old(orderService.orders), orderNumber, IN_PREPARATION, now)
      ensures replies == if old(orderService.GetOrderByNumber(orderNumber)).Some?
        then [Message([])] + OrdersReplies(chat, PENDING, TakePrefix, true)
        else [Message([])]
    {
      var updatedOrder := orderService.UpdateOrderStatus(orderNumber, IN_PREPARATION, now);
      if updatedOrder.None? {
        replies := [Message([])];
        return;
      }
      replies := [Message([])] + OrdersReplies(chat, PENDING, TakePrefix, true);
    }

    /**
     * `handleOrderReady`: the order goes to READY, its customer is notified
     * when it has one, and the in-work listing is refreshed; an unknown number
     * is an error text and notifies nobody.
     */
    method HandleOrderReady(chat: int, orderNumber: string, now: int) returns (replies: seq<Reply>)
      requires Valid()
      modifies this, orderService
      ensures Valid()
      ensures orderService.orders == StatusUpdated(old(orderService.orders), orderNumber, READY, now)
      ensures readyNotices == old(readyNotices) + ReadyNotice(old(orderService.GetOrderByNumber(orderNumber)))
      ensures baristaStates == old(baristaStates) && baristaLocations == old(baristaLocations)
      ensures replies == if old(orderService.GetOrderByNumber(orderNumber)).Some?
        then [Message([])] + OrdersReplies(chat, IN_PREPARATION, ReadyPrefix, false)
        else [Message([])]
    {
      var updatedOrder := orderService.UpdateOrderStatus(orderNumber, READY, now);
      if updatedOrder.None? {
        replies := [Message([])];
        return;
      }
      NotifyCustomerOrderReady(updatedOrder.value);
      replies := [Message([])] + OrdersReplies(chat, IN_PREPARATION, ReadyPrefix, false);
    }

    /**
     * `onUpdateReceived` for callback data: routed by prefix to take, ready or
     * view; other data is ignored. The chat's state and binding never change.
     */
    method OnCallbackReceived(chat: int, data: string, now: int) returns (replies: seq<Reply>)
      requires Valid()
      modifies this, orderService
      ensures Valid()
      ensures baristaStates == old(baristaStates) && baristaLocations == old(baristaLocations)
      ensures match ParseCallback(data)
        case Take(n) =>
          && orderService.orders == StatusUpdated(old(orderService.orders), n, IN_PREPARATION, now)
          && readyNotices == old(readyNotices)
          && replies == if old(orderService.GetOrderByNumber(n)).Some?
               then [Message([])] + OrdersReplies(chat, PENDING, TakePrefix, true)
               else [Message([])]
        case Ready(n) =>
          && orderService.orders == StatusUpdated(old(orderService.orders), n, READY, now)
          && readyNotices == old(readyNotices) + ReadyNotice(old(orderService.GetOrderByNumber(n)))
          && replies == if old(orderService.GetOrderByNumber(n)).Some?
               then [Message([])] + OrdersReplies(chat, IN_PREPARATION, ReadyPrefix, false)
               else [Message([])]
        case View(n) =>
          && orderService.orders == old(orderService.orders) && readyNotices == old(readyNotices)
          && replies == DetailsReplies(n)
        case Unrouted =>
          && orderService.orders == old(orderService.orders) && readyNotices == old(readyNotices)
          && replies == []
    {
      var route := ParseCallback(data);
      match route
      case Take(n) =>
        replies := HandleTakeOrder(chat, n, now);
      case Ready(n) =>
        replies := HandleOrderReady(chat, n, now);
      case View(n) =>
        replies := DetailsReplies(n);
      case Unrouted =>
        replies := [];
    }
  }
}
