/**
 * The customer bot's dialogue: per chat a state, a selection map and the
 * number of the last order placed. A text message moves the chat through
 * shop, drink, size, add-ons, confirmation and payment; paying creates the
 * order, and "Я забрал(а)" marks the customer's newest ready order as picked up.
 *
 * `CustomerStep` states what one message does to one chat's state and
 * selections, which buttons the reply shows and which store action follows;
 * `CustomerBot.OnUpdateReceived` is proved to do exactly that.
 */
module CustomerDialogue {
  import opened Wrappers
  import opened Text
  import opened OrderEntity
  import opened OrderStore
  import opened ShopDirectory
  import opened Pricing
  import Seqs

  datatype UserState =
    | START | INTRO | SELECTING_COFFEE_SHOP | SELECTING_COFFEE | SELECTING_SIZE
    | SELECTING_ADDONS | SELECTING_MILK | SELECTING_SYRUP | CONFIRMING_ORDER
    | PAYMENT_INIT | PAYMENT_CONFIRM | ORDER_COMPLETED

  // Texts the bot reacts to
  const PickedUpText := "Я забрал(а)"
  const StartCommand := "/start"
  const NewOrderText := "Новый заказ"
  const AnotherOrderText := "Сделать новый заказ"
  const StartText := "Старт"
  const WantCoffeeText := "Хочу кофе"
  const YesText := "Да"
  const ChangeOrderText := "Изменить заказ"
  const CancelText := "Отмена"
  const PayText := "Оплатить"
  const PaidText := "Я оплатил(а)"

  // The reply keyboards
  const WelcomeButtons := [StartText]
  const IntroButtons := [WantCoffeeText]
  const CoffeeButtons := [AmericanoLabel, LatteLabel, CappuccinoLabel, RafLabel, FlatWhiteLabel]
  const SummaryButtons := [YesText, ChangeOrderText, CancelText]
  const PayButtons := [PayText]
  const PaidButtons := [PaidText]
  const SuccessButtons := [NewOrderText]
  const CompletionButtons := [AnotherOrderText]

  /** The texts checked before the chat's state is consulted. */
  const GlobalCommands := [PickedUpText, StartCommand, NewOrderText, AnotherOrderText]

  /** A chat's entry in the selection store: None when the chat has no map at all. */
  type Selections = Option<map<string, string>>

  /** The selections as `getUserSelection` sees them: a missing map reads like an empty one. */
  function Sel(e: Selections): map<string, string> {
    if e.Some? then e.value else map[]
  }

  /** `saveUserSelection`: creates the map when absent, then stores the value. */
  function Saved(e: Selections, key: string, value: string): (r: Selections)
    ensures r.Some? && Sel(r).Keys == Sel(e).Keys + {key} && Sel(r)[key] == value
    ensures forall k :: k in Sel(e) && k != key ==> Sel(r)[k] == Sel(e)[k]
  {
    Some(Sel(e)[key := value])
  }

  /** `removeUserSelection`: drops the key from an existing map; no map stays no map. */
  function Removed(e: Selections, key: string): (r: Selections)
    ensures r.Some? <==> e.Some?
    ensures key !in Sel(r) && forall k :: k != key ==> (k in Sel(r) <==> k in Sel(e))
  {
    if e.Some? then Some(e.value - {key}) else None
  }

  /** The store action that follows the message. */
  datatype Effect = NoEffect | PlaceOrder | Pickup

  /**
   * What a message does to one chat: the state it puts (None: no put), the
   * chat's new selection entry, the reply's buttons ([] for a text-only
   * reply), and the store action.
   */
  datatype Outcome = Outcome(state: Option<UserState>, selections: Selections, buttons: seq<string>, effect: Effect)

  /** `handleUnknownCommand` and other text-only replies: nothing changes. */
  function Ignored(e: Selections): Outcome {
    Outcome(None, e, [], NoEffect)
  }

  function Move(s: UserState, e: Selections, buttons: seq<string>): Outcome {
    Outcome(Some(s), e, buttons, NoEffect)
  }

  /** `handleCoffeeShopSelection`: a shop name stores that shop's id and moves on to the drinks. */
  function ShopStep(e: Selections, text: string, activeShops: seq<CoffeeShop>): Outcome {
    match FirstShopNamed(activeShops, text)
    case None => Ignored(e)
    case Some(shop) => Move(SELECTING_COFFEE, Saved(e, CoffeeShopIdKey, NumberText(shop.id)), CoffeeButtons)
  }

  /** `handleAddonsSelection` */
  function AddonsStep(e: Selections, text: string): Outcome {
    if text == MilkButton then Move(SELECTING_MILK, e, MilkLabels)
    else if text == SyrupButton then Move(SELECTING_SYRUP, e, SyrupLabels)
    else if text == RemoveMilkButton then
      var r := Removed(e, MilkTypeKey);
      Outcome(None, r, AddonsButtons(Sel(r)), NoEffect)
    else if text == RemoveSyrupButton then
      var r := Removed(e, SyrupTypeKey);
      Outcome(None, r, AddonsButtons(Sel(r)), NoEffect)
    else if text == NoAddonsButton then
      Move(CONFIRMING_ORDER, Removed(Removed(e, MilkTypeKey), SyrupTypeKey), SummaryButtons)
    else if text == DoneButton then Move(CONFIRMING_ORDER, e, SummaryButtons)
    else Ignored(e)
  }

  /** `handleOrderConfirmation` */
  function ConfirmStep(e: Selections, text: string): Outcome {
    if text == YesText then Move(PAYMENT_INIT, e, PayButtons)
    else if text == ChangeOrderText then Move(SELECTING_ADDONS, e, AddonsButtons(Sel(e)))
    else if text == CancelText then Move(START, None, WelcomeButtons)
    else Ignored(e)
  }

  /** The per-state part of `onUpdateReceived`, reached when no global command matched. */
  function StateStep(current: UserState, e: Selections, text: string, activeShops: seq<CoffeeShop>): Outcome {
    match current
    case START => if text == StartText then Move(INTRO, e, IntroButtons) else Ignored(e)
    case INTRO => if text == WantCoffeeText then Move(SELECTING_COFFEE_SHOP, e, ShopButtons(activeShops)) else Ignored(e)
    case SELECTING_COFFEE_SHOP => ShopStep(e, text, activeShops)
    case SELECTING_COFFEE =>
      if IsValidCoffeeType(text) then Move(SELECTING_SIZE, Saved(e, CoffeeTypeKey, text), SizeButtons(Some(text)))
      else Ignored(e)
    case SELECTING_SIZE =>
      if IsValidSize(text) then
        var r := Saved(e, SizeKey, text);
        Move(SELECTING_ADDONS, r, AddonsButtons(Sel(r)))
      else Ignored(e)
    case SELECTING_ADDONS => AddonsStep(e, text)
    case SELECTING_MILK =>
      if IsValidMilkType(text) then
        var r := Saved(e, MilkTypeKey, text);
        Move(SELECTING_ADDONS, r, AddonsButtons(Sel(r)))
      else Ignored(e)
    case SELECTING_SYRUP =>
      if IsValidSyrupType(text) then
        var r := Saved(e, SyrupTypeKey, text);
        Move(SELECTING_ADDONS, r, AddonsButtons(Sel(r)))
      else Ignored(e)
    case CONFIRMING_ORDER => ConfirmStep(e, text)
    case PAYMENT_INIT => if text == PayText then Move(PAYMENT_CONFIRM, e, PaidButtons) else Ignored(e)
    case PAYMENT_CONFIRM =>
      if text == PaidText then Outcome(Some(ORDER_COMPLETED), e, SuccessButtons, PlaceOrder)
      else Outcome(None, e, PaidButtons, NoEffect)
    case ORDER_COMPLETED => Ignored(e)
  }

  /** One text message to one chat, in the order `onUpdateReceived` tests it. */
  function CustomerStep(current: UserState, e: Selections, text: string, activeShops: seq<CoffeeShop>): (r: Outcome)
    ensures r.state == Some(ORDER_COMPLETED) <==> r.effect == PlaceOrder
    ensures r.effect != NoEffect ==> r.selections == e
  {
    if text == PickedUpText then Outcome(None, e, [], Pickup)
    else if text == StartCommand then Move(START, None, WelcomeButtons)
    else if text == NewOrderText || text == AnotherOrderText then
      Move(SELECTING_COFFEE_SHOP, None, ShopButtons(activeShops))
    else StateStep(current, e, text, activeShops)
  }

  /** The tokens each state answers to (besides the global commands). */
  function Accepted(current: UserState, activeShops: seq<CoffeeShop>): seq<string> {
    match current
    case START => [StartText]
    case INTRO => [WantCoffeeText]
    case SELECTING_COFFEE_SHOP => ShopButtons(activeShops)
    case SELECTING_COFFEE => CoffeeButtons
    case SELECTING_SIZE => [SmallLabel, MediumLabel, LargeLabel]
    case SELECTING_ADDONS => [MilkButton, SyrupButton, RemoveMilkButton, RemoveSyrupButton, NoAddonsButton, DoneButton]
    case SELECTING_MILK => MilkLabels
    case SELECTING_SYRUP => SyrupLabels
    case CONFIRMING_ORDER => SummaryButtons
    case PAYMENT_INIT => [PayText]
    case PAYMENT_CONFIRM => [PaidText]
    case ORDER_COMPLETED => []
  }

  /** "/start" resets any chat to START with no selections; the two new-order texts go to the shop page. */
  lemma ResetCommands(current: UserState, e: Selections, activeShops: seq<CoffeeShop>)
    ensures var out := CustomerStep(current, e, StartCommand, activeShops);
      out.state == Some(START) && out.selections.None? && out.effect == NoEffect
    ensures forall t :: t == NewOrderText || t == AnotherOrderText ==>
      var out := CustomerStep(current, e, t, activeShops);
      out.state == Some(SELECTING_COFFEE_SHOP) && out.selections.None? && out.effect == NoEffect
        && out.buttons == ShopButtons(activeShops)
  {
  }

  /**
   * Outside the global commands, a message moves the chat exactly when the
   * current state accepts it, except for the two remove buttons, which keep
   * the chat on the add-ons page.
   */
  lemma StepMovesIffAccepted(current: UserState, e: Selections, text: string, activeShops: seq<CoffeeShop>)
    requires text !in GlobalCommands
    ensures CustomerStep(current, e, text, activeShops).state.Some? <==>
      text in Accepted(current, activeShops)
        && !(current == SELECTING_ADDONS && (text == RemoveMilkButton || text == RemoveSyrupButton))
  {
    if current == SELECTING_COFFEE_SHOP {
      ShopButtonsNames(activeShops, text);
    }
  }

  /** A message the current state does not accept leaves the state, the selections and the store alone. */
  lemma UnacceptedChangesNothing(current: UserState, e: Selections, text: string, activeShops: seq<CoffeeShop>)
    requires text !in GlobalCommands && text !in Accepted(current, activeShops)
    ensures var out := CustomerStep(current, e, text, activeShops);
      out.state.None? && out.selections == e && out.effect == NoEffect
  {
    if current == SELECTING_COFFEE_SHOP {
      ShopButtonsNames(activeShops, text);
    }
  }

  /** What the add-on page's buttons do to the selections. */
  lemma AddonTokens(e: Selections, activeShops: seq<CoffeeShop>)
    ensures var out := CustomerStep(SELECTING_ADDONS, e, NoAddonsButton, activeShops);
      && out.state == Some(CONFIRMING_ORDER)
      && Lookup(Sel(out.selections), MilkTypeKey).None? && Lookup(Sel(out.selections), SyrupTypeKey).None?
      && forall k :: k != MilkTypeKey && k != SyrupTypeKey ==> Lookup(Sel(out.selections), k) == Lookup(Sel(e), k)
    ensures var out := CustomerStep(SELECTING_ADDONS, e, RemoveMilkButton, activeShops);
      && out.state.None? && out.buttons == AddonsButtons(Sel(out.selections))
      && Lookup(Sel(out.selections), MilkTypeKey).None?
      && forall k :: k != MilkTypeKey ==> Lookup(Sel(out.selections), k) == Lookup(Sel(e), k)
    ensures var out := CustomerStep(SELECTING_ADDONS, e, RemoveSyrupButton, activeShops);
      && out.state.None? && out.buttons == AddonsButtons(Sel(out.selections))
      && Lookup(Sel(out.selections), SyrupTypeKey).None?
      && forall k :: k != SyrupTypeKey ==> Lookup(Sel(out.selections), k) == Lookup(Sel(e), k)
    ensures var out := CustomerStep(SELECTING_ADDONS, e, DoneButton, activeShops);
      out.state == Some(CONFIRMING_ORDER) && out.selections == e
  {
  }

  /** The summary page: pay, go back to the add-ons with the selections kept, or cancel everything. */
  lemma ConfirmTokens(e: Selections, activeShops: seq<CoffeeShop>)
    ensures var out := CustomerStep(CONFIRMING_ORDER, e, YesText, activeShops);
      out.state == Some(PAYMENT_INIT) && out.selections == e
    ensures var out := CustomerStep(CONFIRMING_ORDER, e, ChangeOrderText, activeShops);
      out.state == Some(SELECTING_ADDONS) && out.selections == e && out.buttons == AddonsButtons(Sel(e))
    ensures var out := CustomerStep(CONFIRMING_ORDER, e, CancelText, activeShops);
      out.state == Some(START) && out.selections.None?
  {
  }

  /** Only "Я оплатил(а)" on the payment page places an order, and it moves the chat to ORDER_COMPLETED. */
  lemma PlaceOrderOnlyWhenPaid(current: UserState, e: Selections, text: string, activeShops: seq<CoffeeShop>)
    ensures CustomerStep(current, e, text, activeShops).effect == PlaceOrder <==>
      current == PAYMENT_CONFIRM && text == PaidText
    ensures current == PAYMENT_CONFIRM && text == PaidText ==>
      CustomerStep(current, e, text, activeShops).state == Some(ORDER_COMPLETED)
  {
  }

  /** "Я забрал(а)" is the only pick-up message, in every state, and it leaves the session alone. */
  lemma PickupKeepsSession(current: UserState, e: Selections, text: string, activeShops: seq<CoffeeShop>)
    ensures CustomerStep(current, e, text, activeShops).effect == Pickup <==> text == PickedUpText
    ensures text == PickedUpText ==>
      CustomerStep(current, e, text, activeShops).state.None? && CustomerStep(current, e, text, activeShops).selections == e
  {
  }

  /** The entry `userSelections` holds after the chat's entry became `e`. */
  function PutEntry(m: map<int, map<string, string>>, chat: int, e: Selections): map<int, map<string, string>> {
    if e.Some? then m[chat := e.value] else m - {chat}
  }

  /** Putting back a chat's own entry (or its absence) leaves the selections as they were. */
  lemma KeepEntry(m: map<int, map<string, string>>, chat: int)
    ensures PutEntry(m, chat, if chat in m then Some(m[chat]) else None) == m
  {
  }

  /** `userStates` after an optional put. */
  function PutState(m: map<int, UserState>, chat: int, s: Option<UserState>): map<int, UserState> {
    if s.Some? then m[chat := s.value] else m
  }

  /** The shop an order is placed at: the stored id, parsed, then looked up; None on any failure. */
  function ShopForOrder(sel: map<string, string>, dir: CoffeeShopService): Option<CoffeeShop>
    reads dir
  {
    match Lookup(sel, CoffeeShopIdKey)
    case None => None
    case Some(text) =>
      match ParseLong(text)
      case None => None
      case Some(id) => dir.FindById(id)
  }

  /** The order `createOrderInDatabase` asks for, before the store numbers and stamps it. */
  function RequestedOrder(chat: int, sel: map<string, string>, shop: CoffeeShop, number: nat, now: int): Order {
    Order(number, Some(chat), shop, Lookup(sel, CoffeeTypeKey), GetSizeLabel(Lookup(sel, SizeKey)),
          Lookup(sel, MilkTypeKey), Lookup(sel, SyrupTypeKey), CalculateTotalPrice(sel), PENDING, now, now)
  }

  /** The order "Я забрал(а)" completes: the first of the customer's READY orders sorted newest first. */
  function PickupTarget(store: OrderService, chat: int): (r: Option<Order>)
    reads store
    ensures r.None? <==> forall o :: o in store.orders ==> !(o.customerId == Some(chat) && o.status == READY)
    ensures r.Some? ==> r.value in store.orders && r.value.customerId == Some(chat) && r.value.status == READY
  {
    var ready := store.GetOrdersByCustomerIdAndStatus(chat, READY);
    if ready == [] then None
    else
      var sorted := Seqs.SortDesc(ready, CreatedAt);
      assert ready[0] in ready && sorted[0] in multiset(ready);
      Some(sorted[0])
  }

  /** The store's rows after the pick-up. */
  function AfterPickup(store: OrderService, chat: int, now: int): (r: seq<Order>)
    reads store
    ensures |r| == |store.orders|
    ensures PickupTarget(store, chat).None? ==> r == store.orders
    ensures forall i :: 0 <= i < |r| && r[i] != store.orders[i] ==>
      r[i].status == COMPLETED && r[i].number == store.orders[i].number && r[i].createdAt == store.orders[i].createdAt
  {
    match PickupTarget(store, chat)
    case None => store.orders
    case Some(o) => StatusUpdated(store.orders, o.OrderNumber(), COMPLETED, now)
  }

  /**
   * The pick-up completes the customer's newest READY order and nothing else;
   * without a READY order of that customer nothing changes.
   */
  lemma PickupCompletesNewestReady(store: OrderService, chat: int, now: int)
    requires store.Valid()
    ensures PickupTarget(store, chat).None? <==>
      forall o :: o in store.orders ==> !(o.customerId == Some(chat) && o.status == READY)
    ensures PickupTarget(store, chat).None? ==> AfterPickup(store, chat, now) == store.orders
    ensures PickupTarget(store, chat).Some? ==>
      var o := PickupTarget(store, chat).value;
      && o in store.orders && o.customerId == Some(chat) && o.status == READY
      && (forall p :: p in store.orders && p.customerId == Some(chat) && p.status == READY ==> p.createdAt <= o.createdAt)
      && exists i :: 0 <= i < |store.orders| && store.orders[i] == o
           && AfterPickup(store, chat, now) == store.orders[i := WithStatus(o, COMPLETED, now)]
  {
    var ready := store.GetOrdersByCustomerIdAndStatus(chat, READY);
    if ready != [] {
      var sorted := Seqs.SortDesc(ready, CreatedAt);
      Seqs.SortDescSorted(ready, CreatedAt);
      var o := sorted[0];
      assert o in multiset(ready);
      forall p | p in store.orders && p.customerId == Some(chat) && p.status == READY
        ensures p.createdAt <= o.createdAt
      {
        assert p in multiset(sorted);
        var j :| 0 <= j < |sorted| && sorted[j] == p;
        if j > 0 {
          assert CreatedAt(sorted[0]) >= CreatedAt(sorted[j]);
        }
      }
      var i :| 0 <= i < |store.orders| && store.orders[i] == o;
      IndexOfOwnNumber(store.orders, i);
    } else {
      forall o | o in store.orders ensures !(o.customerId == Some(chat) && o.status == READY) {
        assert o !in ready;
      }
    }
  }

  class CustomerBot {
    const orderService: OrderService
    const coffeeShopService: CoffeeShopService
    var userSelections: map<int, map<string, string>>
    var userStates: map<int, UserState>
    var userOrderNumbers: map<int, string>

    ghost predicate Valid()
      reads this, orderService
    {
      orderService.Valid()
    }

    constructor (orders: OrderService, shops: CoffeeShopService)
      ensures orderService == orders && coffeeShopService == shops
      ensures userSelections == map[] && userStates == map[] && userOrderNumbers == map[]
    {
      orderService := orders;
      coffeeShopService := shops;
      userSelections := map[];
      userStates := map[];
      userOrderNumbers := map[];
    }

    /** `userStates.getOrDefault(chatId, START)` */
    function StateOf(chat: int): UserState
      reads this
    {
      if chat in userStates then userStates[chat] else START
    }

    function EntryOf(chat: int): Selections
      reads this
    {
      if chat in userSelections then Some(userSelections[chat]) else None
    }

    /** `getUserSelection` */
    function GetUserSelection(chat: int, key: string): (r: Option<string>)
      reads this
      ensures r.Some? <==> chat in userSelections && key in userSelections[chat]
      ensures r.Some? ==> r.value == userSelections[chat][key]
    {
      Lookup(Sel(EntryOf(chat)), key)
    }

    /** `saveUserSelection`: only this chat's map changes, and only under `key`. */
    method SaveUserSelection(chat: int, key: string, value: string)
      modifies this
      ensures userSelections == PutEntry(old(userSelections), chat, Saved(old(EntryOf(chat)), key, value))
      ensures userStates == old(userStates) && userOrderNumbers == old(userOrderNumbers)
    {
      var m := if chat in userSelections then userSelections[chat] else map[];
      userSelections := userSelections[chat := m[key := value]];
    }

    /** `removeUserSelection`: a chat without a map keeps having none. */
    method RemoveUserSelection(chat: int, key: string)
      modifies this
      ensures userSelections == PutEntry(old(userSelections), chat, Removed(old(EntryOf(chat)), key))
      ensures userStates == old(userStates) && userOrderNumbers == old(userOrderNumbers)
    {
      if chat in userSelections {
        userSelections := userSelections[chat := userSelections[chat] - {key}];
      }
    }

    /** `clearUserSelections`: the chat's map is dropped. */
    method ClearUserSelections(chat: int)
      modifies this
      ensures userSelections == old(userSelections) - {chat}
      ensures userStates == old(userStates) && userOrderNumbers == old(userOrderNumbers)
    {
      userSelections := userSelections - {chat};
    }

    /**
     * What placing an order did: with a stored shop id that parses and names an
     * existing shop, exactly one order was appended, with the next number, and
     * that number was remembered for the chat; otherwise the store and the
     * remembered numbers are as they were.
     */
    twostate predicate Placed(chat: int, now: int)
      reads this, orderService, coffeeShopService
    {
      var shop := old(ShopForOrder(Sel(EntryOf(chat)), coffeeShopService));
      var number := NextOrderNumber(old(orderService.orders));
      && (shop.None? ==>
            orderService.orders == old(orderService.orders) && userOrderNumbers == old(userOrderNumbers))
      && (shop.Some? ==>
            && orderService.orders == old(orderService.orders)
                 + [RequestedOrder(chat, old(Sel(EntryOf(chat))), shop.value, number, now)]
            && userOrderNumbers == old(userOrderNumbers)[chat := NumberText(number)])
    }

    /**
     * `createOrderInDatabase`: with a stored shop id that parses and names an
     * existing shop, one PENDING order for this customer is stored with the
     * selected drink, size word, add-ons and computed price, and its number is
     * remembered for the chat. Otherwise nothing is stored.
     */
    method CreateOrderInDatabase(chat: int, now: int)
      requires Valid()
      modifies this, orderService
      ensures Valid()
      ensures userSelections == old(userSelections) && userStates == old(userStates)
      ensures Placed(chat, now)
    {
      var coffeeType := GetUserSelection(chat, CoffeeTypeKey);
      var size := GetSizeLabel(GetUserSelection(chat, SizeKey));
      var milkType := GetUserSelection(chat, MilkTypeKey);
      var syrupType := GetUserSelection(chat, SyrupTypeKey);
      var totalPrice := CalculateTotalPrice(Sel(EntryOf(chat)));
      var coffeeShopIdStr := GetUserSelection(chat, CoffeeShopIdKey);
      if coffeeShopIdStr.None? {
        return;
      }
      var coffeeShopId := ParseLong(coffeeShopIdStr.value);
      if coffeeShopId.None? {
        return;
      }
      var coffeeShop := coffeeShopService.FindById(coffeeShopId.value);
      if coffeeShop.None? {
        return;
      }
      var order := orderService.CreateOrder(Some(chat), coffeeShop.value, coffeeType, size, milkType,
                                            syrupType, totalPrice, now);
      userOrderNumbers := userOrderNumbers[chat := order.OrderNumber()];
    }

    /**
     * The "Я забрал(а)" branch: the customer's newest READY order is set to
     * COMPLETED and the completion page is shown; without one, a text-only
     * reply and no change.
     */
    method HandlePickup(chat: int, now: int) returns (buttons: seq<string>)
      requires Valid()
      modifies orderService
      ensures Valid()
      ensures orderService.orders == old(AfterPickup(orderService, chat, now))
      ensures buttons == if old(PickupTarget(orderService, chat)).Some? then CompletionButtons else []
    {
      var readyOrders := orderService.GetOrdersByCustomerIdAndStatus(chat, READY);
      if readyOrders != [] {
        var sorted := Seqs.SortDesc(readyOrders, CreatedAt);
        var latestOrder := sorted[0];
        var updated := orderService.UpdateOrderStatus(latestOrder.OrderNumber(), COMPLETED, now);
        buttons := CompletionButtons;
      } else {
        buttons := [];
      }
    }

    /** `handleCoffeeShopSelection` */
    method HandleCoffeeShopSelection(chat: int, text: string) returns (buttons: seq<string>)
      modifies this
      ensures var out := ShopStep(old(EntryOf(chat)), text, coffeeShopService.GetAllActiveShops());
        && userStates == PutState(old(userStates), chat, out.state)
        && userSelections == PutEntry(old(userSelections), chat, out.selections)
        && buttons == out.buttons
      ensures userOrderNumbers == old(userOrderNumbers)
    {
      var coffeeShopOpt := FirstShopNamed(coffeeShopService.GetAllActiveShops(), text);
      if coffeeShopOpt.Some? {
        SaveUserSelection(chat, CoffeeShopIdKey, NumberText(coffeeShopOpt.value.id));
        userStates := userStates[chat := SELECTING_COFFEE];
        buttons := CoffeeButtons;
      } else {
        buttons := [];
      }
    }

    /** `handleAddonsSelection` */
    method HandleAddonsSelection(chat: int, text: string) returns (buttons: seq<string>)
      modifies this
      ensures var out := AddonsStep(old(EntryOf(chat)), text);
        && userStates == PutState(old(userStates), chat, out.state)
        && userSelections == PutEntry(old(userSelections), chat, out.selections)
        && buttons == out.buttons
      ensures userOrderNumbers == old(userOrderNumbers)
    {
      if text == MilkButton {
        userStates := userStates[chat := SELECTING_MILK];
        buttons := MilkLabels;
      } else if text == SyrupButton {
        userStates := userStates[chat := SELECTING_SYRUP];
        buttons := SyrupLabels;
      } else if text == RemoveMilkButton {
        RemoveUserSelection(chat, MilkTypeKey);
        buttons := AddonsButtons(Sel(EntryOf(chat)));
      } else if text == RemoveSyrupButton {
        RemoveUserSelection(chat, SyrupTypeKey);
        buttons := AddonsButtons(Sel(EntryOf(chat)));
      } else if text == NoAddonsButton {
        RemoveUserSelection(chat, MilkTypeKey);
        RemoveUserSelection(chat, SyrupTypeKey);
        userStates := userStates[chat := CONFIRMING_ORDER];
        buttons := SummaryButtons;
      } else if text == DoneButton {
        userStates := userStates[chat := CONFIRMING_ORDER];
        buttons := SummaryButtons;
      } else {
        buttons := [];
      }
    }

    /** `handleOrderConfirmation` */
    method HandleOrderConfirmation(chat: int, text: string) returns (buttons: seq<string>)
      modifies this
      ensures var out := ConfirmStep(old(EntryOf(chat)), text);
        && userStates == PutState(old(userStates), chat, out.state)
        && userSelections == PutEntry(old(userSelections), chat, out.selections)
        && buttons == out.buttons
      ensures userOrderNumbers == old(userOrderNumbers)
    {
      if text == YesText {
        userStates := userStates[chat := PAYMENT_INIT];
        buttons := PayButtons;
      } else if text == ChangeOrderText {
        userStates := userStates[chat := SELECTING_ADDONS];
        buttons := AddonsButtons(Sel(EntryOf(chat)));
      } else if text == CancelText {
        ClearUserSelections(chat);
        userStates := userStates[chat := START];
        buttons := WelcomeButtons;
      } else {
        buttons := [];
      }
    }

    /** A valid choice on a drink, size, milk or syrup page: store it, then show the next page. */
    method SaveAndAdvance(chat: int, key: string, text: string, next: UserState) returns (buttons: seq<string>)
      modifies this
      ensures var r := Saved(old(EntryOf(chat)), key, text);
        && userSelections == PutEntry(old(userSelections), chat, r)
        && userStates == old(userStates)[chat := next]
        && buttons == (if next == SELECTING_SIZE then SizeButtons(Some(text)) else AddonsButtons(Sel(r)))
      ensures userOrderNumbers == old(userOrderNumbers)
    {
      SaveUserSelection(chat, key, text);
      userStates := userStates[chat := next];
      if next == SELECTING_SIZE {
        buttons := SizeButtons(GetUserSelection(chat, CoffeeTypeKey));
        assert GetUserSelection(chat, CoffeeTypeKey) == Some(text) || key != CoffeeTypeKey;
        if key != CoffeeTypeKey {
          buttons := SizeButtons(Some(text));
        }
      } else {
        buttons := AddonsButtons(Sel(EntryOf(chat)));
      }
    }

    /** The pages with a single button: start, "I want coffee", "Pay"; after the order nothing is accepted. */
    method HandleButtonStep(chat: int, text: string) returns (buttons: seq<string>)
      requires StateOf(chat) in {START, INTRO, PAYMENT_INIT, ORDER_COMPLETED}
      modifies this
      ensures var out := StateStep(old(StateOf(chat)), old(EntryOf(chat)), text, coffeeShopService.GetAllActiveShops());
        && userStates == PutState(old(userStates), chat, out.state)
        && userSelections == PutEntry(old(userSelections), chat, out.selections)
        && buttons == out.buttons
        && out.effect == NoEffect
      ensures userOrderNumbers == old(userOrderNumbers)
    {
      KeepEntry(userSelections, chat);
      var currentState := StateOf(chat);
      buttons := [];
      if currentState == START {
        if text == StartText {
          userStates := userStates[chat := INTRO];
          buttons := IntroButtons;
        }
      } else if currentState == INTRO {
        if text == WantCoffeeText {
          userStates := userStates[chat := SELECTING_COFFEE_SHOP];
          buttons := ShopButtons(coffeeShopService.GetAllActiveShops());
        }
      } else if currentState == PAYMENT_INIT {
        if text == PayText {
          userStates := userStates[chat := PAYMENT_CONFIRM];
          buttons := PaidButtons;
        }
      }
    }

    /** The drink, size, milk and syrup pages: a valid button is saved under its key and the dialogue moves on. */
    method HandleMenuChoice(chat: int, text: string) returns (buttons: seq<string>)
      requires StateOf(chat) in {SELECTING_COFFEE, SELECTING_SIZE, SELECTING_MILK, SELECTING_SYRUP}
      modifies this
      ensures var out := StateStep(old(StateOf(chat)), old(EntryOf(chat)), text, coffeeShopService.GetAllActiveShops());
        && userStates == PutState(old(userStates), chat, out.state)
        && userSelections == PutEntry(old(userSelections), chat, out.selections)
        && buttons == out.buttons
        && out.effect == NoEffect
      ensures userOrderNumbers == old(userOrderNumbers)
    {
      var currentState := StateOf(chat);
      if currentState == SELECTING_COFFEE {
        if IsValidCoffeeType(text) {
          buttons := SaveAndAdvance(chat, CoffeeTypeKey, text, SELECTING_SIZE);
        } else {
          buttons := [];
        }
      } else if currentState == SELECTING_SIZE {
        if IsValidSize(text) {
          buttons := SaveAndAdvance(chat, SizeKey, text, SELECTING_ADDONS);
        } else {
          buttons := [];
        }
      } else if currentState == SELECTING_MILK {
        if IsValidMilkType(text) {
          buttons := SaveAndAdvance(chat, MilkTypeKey, text, SELECTING_ADDONS);
        } else {
          buttons := [];
        }
      } else {
        if IsValidSyrupType(text) {
          buttons := SaveAndAdvance(chat, SyrupTypeKey, text, SELECTING_ADDONS);
        } else {
          buttons := [];
        }
      }
    }

    /** The states that only move the dialogue: every state but PAYMENT_CONFIRM. */
    method HandleDialogueState(chat: int, text: string) returns (buttons: seq<string>)
      requires StateOf(chat) != PAYMENT_CONFIRM
      modifies this
      ensures var out := StateStep(old(StateOf(chat)), old(EntryOf(chat)), text, coffeeShopService.GetAllActiveShops());
        && userStates == PutState(old(userStates), chat, out.state)
        && userSelections == PutEntry(old(userSelections), chat, out.selections)
        && buttons == out.buttons
        && out.effect == NoEffect
      ensures userOrderNumbers == old(userOrderNumbers)
    {
      var currentState := StateOf(chat);
      match currentState
      case START =>
        buttons := HandleButtonStep(chat, text);
      case INTRO =>
        buttons := HandleButtonStep(chat, text);
      case SELECTING_COFFEE_SHOP =>
        buttons := HandleCoffeeShopSelection(chat, text);
      case SELECTING_COFFEE =>
        buttons := HandleMenuChoice(chat, text);
      case SELECTING_SIZE =>
        buttons := HandleMenuChoice(chat, text);
      case SELECTING_ADDONS =>
        buttons := HandleAddonsSelection(chat, text);
      case SELECTING_MILK =>
        buttons := HandleMenuChoice(chat, text);
      case SELECTING_SYRUP =>
        buttons := HandleMenuChoice(chat, text);
      case CONFIRMING_ORDER =>
        buttons := HandleOrderConfirmation(chat, text);
      case PAYMENT_INIT =>
        buttons := HandleButtonStep(chat, text);
      case ORDER_COMPLETED =>
        buttons := HandleButtonStep(chat, text);
      case PAYMENT_CONFIRM =>
        buttons := [];
    }

    /** The per-state switch of `onUpdateReceived`, reached when no global command matched. */
    method HandleState(chat: int, text: string, now: int) returns (buttons: seq<string>)
      requires Valid()
      modifies this, orderService
      ensures Valid()
      ensures var out := StateStep(old(StateOf(chat)), old(EntryOf(chat)), text, coffeeShopService.GetAllActiveShops());
        && userStates == PutState(old(userStates), chat, out.state)
        && userSelections == PutEntry(old(userSelections), chat, out.selections)
        && buttons == out.buttons
        && out.effect != Pickup
        && (out.effect == NoEffect ==>
              orderService.orders == old(orderService.orders) && userOrderNumbers == old(userOrderNumbers))
        && (out.effect == PlaceOrder ==> Placed(chat, now))
    {
      if StateOf(chat) == PAYMENT_CONFIRM {
        if text == PaidText {
          CreateOrderInDatabase(chat, now);
          userStates := userStates[chat := ORDER_COMPLETED];
          buttons := SuccessButtons;
        } else {
          buttons := PaidButtons;
        }
      } else {
        buttons := HandleDialogueState(chat, text);
      }
    }

    /**
     * `onUpdateReceived` for a text message: the chat's state and selections
     * move as `CustomerStep` says, every other chat is untouched, the reply
     * shows the step's buttons, and the store changes only by the step's action.
     */
    method OnUpdateReceived(chat: int, text: string, now: int) returns (buttons: seq<string>)
      requires Valid()
      modifies this, orderService
      ensures Valid()
      ensures var out := CustomerStep(old(StateOf(chat)), old(EntryOf(chat)), text, coffeeShopService.GetAllActiveShops());
        && userStates == PutState(old(userStates), chat, out.state)
        && userSelections == PutEntry(old(userSelections), chat, out.selections)
        && (out.effect != Pickup ==> buttons == out.buttons)
        && (out.effect == NoEffect ==>
              orderService.orders == old(orderService.orders) && userOrderNumbers == old(userOrderNumbers))
        && (out.effect == Pickup ==>
              && orderService.orders == old(AfterPickup(orderService, chat, now))
              && userOrderNumbers == old(userOrderNumbers)
              && buttons == if old(PickupTarget(orderService, chat)).Some? then CompletionButtons else [])
        && (out.effect == PlaceOrder ==> Placed(chat, now))
    {
      if text == PickedUpText {
        buttons := HandlePickup(chat, now);
        return;
      }
      if text == StartCommand {
        userStates := userStates[chat := START];
        ClearUserSelections(chat);
        buttons := WelcomeButtons;
      } else if text == NewOrderText || text == AnotherOrderText {
        ClearUserSelections(chat);
        userStates := userStates[chat := SELECTING_COFFEE_SHOP];
        buttons := ShopButtons(coffeeShopService.GetAllActiveShops());
      } else {
        buttons := HandleState(chat, text, now);
      }
    }
  }
}
