# Kwonka coffee bots — a Dafny model of the order lifecycle

Three Telegram bots share one order store. A customer picks a coffee shop, a
drink, a size and add-ons, pays, and gets a PENDING order. A barista bound to
that shop takes the order into preparation and marks it ready, which notifies
the customer. The customer confirms pick-up, which completes the order. An
admin watches the pending orders, escalates long waits and reads the day's
statistics.

This project models that core:

- the three per-chat dialogue state machines;
- the price table;
- the order store and shop directory;
- the escalation engine;
- the daily statistics;
- the cross-bot notifier.

Everything is stated and proved in Dafny.

| file | module | models |
|---|---|---|
| `order.dfy` | `OrderEntity` | the `Order` record, its status enum, the `@PrePersist`/`@PreUpdate` hooks, whole-minute waits |
| `order_service.dfy` | `OrderStore` | `OrderService`: sequential numbers, create, status update, queries |
| `coffee_shop_service.dfy` | `ShopDirectory` | `CoffeeShopService`: active filter, lookups, create, partial update, deactivate |
| `bot_communication.dfy` | `Notifier` | `BotCommunicationService`: callback registries and the delivery log |
| `order_monitor.dfy` | `OrderMonitor` | `OrderMonitorService`: admin registry, notification ledger, delayed filter, cleanup sweep |
| `statistics.dfy` | `Statistics` | `StatisticsService`: per-shop counters and `getDayStats` |
| `pricing.dfy` | `Pricing` | `calculateTotalPrice`, `getSizeLabel`, the `isValid*` tests, the size and add-on keyboards |
| `customer_bot.dfy` | `CustomerDialogue` | `CustomerBot.onUpdateReceived` and its handlers |
| `barista_bot.dfy` | `BaristaDialogue` | `BaristaBot.onUpdateReceived`, callback routing, take/ready/details |
| `admin_bot.dfy` | `AdminDialogue` | `AdminBot.onUpdateReceived`, the order views, `handleNotifyBarista`, `autoCheckDelayedOrders` |
| `text.dfy`, `seqs.dfy`, `wrappers.dfy` | `Text`, `Seqs`, `Wrappers` | string helpers (`contains`, `startsWith`, `String.valueOf`, `Long.parseLong`, `split(":")`), filter and stable descending sort, `Option` |

## Modelling choices

**Bots and services.** Each bot and service is a `class`. Its Java maps become
`map` fields and its repository becomes a `seq` of rows. Each handler is a
method proved against a pure step function of the old state. Each bot's step
function (`CustomerStep`, `TextStep`, `AdminStep`) is specified by lemmas
about tokens and states.

**Replies.** A reply is modelled by what it offers:

- the labels of its reply keyboard;
- for a listing, the orders and the callback data of their inline buttons;
- for the admin report, its figures.

Message texts are not modelled.

**Clock and money.** The clock is an integer number of seconds passed in as
`now`. A wait is the elapsed seconds divided by 60, truncated toward zero as
`Duration.toMinutes` does. Prices are whole tenge, as `int`.

**Order numbers.** An order number is a `nat` whose stored text is its decimal
`String.valueOf`. Lookups compare that text with the argument exactly, as
`findByOrderNumber` does.

**Automatic escalation.** It is proved as written: the ledger is marked inside
the per-admin loop. So each critical order goes to the first admin that
`getActiveAdminMonitors` yields, and never to the others. The comment above
that loop (admin-bot/src/main/java/com/kwonka/admin/bot/AdminBot.java:573)
says all active admin monitors are notified; the code does not do that.

**Admin `/start`.** It does not unregister the chat.

**Size validation.** `isValidSize` accepts all three sizes for every drink.
Flat White is priced 1090 whatever size is stored.

## Model

| member | source | states |
|---|---|---|
| OrderEntity.OnCreate | common/src/main/java/com/kwonka/common/entity/Order.java:59-63 | `@PrePersist` sets both timestamps to the clock reading and changes no other field |
| OrderEntity.OnUpdate | common/src/main/java/com/kwonka/common/entity/Order.java:65-68 | `@PreUpdate` sets `updatedAt` to the clock reading; `createdAt` and every other field are kept |
| OrderEntity.WaitMinutes | admin-bot/src/main/java/com/kwonka/admin/service/OrderMonitorService.java:75 | `Duration.toMinutes` truncates toward zero: for a non-negative elapsed time m is the whole minutes elapsed (m*60 <= elapsed < (m+1)*60), and the mirrored bounds hold for a negative one |
| OrderStore.MaxOrderNumber | common/src/main/java/com/kwonka/common/service/OrderService.java:48 | the maximum is absent iff the table is empty; otherwise it bounds every row number and is some row's number |
| OrderStore.NextOrderNumber | common/src/main/java/com/kwonka/common/service/OrderService.java:47-53 | the next number is 1 on an empty table, is at least 1, and exceeds every existing number, so it is new |
| OrderStore.NextOrderNumberAfterAppend | common/src/main/java/com/kwonka/common/service/OrderService.java:27-41 | after storing a row that carries the next number, the next number is exactly one more |
| OrderStore.IndexOfNumber | common/src/main/java/com/kwonka/common/service/OrderService.java:60 | the position found holds the first row whose number text is exactly the argument; None iff no row has it; under the store invariant `DistinctNumbers` that row is the only one, as the single-result `findByOrderNumber` needs |
| OrderStore.IndexOfOwnNumber | common/src/main/java/com/kwonka/common/service/OrderService.java:60 | with distinct numbers every row is found at its own position from its own number text |
| OrderStore.WithStatus | common/src/main/java/com/kwonka/common/service/OrderService.java:62-64 | the stored row has the new status and keeps its number and `createdAt` |
| OrderStore.StatusUpdated | common/src/main/java/com/kwonka/common/service/OrderService.java:59-66 | the table keeps its length; an unknown number leaves it unchanged; otherwise the first row with that number is the updated one and every other row is untouched; `findByOrderNumber` is a single-result query, and the store invariant `DistinctNumbers` makes that first row the only one |
| OrderStore.OrderService.CreateOrder | common/src/main/java/com/kwonka/common/service/OrderService.java:23-42 | appends exactly one PENDING order with the next number, the given fields and both timestamps from the clock; the next number then moves up by one |
| OrderStore.OrderService.UpdateOrderStatus | common/src/main/java/com/kwonka/common/service/OrderService.java:58-67 | an unknown number fails and leaves the table as it was; otherwise the matching row gets the new status (from any status) and is returned, and no other row changes |
| OrderStore.OrderService.GetOrderByNumber | common/src/main/java/com/kwonka/common/service/OrderService.java:72-74 | a result is a stored order with exactly that number; nothing is returned iff no order has it; the store invariant `DistinctNumbers` makes it the only such order |
| OrderStore.OrderService.GetOrdersByCustomerId | common/src/main/java/com/kwonka/common/service/OrderService.java:79-81 | exactly the orders of that customer |
| OrderStore.OrderService.GetOrdersByStatus | common/src/main/java/com/kwonka/common/service/OrderService.java:86-88 | exactly the orders with that status |
| OrderStore.OrderService.GetOrdersByShopAndStatus | common/src/main/java/com/kwonka/common/service/OrderService.java:93-95 | exactly the orders of that shop (by id) with that status |
| OrderStore.OrderService.GetOrdersByCustomerIdAndStatus | common/src/main/java/com/kwonka/common/service/OrderService.java:100-102 | exactly the orders of that customer with that status |
| OrderStore.LookupFindsEveryOrder | common/src/main/java/com/kwonka/common/service/OrderService.java:72-74 | every stored order is found by the text of its own number |
| ShopDirectory.IndexOfId | common/src/main/java/com/kwonka/common/service/CoffeeShopService.java:59 | the position found holds a shop with that id; None iff no shop has it |
| ShopDirectory.FirstWhere | common/src/main/java/com/kwonka/common/service/CoffeeShopService.java:28-30 | the first-match search behind `findByCode` and the bots' search of the active shops by name: the shop found is in the list, satisfies the test and no earlier shop does; None iff no shop does |
| ShopDirectory.ShopButtons | customer-bot/src/main/java/com/kwonka/customer/bot/CustomerBot.java:705-737 | one button per shop, by name, in list order |
| ShopDirectory.ShopButtonsNames | customer-bot/src/main/java/com/kwonka/customer/bot/CustomerBot.java:313-337 | a text is on the shop keyboard iff a shop of that name is found |
| ShopDirectory.PatchedNothing | common/src/main/java/com/kwonka/common/service/CoffeeShopService.java:58-80 | an update with every argument null writes the shop back unchanged |
| ShopDirectory.DeactivateIsPatch | common/src/main/java/com/kwonka/common/service/CoffeeShopService.java:89-95 | deactivation is the partial update that only sets `active` to false |
| ShopDirectory.PatchedFields | common/src/main/java/com/kwonka/common/service/CoffeeShopService.java:62-77 | each non-null argument overwrites its field, and each null one leaves its field as it was |
| ShopDirectory.CoffeeShopService.GetAllActiveShops | common/src/main/java/com/kwonka/common/service/CoffeeShopService.java:21-23 | exactly the shops whose active flag is set |
| ShopDirectory.CoffeeShopService.GetShopByCode | common/src/main/java/com/kwonka/common/service/CoffeeShopService.java:28-30 | present iff some shop has that code, and then it has that code |
| ShopDirectory.CoffeeShopService.FindById | common/src/main/java/com/kwonka/common/service/CoffeeShopService.java:35-37 | present iff some shop has that id, and then it has that id |
| ShopDirectory.CoffeeShopService.CreateCoffeeShop | common/src/main/java/com/kwonka/common/service/CoffeeShopService.java:43-51 | appends one active shop with the given name, address and code under a fresh id |
| ShopDirectory.CoffeeShopService.UpdateCoffeeShop | common/src/main/java/com/kwonka/common/service/CoffeeShopService.java:58-83 | an unknown id returns empty and changes nothing; otherwise only that shop is rewritten, non-null arguments overwriting and null ones keeping each field |
| ShopDirectory.CoffeeShopService.DeactivateShop | common/src/main/java/com/kwonka/common/service/CoffeeShopService.java:89-98 | an unknown id returns empty and changes nothing; otherwise only that shop changes, and only by `active := false` |
| Notifier.DeliveryTo | common/src/main/java/com/kwonka/common/service/BotCommunicationService.java:50-72 | at most one delivery; there is one iff the key is registered, and it carries that key's callback and the order |
| Notifier.BotCommunicationService.RegisterCustomerCallback | common/src/main/java/com/kwonka/common/service/BotCommunicationService.java:34-37 | binds or rebinds the customer id and changes nothing else |
| Notifier.BotCommunicationService.RegisterBaristaCallback | common/src/main/java/com/kwonka/common/service/BotCommunicationService.java:42-45 | binds or rebinds the location code and changes nothing else |
| Notifier.BotCommunicationService.NotifyCustomer | common/src/main/java/com/kwonka/common/service/BotCommunicationService.java:50-58 | the log grows by the delivery to the callback of the order's customer id, or by nothing; the registries are untouched |
| Notifier.BotCommunicationService.NotifyBarista | common/src/main/java/com/kwonka/common/service/BotCommunicationService.java:63-72 | the log grows by the delivery to the callback of the order's shop code, or by nothing; the registries are untouched |
| Notifier.BotCommunicationService.HandleOrderStatusChange | common/src/main/java/com/kwonka/common/service/BotCommunicationService.java:78-83 | the customer's delivery is logged, then the barista's |
| Notifier.RebindingReplaces | common/src/main/java/com/kwonka/common/service/BotCommunicationService.java:34-45 | after re-registering, notifying reaches the new callback only |
| Notifier.StatusChangeOrder | common/src/main/java/com/kwonka/common/service/BotCommunicationService.java:79-83 | a status change delivers at most twice and, with both registered, to the customer first |
| OrderMonitor.DelayedEntries | admin-bot/src/main/java/com/kwonka/admin/service/OrderMonitorService.java:67-83 | the delayed list is no longer than the pending list |
| OrderMonitor.DelayedEntriesMembers | admin-bot/src/main/java/com/kwonka/admin/service/OrderMonitorService.java:73-80 | an entry is in the list iff its order is pending, its wait is the truncated minutes since creation, and that wait is at least five |
| OrderMonitor.DelayedEntriesInOrder | admin-bot/src/main/java/com/kwonka/admin/service/OrderMonitorService.java:73-80 | the listed orders are the pending orders filtered, in input order |
| OrderMonitor.NotifiedIffMarkedSinceCleared | admin-bot/src/main/java/com/kwonka/admin/service/OrderMonitorService.java:91-111 | after a sequence of marks and clears, a number is in the ledger iff its last operation was a mark (or, untouched, it was there before) |
| OrderMonitor.OrderMonitorService.RegisterAdminMonitor | admin-bot/src/main/java/com/kwonka/admin/service/OrderMonitorService.java:38-41 | adds the admin (idempotently); the ledger is untouched |
| OrderMonitor.OrderMonitorService.UnregisterAdminMonitor | admin-bot/src/main/java/com/kwonka/admin/service/OrderMonitorService.java:48-51 | removes only that admin; the ledger is untouched |
| OrderMonitor.OrderMonitorService.GetActiveAdminMonitors | admin-bot/src/main/java/com/kwonka/admin/service/OrderMonitorService.java:58-60 | lists each registered admin exactly once and nothing else |
| OrderMonitor.OrderMonitorService.GetDelayedPendingOrders | admin-bot/src/main/java/com/kwonka/admin/service/OrderMonitorService.java:67-83 | the result is the delayed list of the store's PENDING orders |
| OrderMonitor.OrderMonitorService.IsOrderAlreadyNotified | admin-bot/src/main/java/com/kwonka/admin/service/OrderMonitorService.java:91-93 | the ledger membership test; it has no contract of its own, and what it answers after marks and clears is stated by MarkOrderAsNotified, ClearOrderNotification and NotifiedIffMarkedSinceCleared |
| OrderMonitor.OrderMonitorService.MarkOrderAsNotified | admin-bot/src/main/java/com/kwonka/admin/service/OrderMonitorService.java:100-102 | idempotently adds the number to the ledger; the registry is untouched |
| OrderMonitor.OrderMonitorService.ClearOrderNotification | admin-bot/src/main/java/com/kwonka/admin/service/OrderMonitorService.java:109-111 | removes only that number, a no-op when absent; the registry is untouched |
| OrderMonitor.OrderMonitorService.ClearAll | admin-bot/src/main/java/com/kwonka/admin/service/OrderMonitorService.java:123-133 | clearing every order of a list removes exactly their numbers from the ledger |
| OrderMonitor.OrderMonitorService.CleanupOldNotifications | admin-bot/src/main/java/com/kwonka/admin/service/OrderMonitorService.java:117-136 | removes the ledger entries of COMPLETED, IN_PREPARATION and READY orders, and nothing else; the registry is untouched |
| OrderMonitor.SweepKeepsPendingAndCancelled | admin-bot/src/main/java/com/kwonka/admin/service/OrderMonitorService.java:118-133 | with distinct numbers an order's entry is swept iff its status is COMPLETED, IN_PREPARATION or READY, so PENDING and CANCELLED entries survive |
| Statistics.Day | admin-bot/src/main/java/com/kwonka/admin/service/StatisticsService.java:107-108 | the clock reading falls inside the day `LocalDate.now()` gives |
| Statistics.DayOrders | admin-bot/src/main/java/com/kwonka/admin/service/StatisticsService.java:119-125 | exactly the completed orders created within the day, both bounds included |
| Statistics.ShopOrders | admin-bot/src/main/java/com/kwonka/admin/service/StatisticsService.java:137-139 | exactly the day's orders of that shop, compared by id |
| Statistics.TallyTable | admin-bot/src/main/java/com/kwonka/admin/service/StatisticsService.java:128-149 | the table has one key per active shop name |
| Statistics.TallyTableEntry | admin-bot/src/main/java/com/kwonka/admin/service/StatisticsService.java:134-146 | with distinct shop names each shop's entry is its own count and revenue |
| Statistics.NoOrdersAllZero | admin-bot/src/main/java/com/kwonka/admin/service/StatisticsService.java:128-151 | with no completed order both totals and every entry are zero |
| Statistics.IdleShopTally | admin-bot/src/main/java/com/kwonka/admin/service/StatisticsService.java:134-146 | a shop without orders on the day gets the entry 0/0 |
| Statistics.RevenueNonNegative | admin-bot/src/main/java/com/kwonka/admin/service/StatisticsService.java:45-48 | revenue over non-negative prices is non-negative |
| Statistics.CoffeeShopStats.constructor | admin-bot/src/main/java/com/kwonka/admin/service/StatisticsService.java:39-43 | a new counter starts at zero orders and zero revenue |
| Statistics.CoffeeShopStats.AddOrder | admin-bot/src/main/java/com/kwonka/admin/service/StatisticsService.java:45-48 | the count goes up by exactly one and the order's price is added to the revenue |
| Statistics.DailyStats.constructor | admin-bot/src/main/java/com/kwonka/admin/service/StatisticsService.java:72-77 | a new report has no entries and zero totals |
| Statistics.DailyStats.AddShopStats | admin-bot/src/main/java/com/kwonka/admin/service/StatisticsService.java:79-83 | the entry is stored under the shop name and its count and revenue are added to the totals |
| Statistics.CountShop | admin-bot/src/main/java/com/kwonka/admin/service/StatisticsService.java:134-143 | the counter built order by order holds the shop's tally for the day |
| Statistics.GetDayStats | admin-bot/src/main/java/com/kwonka/admin/service/StatisticsService.java:117-152 | every active shop gets an entry with its tally of COMPLETED orders created on the day; the totals are the sums over the active shops, so orders of inactive shops are not counted |
| Text.NumberText | common/src/main/java/com/kwonka/common/service/OrderService.java:52 | `String.valueOf` of a number is a non-empty run of decimal digits, a single digit iff the number is below ten |
| Text.ParseLong | admin-bot/src/main/java/com/kwonka/admin/bot/AdminBot.java:151 | `Long.parseLong` succeeds iff the text is digits with an optional leading sign; the value is non-negative without a minus and non-positive with one |
| Text.ParseNumberText | customer-bot/src/main/java/com/kwonka/customer/bot/CustomerBot.java:239 | `Long.parseLong` reads the text `String.valueOf` wrote for a shop id back as that id |
| Text.NumberTextInjective | common/src/main/java/com/kwonka/common/service/OrderService.java:52 | distinct order numbers have distinct texts |
| Text.TwoFields | admin-bot/src/main/java/com/kwonka/admin/bot/AdminBot.java:149 | the two fields are colon-free and the data is the first, a colon, the second, then the end or a colon; none iff there is no colon |
| Text.TwoFieldsJoin | admin-bot/src/main/java/com/kwonka/admin/bot/AdminBot.java:149 | splitting two colon-free fields joined by a colon gives them back |
| Pricing.Lookup | customer-bot/src/main/java/com/kwonka/customer/bot/CustomerBot.java:269-272 | the value under the key, present iff the key is stored |
| Pricing.SizeInMl | customer-bot/src/main/java/com/kwonka/customer/bot/CustomerBot.java:533-542 | the size read from the label is 250, 350, 450 or 0 |
| Pricing.BasePrice | customer-bot/src/main/java/com/kwonka/customer/bot/CustomerBot.java:545-567 | the drink part lies in 0..1590; Flat White is 1090 at any size; it is non-zero iff the drink is Flat White, or a menu drink at 250, 350 or 450 ml |
| Pricing.MilkSurcharge | customer-bot/src/main/java/com/kwonka/customer/bot/CustomerBot.java:570-574 | milk costs the cup size plus 100 (350/450/550) for the three sizes and nothing for any other size |
| Pricing.CalculateTotalPrice | customer-bot/src/main/java/com/kwonka/customer/bot/CustomerBot.java:524-581 | the price lies between 0 and 2300, and without add-ons it is the drink's own price |
| Pricing.GetSizeLabel | customer-bot/src/main/java/com/kwonka/customer/bot/CustomerBot.java:583-591 | null gives the empty text; otherwise the size word or the label itself |
| Pricing.SizeButtons | customer-bot/src/main/java/com/kwonka/customer/bot/CustomerBot.java:793-813 | the size buttons offered for a drink |
| Pricing.ValidCoffeeTypeIsDrink | customer-bot/src/main/java/com/kwonka/customer/bot/CustomerBot.java:285-290 | a text passes `isValidCoffeeType` iff it is the label of a menu drink |
| Pricing.ValidSizeIsSize | customer-bot/src/main/java/com/kwonka/customer/bot/CustomerBot.java:292-297 | a text passes `isValidSize` iff it is one of the three size labels, whatever the drink |
| Pricing.SizeLabelMl | customer-bot/src/main/java/com/kwonka/customer/bot/CustomerBot.java:533-542 | each size button is read as its own cup size |
| Pricing.SizeLabelWord | customer-bot/src/main/java/com/kwonka/customer/bot/CustomerBot.java:583-591 | each size button becomes its size word |
| Pricing.PriceIsMenuPrice | customer-bot/src/main/java/com/kwonka/customer/bot/CustomerBot.java:524-581 | for a drink and size chosen from the buttons the price is the menu price: base plus milk 350/450/550 by size when milk is chosen, plus 160 when syrup is chosen |
| Pricing.DrinkPrice | customer-bot/src/main/java/com/kwonka/customer/bot/CustomerBot.java:545-567 | the drink part of the price agrees with the menu for every drink and size |
| Pricing.FlatWhiteFixedPrice | customer-bot/src/main/java/com/kwonka/customer/bot/CustomerBot.java:552-553 | Flat White without add-ons costs 1090 whatever size is stored, or with none |
| Pricing.AmericanoSmallPlain | customer-bot/src/main/java/com/kwonka/customer/bot/CustomerBot.java:547-548 | Americano 250 ml without add-ons costs 990 |
| Pricing.LatteMediumWithMilk | customer-bot/src/main/java/com/kwonka/customer/bot/CustomerBot.java:555-574 | Latte 350 ml with milk costs 1640 |
| Pricing.SizeButtonsByDrink | customer-bot/src/main/java/com/kwonka/customer/bot/CustomerBot.java:795-813 | Flat White is offered only "Маленький 250 мл"; every other drink all three sizes |
| Pricing.AddonsButtons | customer-bot/src/main/java/com/kwonka/customer/bot/CustomerBot.java:856-885 | the add-on keyboard has three to six buttons, exactly three iff neither add-on is chosen |
| Pricing.AddonsButtonsShape | customer-bot/src/main/java/com/kwonka/customer/bot/CustomerBot.java:856-885 | milk and syrup first; a remove button exactly for each chosen add-on; "Готово" iff one is chosen; "Без добавок" last |
| CustomerDialogue.Saved | customer-bot/src/main/java/com/kwonka/customer/bot/CustomerBot.java:265-267 | after saving the chat has a map whose keys are the old keys plus this one, this key holds the value, and every other key keeps its value; a missing map is created |
| CustomerDialogue.Removed | customer-bot/src/main/java/com/kwonka/customer/bot/CustomerBot.java:274-279 | removing drops the key; a chat without a map keeps having none |
| CustomerDialogue.ResetCommands | customer-bot/src/main/java/com/kwonka/customer/bot/CustomerBot.java:110-119 | "/start" gives START with no selections; the two new-order texts give SELECTING_COFFEE_SHOP with no selections and the shop page |
| CustomerDialogue.StepMovesIffAccepted | customer-bot/src/main/java/com/kwonka/customer/bot/CustomerBot.java:124-219 | outside the global commands the state moves iff the state accepts the text (the two remove buttons accepted but staying put) |
| CustomerDialogue.UnacceptedChangesNothing | customer-bot/src/main/java/com/kwonka/customer/bot/CustomerBot.java:125-219 | a text the state does not accept changes neither the state, nor the selections, nor the store |
| CustomerDialogue.AddonTokens | customer-bot/src/main/java/com/kwonka/customer/bot/CustomerBot.java:339-378 | "Без добавок" removes milk and syrup and confirms; each remove button drops only its key and stays; "Готово" confirms with the selections kept |
| CustomerDialogue.ConfirmTokens | customer-bot/src/main/java/com/kwonka/customer/bot/CustomerBot.java:380-405 | "Да" goes to payment, "Изменить заказ" back to the add-ons with the selections kept, "Отмена" to START with none |
| CustomerDialogue.PlaceOrderOnlyWhenPaid | customer-bot/src/main/java/com/kwonka/customer/bot/CustomerBot.java:204-213 | an order is placed iff the chat is at PAYMENT_CONFIRM and sends "Я оплатил(а)", which then moves it to ORDER_COMPLETED |
| CustomerDialogue.CustomerStep | customer-bot/src/main/java/com/kwonka/customer/bot/CustomerBot.java:61-222 | the step reaches ORDER_COMPLETED iff it places an order, and a step with a store effect keeps the selections |
| CustomerDialogue.PickupKeepsSession | customer-bot/src/main/java/com/kwonka/customer/bot/CustomerBot.java:69-108 | "Я забрал(а)" is the pick-up in every state and changes neither the state nor the selections |
| CustomerDialogue.PickupTarget | customer-bot/src/main/java/com/kwonka/customer/bot/CustomerBot.java:71-78 | the order picked up is a READY order of that customer in the store; none iff the customer has no READY order |
| CustomerDialogue.AfterPickup | customer-bot/src/main/java/com/kwonka/customer/bot/CustomerBot.java:69-82 | the table keeps its length; with nothing to pick up it is unchanged; a changed row is COMPLETED with its number and `createdAt` kept |
| CustomerDialogue.PickupCompletesNewestReady | customer-bot/src/main/java/com/kwonka/customer/bot/CustomerBot.java:69-108 | with no READY order of the customer nothing changes; otherwise the customer's newest READY order, and only that row, is set to COMPLETED |
| CustomerDialogue.CustomerBot.GetUserSelection | customer-bot/src/main/java/com/kwonka/customer/bot/CustomerBot.java:269-272 | the chat's value under the key, absent when the chat or the key is |
| CustomerDialogue.CustomerBot.SaveUserSelection | customer-bot/src/main/java/com/kwonka/customer/bot/CustomerBot.java:265-267 | only this chat's map changes, and only under the key |
| CustomerDialogue.CustomerBot.RemoveUserSelection | customer-bot/src/main/java/com/kwonka/customer/bot/CustomerBot.java:274-279 | only this chat's key is dropped |
| CustomerDialogue.CustomerBot.ClearUserSelections | customer-bot/src/main/java/com/kwonka/customer/bot/CustomerBot.java:281-283 | the chat's map is dropped |
| CustomerDialogue.CustomerBot.CreateOrderInDatabase | customer-bot/src/main/java/com/kwonka/customer/bot/CustomerBot.java:224-263 | with a stored shop id that parses and names a shop, exactly one PENDING order with the selections, size word and computed price is stored and its number remembered; otherwise nothing is stored |
| CustomerDialogue.CustomerBot.HandlePickup | customer-bot/src/main/java/com/kwonka/customer/bot/CustomerBot.java:69-108 | the store becomes the pick-up's result and the session is untouched |
| CustomerDialogue.CustomerBot.HandleCoffeeShopSelection | customer-bot/src/main/java/com/kwonka/customer/bot/CustomerBot.java:313-337 | an active shop's name stores its id and opens the drinks; anything else changes nothing |
| CustomerDialogue.CustomerBot.HandleAddonsSelection | customer-bot/src/main/java/com/kwonka/customer/bot/CustomerBot.java:339-378 | the add-on page's step on the state and selections |
| CustomerDialogue.CustomerBot.HandleOrderConfirmation | customer-bot/src/main/java/com/kwonka/customer/bot/CustomerBot.java:380-405 | the summary page's step on the state and selections |
| CustomerDialogue.CustomerBot.SaveAndAdvance | customer-bot/src/main/java/com/kwonka/customer/bot/CustomerBot.java:147-189 | a valid choice is stored under its key and the next page shown |
| CustomerDialogue.CustomerBot.HandleButtonStep | customer-bot/src/main/java/com/kwonka/customer/bot/CustomerBot.java:125-141 | START and INTRO (and PAYMENT_INIT, lines 195-202) move on their one button and ignore anything else; ORDER_COMPLETED (the default branch, lines 216-218) ignores every text; the selections and the store are untouched |
| CustomerDialogue.CustomerBot.HandleMenuChoice | customer-bot/src/main/java/com/kwonka/customer/bot/CustomerBot.java:147-189 | on the drink, size, milk and syrup pages a valid label is saved under its key and the page moves on as the step function says; an invalid one changes nothing |
| CustomerDialogue.CustomerBot.HandleDialogueState | customer-bot/src/main/java/com/kwonka/customer/bot/CustomerBot.java:124-203 | every state but PAYMENT_CONFIRM moves as the step function says, with the store untouched |
| CustomerDialogue.CustomerBot.HandleState | customer-bot/src/main/java/com/kwonka/customer/bot/CustomerBot.java:124-219 | the per-state switch moves as the step function says and places an order only on payment |
| CustomerDialogue.CustomerBot.OnUpdateReceived | customer-bot/src/main/java/com/kwonka/customer/bot/CustomerBot.java:61-222 | the chat's state and selections move as the step function says, other chats are untouched, and the store changes only by the step's action |
| BaristaDialogue.ParseCallback | barista-bot/src/main/java/com/kwonka/barista/bot/BaristaBot.java:119-134 | take, ready or view when the data starts with that prefix (tested in that order), the number being the exact rest; unrouted iff no prefix matches |
| BaristaDialogue.CallbackRoundTrip | barista-bot/src/main/java/com/kwonka/barista/bot/BaristaBot.java:124-133 | a button's data for any number is routed back to that number |
| BaristaDialogue.StatusText | barista-bot/src/main/java/com/kwonka/barista/bot/BaristaBot.java:585-600 | every status has its own text, never the "Неизвестно" fallback |
| BaristaDialogue.StatusEmoji | barista-bot/src/main/java/com/kwonka/barista/bot/BaristaBot.java:602-617 | every status has its own emoji, never the "❓" fallback |
| BaristaDialogue.StatusLabelsDistinct | barista-bot/src/main/java/com/kwonka/barista/bot/BaristaBot.java:585-617 | status text and emoji are defined for all five statuses and tell them apart |
| BaristaDialogue.DetailsCallbacks | barista-bot/src/main/java/com/kwonka/barista/bot/BaristaBot.java:468-491 | at most one action button |
| BaristaDialogue.DetailsActionByStatus | barista-bot/src/main/java/com/kwonka/barista/bot/BaristaBot.java:468-491 | "take" for PENDING, "ready" for IN_PREPARATION, no action otherwise |
| BaristaDialogue.OrderCallbacks | barista-bot/src/main/java/com/kwonka/barista/bot/BaristaBot.java:222-393 | two buttons per listed order |
| BaristaDialogue.OrderCallbacksRoute | barista-bot/src/main/java/com/kwonka/barista/bot/BaristaBot.java:222-393 | every listed button routes to its own order: view, and take on the new list or ready on the in-work list |
| BaristaDialogue.ListedOrdersAreFound | barista-bot/src/main/java/com/kwonka/barista/bot/BaristaBot.java:424-431 | with distinct numbers every listed order is found again by its button's number |
| BaristaDialogue.TextStep | barista-bot/src/main/java/com/kwonka/barista/bot/BaristaBot.java:65-116 | the binding changes only on "/start" or on the location page, and then only to the code of an active shop named by the text; the order views open only from the location page with a binding |
| BaristaDialogue.StartUnbinds | barista-bot/src/main/java/com/kwonka/barista/bot/BaristaBot.java:65-69 | "/start" gives START and removes the binding, from any state |
| BaristaDialogue.TextStepAcceptedIff | barista-bot/src/main/java/com/kwonka/barista/bot/BaristaBot.java:70-116 | outside "/start" a text acts iff the state accepts it; otherwise state and binding are unchanged |
| BaristaDialogue.LocationSelectionBinds | barista-bot/src/main/java/com/kwonka/barista/bot/BaristaBot.java:85-99 | an active shop's name binds its code and opens the order views; anything else keeps state and binding |
| BaristaDialogue.ViewingOrdersTokens | barista-bot/src/main/java/com/kwonka/barista/bot/BaristaBot.java:101-115 | only "Сменить локацию" leaves the order views; "Обновить заказы" and "Заказы в работе" keep the state |
| BaristaDialogue.ReadyNotice | barista-bot/src/main/java/com/kwonka/barista/bot/BaristaBot.java:619-629 | one notice, to the order's customer, iff the update succeeded and the order has a customer id |
| BaristaDialogue.BaristaBot.LocationReplies | barista-bot/src/main/java/com/kwonka/barista/bot/BaristaBot.java:164-193 | one keyboard whose buttons are exactly the names of the active shops |
| BaristaDialogue.BaristaBot.DetailsReplies | barista-bot/src/main/java/com/kwonka/barista/bot/BaristaBot.java:424-499 | a details card iff a stored order has that number; the card shows that order, its status emoji and text, and the action buttons its status allows |
| BaristaDialogue.BaristaBot.OrdersReplies | barista-bot/src/main/java/com/kwonka/barista/bot/BaristaBot.java:222-393 | each listing shows the bound shop's orders of the status with their buttons |
| BaristaDialogue.BaristaBot.HandleLocationSelection | barista-bot/src/main/java/com/kwonka/barista/bot/BaristaBot.java:85-99 | the location page's step on state and binding |
| BaristaDialogue.BaristaBot.HandleViewingOrders | barista-bot/src/main/java/com/kwonka/barista/bot/BaristaBot.java:101-115 | the order views' step on state and binding |
| BaristaDialogue.BaristaBot.OnTextReceived | barista-bot/src/main/java/com/kwonka/barista/bot/BaristaBot.java:57-117 | state and binding move as the text step says; the store and the notices are untouched |
| BaristaDialogue.BaristaBot.NotifyCustomerOrderReady | barista-bot/src/main/java/com/kwonka/barista/bot/BaristaBot.java:619-629 | the order's customer is noticed unless the order has no customer id |
| BaristaDialogue.BaristaBot.HandleTakeOrder | barista-bot/src/main/java/com/kwonka/barista/bot/BaristaBot.java:501-529 | the order goes to IN_PREPARATION and no customer is notified; an unknown number changes nothing |
| BaristaDialogue.BaristaBot.HandleOrderReady | barista-bot/src/main/java/com/kwonka/barista/bot/BaristaBot.java:531-562 | the order goes to READY and its customer is notified; an unknown number changes nothing and notifies nobody |
| BaristaDialogue.BaristaBot.OnCallbackReceived | barista-bot/src/main/java/com/kwonka/barista/bot/BaristaBot.java:119-134 | each routed callback has its handler's effect; unrouted data changes nothing; state and binding never change |
| AdminDialogue.WaitIndicator | admin-bot/src/main/java/com/kwonka/admin/bot/AdminBot.java:271-274 | the mark is other than ✅ iff the wait is at least five minutes (the monitor's delay), and ⚠️ iff at least ten (the escalation threshold) |
| AdminDialogue.NotifyRoute | admin-bot/src/main/java/com/kwonka/admin/bot/AdminBot.java:148-153 | routed data starts with "notify_barista:" |
| AdminDialogue.NotifyRoundTrip | admin-bot/src/main/java/com/kwonka/admin/bot/AdminBot.java:441-477 | a delayed card's button routes back to its own order number and barista chat |
| AdminDialogue.ReminderTakesItsOrder | admin-bot/src/main/java/com/kwonka/admin/service/AdminNotificationService.java:75-77 | the reminder's take button is routed by the barista bot to taking exactly that order |
| AdminDialogue.Criticals | admin-bot/src/main/java/com/kwonka/admin/bot/AdminBot.java:564-567 | exactly the delayed entries whose wait is ten minutes or more, sorted by wait, longest first |
| AdminDialogue.CriticalsAreLongWaits | admin-bot/src/main/java/com/kwonka/admin/bot/AdminBot.java:564-567 | the escalated entries are exactly the pending orders that waited ten minutes or more, with their wait, longest wait first |
| AdminDialogue.PassAlerts | admin-bot/src/main/java/com/kwonka/admin/bot/AdminBot.java:575-584 | one admin's pass sends only to that admin, only orders not in the ledger it started from, and never drops a ledger entry |
| AdminDialogue.RoundAlerts | admin-bot/src/main/java/com/kwonka/admin/bot/AdminBot.java:574-585 | a round sends only to listed admins, only orders not in the ledger it started from, and never drops a ledger entry |
| AdminDialogue.PassMarksAll | admin-bot/src/main/java/com/kwonka/admin/bot/AdminBot.java:575-584 | after one admin's pass the ledger is the old one plus every critical number |
| AdminDialogue.PassSendsUnmarked | admin-bot/src/main/java/com/kwonka/admin/bot/AdminBot.java:575-584 | a pass sends exactly the critical numbers not in the ledger, to its admin, each with its own entry's wait |
| AdminDialogue.PassSendsOnce | admin-bot/src/main/java/com/kwonka/admin/bot/AdminBot.java:575-584 | a pass never sends the same order number twice |
| AdminDialogue.SilentWhenAllNotified | admin-bot/src/main/java/com/kwonka/admin/bot/AdminBot.java:580 | a pass over critical numbers all in the ledger sends nothing and marks nothing |
| AdminDialogue.RoundGoesToFirstAdmin | admin-bot/src/main/java/com/kwonka/admin/bot/AdminBot.java:574-585 | the first admin's pass sends everything any admin would receive; afterwards every critical number is in the ledger; with no admin nothing happens |
| AdminDialogue.LaterAdminsSilent | admin-bot/src/main/java/com/kwonka/admin/bot/AdminBot.java:574-585 | admins after the first receive nothing |
| AdminDialogue.NoRepeatNextTick | admin-bot/src/main/java/com/kwonka/admin/bot/AdminBot.java:556-586 | with nothing cleared in between, an order escalated by one check is not escalated again by the next |
| AdminDialogue.OneAdminAlertedSends | admin-bot/src/main/java/com/kwonka/admin/bot/AdminBot.java:574-585 | every alert of a check is about a critical number unmarked before it and marked after it |
| AdminDialogue.NothingCriticalNothingSent | admin-bot/src/main/java/com/kwonka/admin/bot/AdminBot.java:559-571 | with nothing delayed or nothing critical, no alert is sent and the ledger stays |
| AdminDialogue.RoundAlertsOneAdmin | admin-bot/src/main/java/com/kwonka/admin/bot/AdminBot.java:574-585 | a round over the registry's listing sends one registered admin's pass and marks every critical number |
| AdminDialogue.BoardRows | admin-bot/src/main/java/com/kwonka/admin/bot/AdminBot.java:269-274 | each listed order carries its truncated wait and the mark of that wait |
| AdminDialogue.Cards | admin-bot/src/main/java/com/kwonka/admin/bot/AdminBot.java:441-477 | one card per delayed entry with its wait and the reminder button for barista chat 987654321 |
| AdminDialogue.AdminStep | admin-bot/src/main/java/com/kwonka/admin/bot/AdminBot.java:75-139 | an unknown text moves nothing and keeps the registry; the order views open only from MONITORING; registering lands in MONITORING and unregistering in START |
| AdminDialogue.StartKeepsRegistration | admin-bot/src/main/java/com/kwonka/admin/bot/AdminBot.java:75-79 | "/start" gives START from any state and changes no registration |
| AdminDialogue.AdminStepAcceptedIff | admin-bot/src/main/java/com/kwonka/admin/bot/AdminBot.java:84-139 | outside "/start" a text acts iff the state accepts it; otherwise neither state nor registry changes |
| AdminDialogue.RegistrationOnlyAtMonitoring | admin-bot/src/main/java/com/kwonka/admin/bot/AdminBot.java:85-102 | only "Мониторинг заказов" at START registers and only "Вернуться в главное меню" at MONITORING unregisters |
| AdminDialogue.AllOrdersNewestFirst | admin-bot/src/main/java/com/kwonka/admin/bot/AdminBot.java:233-264 | the listing holds exactly the PENDING orders, each once, newest first |
| AdminDialogue.DelayedView | admin-bot/src/main/java/com/kwonka/admin/bot/AdminBot.java:328-392 | the back button first; then cards sorted by wait, longest first, each about an order of the given list with its truncated wait of five minutes or more |
| AdminDialogue.DelayedViewComplete | admin-bot/src/main/java/com/kwonka/admin/bot/AdminBot.java:328-392 | every pending order that waited five minutes or more is in the delayed view, as its card with its truncated wait and its reminder button |
| AdminDialogue.AdminBot.AllOrdersReplies | admin-bot/src/main/java/com/kwonka/admin/bot/AdminBot.java:233-326 | one reply, a message or a board: a plain message iff no order is PENDING; a board lists exactly the PENDING orders, newest first |
| AdminDialogue.AdminBot.DelayedReplies | admin-bot/src/main/java/com/kwonka/admin/bot/AdminBot.java:328-392 | the back button, then cards, longest wait first: each card is a stored PENDING order with its truncated wait of five minutes or more, and every such order has its card, reminder button included |
| AdminDialogue.AdminBot.ReportReplies | admin-bot/src/main/java/com/kwonka/admin/bot/AdminBot.java:424-439 | one report for the day holding the clock reading, with one entry per active shop name; with no COMPLETED order every figure is zero |
| AdminDialogue.AdminBot.SendDailyStatistics | admin-bot/src/main/java/com/kwonka/admin/bot/AdminBot.java:424-439 | the figures are those of the day's report over the store and the active shops |
| AdminDialogue.AdminBot.HandleStart | admin-bot/src/main/java/com/kwonka/admin/bot/AdminBot.java:85-96 | the main menu's step on state and registry |
| AdminDialogue.AdminBot.HandleMonitoring | admin-bot/src/main/java/com/kwonka/admin/bot/AdminBot.java:98-114 | the monitoring menu's step on state and registry |
| AdminDialogue.AdminBot.HandleOrderView | admin-bot/src/main/java/com/kwonka/admin/bot/AdminBot.java:116-124 | in either order view only "Назад" moves (back to MONITORING); the registry is never changed |
| AdminDialogue.AdminBot.HandleStatistics | admin-bot/src/main/java/com/kwonka/admin/bot/AdminBot.java:126-135 | the statistics menu's step: the report leaves the state as it is, the main menu returns to START, and the registry is never changed |
| AdminDialogue.AdminBot.OnTextReceived | admin-bot/src/main/java/com/kwonka/admin/bot/AdminBot.java:67-140 | state and registry move as the admin step says; the ledger and the logs are untouched |
| AdminDialogue.AdminBot.HandleNotifyBarista | admin-bot/src/main/java/com/kwonka/admin/bot/AdminBot.java:492-538 | a reminder with the order's wait is sent iff the order exists and is PENDING |
| AdminDialogue.AdminBot.OnCallbackReceived | admin-bot/src/main/java/com/kwonka/admin/bot/AdminBot.java:141-155 | only parsed "notify_barista:" data reaches the handler; other data sends nothing |
| AdminDialogue.AdminBot.AlertPass | admin-bot/src/main/java/com/kwonka/admin/bot/AdminBot.java:575-584 | the inner loop has the effect of one admin's pass on the alerts and the ledger |
| AdminDialogue.AdminBot.AlertRound | admin-bot/src/main/java/com/kwonka/admin/bot/AdminBot.java:574-585 | the outer loop has the effect of every admin's pass in list order |
| AdminDialogue.AdminBot.AutoCheckDelayedOrders | admin-bot/src/main/java/com/kwonka/admin/bot/AdminBot.java:556-586 | with no admin nothing is sent or marked; otherwise one registered admin receives the unmarked critical orders, longest wait first, and every critical number ends up marked |

## Left out

- Telegram transport is not modelled: `execute`, `SendMessage`, keyboard markup objects, Markdown and message texts. `TelegramApiException` handling is not modelled either. A reply is its button labels or its listed data.
- Unknown-command and error replies are modelled as `Message([])`: a text without a keyboard.
- `sendMonitoringStartedMessage` builds a text it never sends. The model shows only the monitoring options, as the code does.
- `CustomerNotificationService` and `AdminNotificationService` are message formatting with a null-chat no-op. Their sends are appended logs: `readyNotices` in the barista bot and `reminders` in the admin bot. The one logic fact kept is the reminder's `take_order:` callback data.
- `StatisticsService.formatDailyStats` is string formatting only. The report reply carries the figures instead.
- Spring wiring, the `*Config` and `*Application` classes and the repository interfaces are not modelled. A repository is a `seq` of rows in insertion order, not a map keyed by id. Query results then have an order, and the SQL `MAX` is a fold over the rows.
- `@Scheduled` timers are not modelled, nor are `@Async`, `@Transactional`, `HashMap` thread-safety or the concurrent order-number race. Each tick is an explicit method call, and calls are sequential.
- `LocalDateTime` and `LocalDate` become integer seconds and day numbers. `BigDecimal` becomes integer tenge.
- Java's 32-bit `int` is not modelled: the `(int)` cast of the wait, `orderCount++` and `Integer` arithmetic on order numbers are unbounded.
- Text.ParseLong: does not reject values outside the 64-bit range, because ids and chat ids are never that large here.
- Text.ParseLong: accepts only the ASCII digits `0`-`9`. `Long.parseLong` also accepts other Unicode decimal digits (for example Arabic-Indic ones), so callback data written with those reaches `handleNotifyBarista` in the code but is dropped by the model.
- OrderStore.WithStatus: always applies `OnUpdate`, so `updatedAt` becomes the clock reading on every status write. In the code, writing the status the row already has leaves the entity clean, so JPA issues no UPDATE, `@PreUpdate` does not run and `updatedAt` keeps its old value. No proved property depends on `updatedAt`.
- An escalation alert (`sendDelayedOrderInfo`) carries the same "notify_barista:" reminder button as a delayed card. The `Alert` record keeps only the admin, the order and the wait, so that button is not modelled for alerts. `NotifyRoundTrip` covers it on the delayed cards.
- The order's database `id` column is not modelled. The order number identifies an order.
- An order carries a value snapshot of its shop, so a later shop update does not show through it. The hooks `OnCreate` and `OnUpdate` are functions applied by the service, not in-place field updates.
- `getActiveAdminMonitors` yields the registry in an unspecified order, like `HashMap.keySet`. AdminDialogue.AdminBot.AutoCheckDelayedOrders: states only that some registered admin receives the alerts, because which one depends on that order.
- The barista recipient `987654321` of the reminder button is a constant, as in the code. No lookup is invented.
- The admin bot reads the order store through the monitor's `orderService`. Both are the same injected `OrderService` bean.
- Exceptions thrown by `Long.parseLong`, or by `split(":")[1]` on short data, end the update. The model treats them as doing nothing.
- Statistics.DailyStats.constructor: the report's date is a day number, and `getDayStats` takes it as a parameter.
- ShopDirectory.FirstWhere: returns the first of several shops with the same code. `findByCode` is a single-result Spring Data query, which fails on two rows with the same code; whether the code column is unique is set in the `CoffeeShop` entity, and CoffeeShop.java is not part of this model.
- ShopDirectory.PatchedNothing: this lemma and ShopDirectory.DeactivateIsPatch follow from `Patched`'s definition without induction. They are kept as statements of the partial-update rule.
