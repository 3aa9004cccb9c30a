/**
 * The in-process notifier between the bots: callbacks registered per
 * customer id and per shop location code, and delivery of an order to the
 * registered callback. A callback is known by an opaque token; invoking it is
 * recorded as an entry appended to the delivery log.
 */
module Notifier {
  import opened Wrappers
  import opened OrderEntity

  /** Identity of a registered `Consumer<Order>`. */
  type CallbackToken = int

  /** One invocation of a callback with an order. */
  datatype Delivery = Delivery(callback: CallbackToken, order: Order)

  /** What notifying through `callbacks` under `key` appends to the log: one delivery, or nothing. */
  function DeliveryTo<K>(callbacks: map<K, CallbackToken>, key: K, order: Order): (r: seq<Delivery>)
    ensures |r| <= 1
    ensures r != [] <==> key in callbacks
    ensures forall d :: d in r ==> d.callback == callbacks[key] && d.order == order
  {
    if key in callbacks then [Delivery(callbacks[key], order)] else []
  }

  class BotCommunicationService {
    /** Keyed by customer id; the absent id (Java `null`) is a key like any other in a `HashMap`. */
    var customerCallbacks: map<Option<int>, CallbackToken>
    /** Keyed by shop location code. */
    var baristaCallbacks: map<string, CallbackToken>
    /** Every callback invocation so far, oldest first. */
    var delivered: seq<Delivery>

    constructor ()
      ensures customerCallbacks == map[] && baristaCallbacks == map[] && delivered == []
    {
      customerCallbacks := map[];
      baristaCallbacks := map[];
      delivered := [];
    }

    /** `registerCustomerCallback`: binds (or rebinds) the customer id; nothing else changes. */
    method RegisterCustomerCallback(customerId: Option<int>, callback: CallbackToken)
      modifies this
      ensures customerCallbacks == old(customerCallbacks)[customerId := callback]
      ensures baristaCallbacks == old(baristaCallbacks) && delivered == old(delivered)
    {
      customerCallbacks := customerCallbacks[customerId := callback];
    }

    /** `registerBaristaCallback`: binds (or rebinds) the location code; nothing else changes. */
    method RegisterBaristaCallback(locationCode: string, callback: CallbackToken)
      modifies this
      ensures baristaCallbacks == old(baristaCallbacks)[locationCode := callback]
      ensures customerCallbacks == old(customerCallbacks) && delivered == old(delivered)
    {
      baristaCallbacks := baristaCallbacks[locationCode := callback];
    }

    /**
     * `notifyCustomer`: the callback registered under the order's customer id
     * receives the order; with none registered nothing happens.
     */
    method NotifyCustomer(order: Order)
      modifies this
      ensures delivered == old(delivered) + DeliveryTo(customerCallbacks, order.customerId, order)
      ensures customerCallbacks == old(customerCallbacks) && baristaCallbacks == old(baristaCallbacks)
    {
      if order.customerId in customerCallbacks {
        delivered := delivered + [Delivery(customerCallbacks[order.customerId], order)];
      }
    }

    /**
     * `notifyBarista`: the callback registered under the code of the order's
     * shop receives the order; with none registered nothing happens.
     */
    method NotifyBarista(order: Order)
      modifies this
      ensures delivered == old(delivered) + DeliveryTo(baristaCallbacks, order.shop.code, order)
      ensures customerCallbacks == old(customerCallbacks) && baristaCallbacks == old(baristaCallbacks)
    {
      var code := order.shop.code;
      if code in baristaCallbacks {
        delivered := delivered + [Delivery(baristaCallbacks[code], order)];
      }
    }

    /** `handleOrderStatusChange`: the customer's delivery, then the barista's. */
    method HandleOrderStatusChange(order: Order)
      modifies this
      ensures delivered == old(delivered) + DeliveryTo(customerCallbacks, order.customerId, order)
                                          + DeliveryTo(baristaCallbacks, order.shop.code, order)
      ensures customerCallbacks == old(customerCallbacks) && baristaCallbacks == old(baristaCallbacks)
    {
      NotifyCustomer(order);
      NotifyBarista(order);
    }
  }

  /** After a (re)registration, notifying reaches the new callback and never an earlier one. */
  lemma RebindingReplaces<K>(callbacks: map<K, CallbackToken>, key: K, callback: CallbackToken, order: Order)
    ensures DeliveryTo(callbacks[key := callback], key, order) == [Delivery(callback, order)]
  {
  }

  /** A status change delivers at most twice, and when both parties are registered the customer comes first. */
  lemma StatusChangeOrder(customers: map<Option<int>, CallbackToken>, baristas: map<string, CallbackToken>, order: Order)
    ensures |DeliveryTo(customers, order.customerId, order) + DeliveryTo(baristas, order.shop.code, order)| <= 2
    ensures order.customerId in customers && order.shop.code in baristas ==>
      DeliveryTo(customers, order.customerId, order) + DeliveryTo(baristas, order.shop.code, order)
        == [Delivery(customers[order.customerId], order), Delivery(baristas[order.shop.code], order)]
  {
  }
}
