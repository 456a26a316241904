/**
 * order_manager.py: the ledger of placed orders. `place_order` appends one
 * record; every draft derives a customer's loyalty count by counting the
 * records that carry the customer's name.
 */
module Orders {
  import opened Wrappers

  /** One ledger record; `timestamp` stands for `datetime.now().isoformat()`. */
  datatype Order = Order(
    customerName: string,
    items: seq<string>,
    paymentMethod: string,
    total: real,
    totalDiscount: real,
    totalAfterDiscount: real,
    timestamp: string)

  /** `sum(1 for order in orders if order['customer_name'] == name)`. */
  function CountFor(orders: seq<Order>, name: string): (n: nat)
    ensures n <= |orders|
  {
    if orders == [] then 0
    else (if orders[0].customerName == name then 1 else 0) + CountFor(orders[1..], name)
  }

  /** Counting over two ledgers laid end to end adds their counts. */
  lemma {:induction false} CountForConcat(a: seq<Order>, b: seq<Order>, name: string)
    ensures CountFor(a + b, name) == CountFor(a, name) + CountFor(b, name)
  {
    if a != [] {
      assert (a + b)[1..] == a[1..] + b;
      CountForConcat(a[1..], b, name);
    } else {
      assert a + b == b;
    }
  }

  /** Appending one order raises its customer's count by one and nobody else's. */
  lemma CountForAppend(orders: seq<Order>, o: Order, name: string)
    ensures CountFor(orders + [o], name) == CountFor(orders, name) + (if o.customerName == name then 1 else 0)
  {
    CountForConcat(orders, [o], name);
  }

  /** Appending `n` orders for one customer, then counting, gives back exactly `n` more. */
  lemma {:induction false} CountForBatch(orders: seq<Order>, batch: seq<Order>, name: string)
    requires forall o :: o in batch ==> o.customerName == name
    ensures CountFor(orders + batch, name) == CountFor(orders, name) + |batch|
  {
    CountForConcat(orders, batch, name);
    CountForAll(batch, name);
  }

  /** A ledger whose every record carries `name` counts all of them. */
  lemma {:induction false} CountForAll(batch: seq<Order>, name: string)
    requires forall o :: o in batch ==> o.customerName == name
    ensures CountFor(batch, name) == |batch|
  {
    if batch != [] {
      assert batch[0] in batch;
      CountForAll(batch[1..], name);
    }
  }

  class OrderManager {
    var orders: seq<Order>

    /** `load_orders`: the stored ledger, or an empty one when there is no store yet. */
    constructor (stored: Option<seq<Order>>)
      ensures orders == if stored.Some? then stored.value else []
    {
      orders := if stored.Some? then stored.value else [];
    }

    /** `place_order`: builds the record from its arguments, appends it and returns it. */
    method PlaceOrder(customerName: string, items: seq<string>, paymentMethod: string,
                      total: real, totalDiscount: real, totalAfterDiscount: real, timestamp: string)
      returns (order: Order)
      modifies this
      ensures order == Order(customerName, items, paymentMethod, total, totalDiscount, totalAfterDiscount, timestamp)
      ensures orders == old(orders) + [order]
      ensures CountFor(orders, customerName) == CountFor(old(orders), customerName) + 1
      ensures forall name :: name != customerName ==> CountFor(orders, name) == CountFor(old(orders), name)
    {
      order := Order(customerName, items, paymentMethod, total, totalDiscount, totalAfterDiscount, timestamp);
      orders := orders + [order];
      CountForAppend(old(orders), order, customerName);
      forall name | name != customerName
        ensures CountFor(orders, name) == CountFor(old(orders), name)
      {
        CountForAppend(old(orders), order, name);
      }
    }
  }
}
