/**
 * customer_interface.py: the console draft built from the managers. It
 * lists the available items through the inventory manager, accumulates a
 * selection without touching the stock, prices through the static
 * `DiscountManager.apply_discounts`, and records the order. Its input tests
 * come from an `InputValidator` that is not part of this model, so they are
 * parameters here.
 */
module Interface {
  import opened Wrappers
  import opened Catalog
  import opened Pricing
  import opened ConsoleInput
  import opened Selection
  import opened Orders
  import opened Inventory
  import opened Discounts

  /** The quantity test lets through only numerals, so `int(qty)` cannot raise. */
  ghost predicate QuantitiesNumeric(validQty: (string, int) -> bool)
  {
    forall s, m :: validQty(s, m) ==> IsDigits(s)
  }

  /** How `store_order` ends: normally, or with the exception that cuts it short. */
  datatype Outcome = Completed | Raised(error: string)

  class CustomerInterface {
    const products: Products
    const inventoryManager: InventoryManager
    const orderManager: OrderManager
    var customerName: string

    /** The inventory manager and the product manager read the same catalog. */
    ghost predicate Valid()
      reads this
    {
      inventoryManager.products == products
    }

    /** `__init__`: both managers over the stored catalog, the ledger, and no name yet. */
    constructor (storedProducts: Option<Products>, storedInventory: Option<Catalog.Inventory>, storedOrders: Option<seq<Order>>)
      ensures Valid()
      ensures products == if storedProducts.Some? then storedProducts.value else map[]
      ensures inventoryManager.inventory == if storedInventory.Some? then storedInventory.value else map[]
      ensures orderManager.orders == if storedOrders.Some? then storedOrders.value else []
      ensures customerName == ""
      ensures fresh(orderManager) && fresh(inventoryManager)
    {
      var catalog := if storedProducts.Some? then storedProducts.value else map[];
      products := catalog;
      inventoryManager := new InventoryManager(catalog, storedInventory);
      orderManager := new OrderManager(storedOrders);
      customerName := "";
    }

    /** `get_available_items`: walks the catalog and keeps the entries the inventory manager reports available. */
    method GetAvailableItems() returns (available: Products)
      requires Valid()
      ensures available == AvailableItems(products, inventoryManager.inventory)
    {
      available := map[];
      var pending := products.Keys;
      while pending != {}
        invariant pending <= products.Keys
        invariant forall x :: x in available <==>
          x in products && x !in pending && inventoryManager.CheckAvailability(x)
        invariant forall x :: x in available ==> available[x] == products[x]
        decreases pending
      {
        var item :| item in pending;
        if inventoryManager.CheckAvailability(item) {
          available := available[item := products[item]];
        }
        pending := pending - {item};
      }
      assert available.Keys == AvailableItems(products, inventoryManager.inventory).Keys;
    }

    /**
     * `select_items` over the console replies `script`, with `menu` the order
     * in which the available items are numbered and the validator's two tests
     * as parameters. Nothing available returns an empty selection at once;
     * the stock is never touched.
     */
    method SelectItems(menu: seq<string>, script: seq<Round>,
                       validChoice: (string, nat) -> bool, validQty: (string, int) -> bool)
      returns (picked: Picked)
      requires Valid() && PositiveRecipes(products)
      requires Lists(menu, AvailableItems(products, inventoryManager.inventory))
      requires ChoicesInRange(validChoice, |menu| + 1) && QuantitiesNumeric(validQty)
      ensures MenuReady(products, inventoryManager.inventory, menu)
      ensures picked == Picks(products, inventoryManager.inventory, menu, script, validChoice, validQty)
    {
      var available := GetAvailableItems();
      ListedAvailableReady(products, inventoryManager.inventory, menu);
      ListsEmpty(menu, available);
      picked := SelectLoop(products, inventoryManager.inventory, available, menu, script, validChoice, validQty);
    }

    /** `get_order_count`: ledger records under the current customer's name. */
    function GetOrderCount(): (n: nat)
      reads this, orderManager
      ensures n <= |orderManager.orders|
    {
      CountFor(orderManager.orders, customerName)
    }

    /**
     * `apply_discounts`: the static pricing rule of the discount manager with
     * the customer's ledger count. The payment method is passed through as
     * the customer typed it.
     */
    method ApplyDiscounts(selected: seq<string>, paymentMethod: string) returns (r: Result<Quote, PricingError>)
      ensures r.Failure? <==> !AllKnown(products, selected)
      ensures r.Success? ==>
        var total := Gross(products, selected) - Deductions(products, selected);
        var rate := StaticRate(paymentMethod, CountFor(orderManager.orders, customerName));
        r.value == Quote(total, rate, AfterDiscount(total, rate))
    {
      var count := GetOrderCount();
      r := Discounts.ApplyDiscounts(selected, products, paymentMethod, count);
    }

    /**
     * `store_order` as written: the order is placed, then the date line of
     * the receipt calls `now` on the `datetime` module, which has no such
     * attribute, so `update_inventory` is never reached.
     */
    method StoreOrderAsWritten(selected: seq<string>, paymentMethod: string, totalAfterDiscount: real,
                               totalDiscount: real, total: real, timestamp: string)
      returns (outcome: Outcome)
      modifies orderManager
      ensures orderManager.orders == old(orderManager.orders) +
        [Order(customerName, selected, paymentMethod, total, totalDiscount, totalAfterDiscount, timestamp)]
      ensures outcome == Raised("AttributeError")
    {
      var _ := orderManager.PlaceOrder(customerName, selected, paymentMethod, total, totalDiscount, totalAfterDiscount, timestamp);
      outcome := Raised("AttributeError");
    }

    /** `store_order` as intended: the order is placed, then its components leave the stock. */
    method StoreOrder(selected: seq<string>, paymentMethod: string, totalAfterDiscount: real,
                      totalDiscount: real, total: real, timestamp: string)
      returns (outcome: Outcome)
      requires Valid() && AllKnown(products, selected)
      requires forall x, c :: x in selected && c in products[x].components ==> c in inventoryManager.inventory
      modifies orderManager, inventoryManager
      ensures orderManager.orders == old(orderManager.orders) +
        [Order(customerName, selected, paymentMethod, total, totalDiscount, totalAfterDiscount, timestamp)]
      ensures Decremented(old(inventoryManager.inventory), inventoryManager.inventory, products, selected)
      ensures outcome == Completed
    {
      var _ := orderManager.PlaceOrder(customerName, selected, paymentMethod, total, totalDiscount, totalAfterDiscount, timestamp);
      inventoryManager.UpdateInventory(selected);
      outcome := Completed;
    }
  }

  /**
   * The stock `store_order` leaves as written is not the stock the order
   * should leave: any component the selection uses is left too high.
   */
  lemma StockNotTaken(before: Catalog.Inventory, products: Products, selected: seq<string>, c: string)
    requires AllKnown(products, selected) && c in before && Consumed(products, selected, c) > 0
    ensures !Decremented(before, before, products, selected)
  {
  }
}
