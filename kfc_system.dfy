/**
 * kfc_management_system.py: the console draft that delegates the stock to
 * an `InventoryManager` and the ledger to an `OrderManager`. It numbers the
 * available items, bounds every quantity by the stock as it stood before the
 * order, prices with the additive loyalty rule and the per-item discounts,
 * and takes the components out of the stock only after the order is placed.
 */
module KfcSystem {
  import opened Wrappers
  import opened Catalog
  import opened Pricing
  import opened ConsoleInput
  import opened Selection
  import opened Orders
  import opened Inventory

  class KfcManagementSystem {
    const products: Products
    const orderManager: OrderManager
    const inventoryManager: InventoryManager
    var customerName: string

    /** The inventory manager was built over this system's catalog. */
    ghost predicate Valid()
      reads this
    {
      inventoryManager.products == products
    }

    /** `__init__` and `load_products`: missing stores start empty. */
    constructor (storedProducts: Option<Products>, storedInventory: Option<Catalog.Inventory>, storedOrders: Option<seq<Order>>)
      ensures Valid()
      ensures products == if storedProducts.Some? then storedProducts.value else map[]
      ensures inventoryManager.inventory == if storedInventory.Some? then storedInventory.value else map[]
      ensures orderManager.orders == if storedOrders.Some? then storedOrders.value else []
      ensures fresh(orderManager) && fresh(inventoryManager)
    {
      orderManager := new OrderManager(storedOrders);
      var catalog := if storedProducts.Some? then storedProducts.value else map[];
      products := catalog;
      inventoryManager := new InventoryManager(catalog, storedInventory);
      customerName := "";
    }

    /** `welcome_screen`: stores the stripped, upper-cased reply and says whether it is a valid name. */
    method WelcomeScreen(reply: string) returns (accepted: bool)
      modifies this
      ensures customerName == NormalizeName(reply)
      ensures accepted == NameAccepted(reply)
    {
      customerName := Upper(Strip(reply));
      accepted := NameAccepted(reply);
    }

    /** `get_available_items`: the catalog entries the inventory manager reports available. */
    function GetAvailableItems(): (available: Products)
      requires Valid()
      reads this, inventoryManager
      ensures available == AvailableItems(products, inventoryManager.inventory)
    {
      map item | item in products && inventoryManager.CheckAvailability(item) :: products[item]
    }

    /**
     * `select_items` over the console replies `script`, with `menu` the order
     * in which the available items are numbered. The stock is not touched, so
     * every quantity is bounded by the stock as it was before the order.
     */
    method SelectItems(menu: seq<string>, script: seq<Round>) returns (picked: Picked)
      requires Valid() && PositiveRecipes(products)
      requires Lists(menu, AvailableItems(products, inventoryManager.inventory))
      ensures MenuReady(products, inventoryManager.inventory, menu)
      ensures ChoicesInRange(ValidChoice, |menu| + 1)
      ensures picked == Picks(products, inventoryManager.inventory, menu, script, ValidChoice, ValidQuantity)
    {
      var available := GetAvailableItems();
      ListedAvailableReady(products, inventoryManager.inventory, menu);
      ConsoleChoicesInRange(|menu| + 1);
      ListsEmpty(menu, available);
      picked := SelectLoop(products, inventoryManager.inventory, available, menu, script, ValidChoice, ValidQuantity);
    }

    /** `get_order_count`: ledger records under the current customer's name. */
    function GetOrderCount(): (n: nat)
      reads this, orderManager
      ensures n <= |orderManager.orders|
    {
      CountFor(orderManager.orders, customerName)
    }

    /**
     * `apply_discounts` followed by `store_order`: the gross price less the
     * per-item discounts, then the additive rate for the orders already in
     * the ledger. The order is recorded, then its components leave the stock.
     */
    method ApplyDiscounts(selected: seq<string>, paymentMethod: string, timestamp: string)
      requires Valid() && AllKnown(products, selected)
      requires forall x, c :: x in selected && c in products[x].components ==> c in inventoryManager.inventory
      modifies orderManager, inventoryManager
      ensures var total := Gross(products, selected) - Deductions(products, selected);
        var rate := ConsoleRate(paymentMethod, CountFor(old(orderManager.orders), customerName));
        orderManager.orders == old(orderManager.orders) +
          [Order(customerName, selected, paymentMethod, total, rate, AfterDiscount(total, rate), timestamp)]
      ensures Decremented(old(inventoryManager.inventory), inventoryManager.inventory, products, selected)
    {
      var total := Gross(products, selected);
      var discount := 0.0;
      if paymentMethod == "card" {
        discount := discount + 0.05;
      }
      var orderCount := GetOrderCount();
      if orderCount > 0 {
        discount := discount + 0.027;
        if orderCount > 10 {
          discount := discount + 0.12;
        }
      }
      total := SubtractItemDiscounts(products, selected, total);
      var totalAfterDiscount := AfterDiscount(total, discount);
      StoreOrder(selected, paymentMethod, totalAfterDiscount, discount, total, timestamp);
    }

    /** `store_order`: `place_order` with the net total, then `update_inventory` for the selection. */
    method StoreOrder(selected: seq<string>, paymentMethod: string, totalAfterDiscount: real,
                      totalDiscount: real, total: real, timestamp: string)
      requires Valid() && AllKnown(products, selected)
      requires forall x, c :: x in selected && c in products[x].components ==> c in inventoryManager.inventory
      modifies orderManager, inventoryManager
      ensures orderManager.orders == old(orderManager.orders) +
        [Order(customerName, selected, paymentMethod, total, totalDiscount, totalAfterDiscount, timestamp)]
      ensures Decremented(old(inventoryManager.inventory), inventoryManager.inventory, products, selected)
    {
      var _ := orderManager.PlaceOrder(customerName, selected, paymentMethod, total, totalDiscount, totalAfterDiscount, timestamp);
      inventoryManager.UpdateInventory(selected);
    }
  }

  /** A catalog of one burger made of one patty, and a stock of three patties. */
  function BurgerCatalog(): Products
  {
    map["Burger" := Product(90.0, None, map["patty" := 1])]
  }

  function ThreePatties(): Catalog.Inventory
  {
    map["patty" := 3]
  }

  /** The one-burger menu is ready, and three patties make at most three burgers. */
  lemma BurgerReady()
    ensures MenuReady(BurgerCatalog(), ThreePatties(), ["Burger"])
    ensures ChoicesInRange(ValidChoice, 2)
    ensures MaxQty(ThreePatties(), BurgerCatalog()["Burger"].components) == 3
  {
    var recipe := BurgerCatalog()["Burger"].components;
    assert recipe.Keys == {"patty"};
    ConsoleChoicesInRange(2);
  }

  /** A round whose replies strip to "1" and "3" takes three burgers. */
  lemma BurgerTakesThree(round: Round)
    requires Strip(round.choice) == "1" && Strip(round.quantity) == "3"
    ensures MenuReady(BurgerCatalog(), ThreePatties(), ["Burger"]) && ChoicesInRange(ValidChoice, 2)
    ensures Judge(BurgerCatalog(), ThreePatties(), ["Burger"], round, ValidChoice, ValidQuantity) == Take("Burger", 3)
  {
    BurgerReady();
    assert Value("1") == 1 && Value("3") == 3 by {
      assert "1"[..0] == "" && "3"[..0] == "";
    }
    assert IsDigits("1") && IsDigits("3");
  }

  /** A round whose choice strips to "2" is "Done" on the one-burger menu. */
  lemma BurgerDone(round: Round)
    requires Strip(round.choice) == "2"
    ensures MenuReady(BurgerCatalog(), ThreePatties(), ["Burger"]) && ChoicesInRange(ValidChoice, 2)
    ensures Judge(BurgerCatalog(), ThreePatties(), ["Burger"], round, ValidChoice, ValidQuantity) == Stop
  {
    BurgerReady();
    assert Value("2") == 2 by {
      assert "2"[..0] == "";
    }
    assert IsDigits("2");
  }

  /**
   * Against three patties, "1" then "3" takes three burgers, also when the
   * replies are padded with blanks, and "2" is "Done".
   */
  lemma BurgerVerdicts()
    ensures MenuReady(BurgerCatalog(), ThreePatties(), ["Burger"])
    ensures ChoicesInRange(ValidChoice, 2)
    ensures Judge(BurgerCatalog(), ThreePatties(), ["Burger"], Round("1", "3"), ValidChoice, ValidQuantity) == Take("Burger", 3)
    ensures Judge(BurgerCatalog(), ThreePatties(), ["Burger"], Round(" 1", "3 "), ValidChoice, ValidQuantity) == Take("Burger", 3)
    ensures Judge(BurgerCatalog(), ThreePatties(), ["Burger"], Round("2", ""), ValidChoice, ValidQuantity) == Stop
  {
    DigitRepliesUnchanged();
    BlankBeforeOne();
    BlankAfterThree();
    BurgerTakesThree(Round("1", "3"));
    BurgerDone(Round("2", ""));
    BurgerTakesThree(Round(" 1", "3 "));
  }

  /**
   * Oversell: the same item may be picked again up to the unchanged maximum,
   * so two picks of 3 burgers pass against 3 patties, and the later
   * `update_inventory` takes 6. `take` is any round whose replies strip to
   * "1" and "3" (such as `Round("1", "3")`), `done` any whose choice strips
   * to "2".
   */
  lemma OversellExample(take: Round, done: Round)
    requires Strip(take.choice) == "1" && Strip(take.quantity) == "3" && Strip(done.choice) == "2"
    ensures var script := [take, take, done];
      && MenuReady(BurgerCatalog(), ThreePatties(), ["Burger"])
      && ChoicesInRange(ValidChoice, 2)
      && var picked := Picks(BurgerCatalog(), ThreePatties(), ["Burger"], script, ValidChoice, ValidQuantity);
      && picked.status == Finished
      && AllKnown(BurgerCatalog(), picked.items)
      && Consumed(BurgerCatalog(), picked.items, "patty") == 6 > ThreePatties()["patty"]
  {
    var products, inv, menu := BurgerCatalog(), ThreePatties(), ["Burger"];
    var script := [take, take, done];
    BurgerTakesThree(take);
    BurgerDone(done);
    assert Picks(products, inv, menu, script[2..], ValidChoice, ValidQuantity) == Picked([], Finished) by {
      assert script[2..][0] == done;
    }
    assert Picks(products, inv, menu, script[1..], ValidChoice, ValidQuantity) == Picked(Repeat("Burger", 3), Finished) by {
      assert script[1..][0] == take && script[1..][1..] == script[2..];
    }
    var picked := Picks(products, inv, menu, script, ValidChoice, ValidQuantity);
    assert picked == Picked(Repeat("Burger", 3) + Repeat("Burger", 3), Finished);
    ConsumedRepeat(products, "Burger", 3, "patty");
    ConsumedConcat(products, Repeat("Burger", 3), Repeat("Burger", 3), "patty");
  }
}
