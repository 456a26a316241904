/**
 * main.py: the single-file draft of the console. It keeps the stock, the
 * ledger and the catalog in one object, takes components out of the stock
 * while the customer is still choosing, prices with the additive loyalty
 * rule, and records a receipt whose total is the amount after discount.
 */
module MainApp {
  import opened Wrappers
  import opened Catalog
  import opened Pricing
  import opened ConsoleInput
  import opened Selection

  /** The record main.py appends: its 'total' is the amount to pay, after the discount. */
  datatype Receipt = Receipt(customerName: string, items: seq<string>, paymentMethod: string, total: real, timestamp: string)

  /** `get_order_count`: how many receipts carry the customer's name. */
  function OrderCount(receipts: seq<Receipt>, name: string): (n: nat)
    ensures n <= |receipts|
  {
    if receipts == [] then 0
    else OrderCount(receipts[..|receipts| - 1], name) + (if receipts[|receipts| - 1].customerName == name then 1 else 0)
  }

  /** A new receipt counts for its own customer only. */
  lemma OrderCountAppend(receipts: seq<Receipt>, r: Receipt, name: string)
    ensures OrderCount(receipts + [r], name) == OrderCount(receipts, name) + (if r.customerName == name then 1 else 0)
  {
    assert (receipts + [r])[..|receipts|] == receipts;
  }

  /** Every count in the stock is at least zero. */
  ghost predicate NonNegative(inv: Inventory)
  {
    forall c :: c in inv ==> inv[c] >= 0
  }

  /** `inventory[component] -= count * qty` for every component of one recipe. */
  function Deduct(inv: Inventory, recipe: Recipe, qty: nat): (r: Inventory)
    requires Stocked(inv, recipe)
    ensures r.Keys == inv.Keys
  {
    map c | c in inv :: if c in recipe then inv[c] - recipe[c] * qty else inv[c]
  }

  /**
   * One accepted pick: every recipe component loses `count * qty`, every other
   * component keeps its count, and a quantity within the maximum leaves no
   * count negative.
   */
  lemma DeductWithinMax(inv: Inventory, recipe: Recipe, qty: nat)
    requires Positive(recipe) && Stocked(inv, recipe) && NonNegative(inv)
    requires qty <= MaxQty(inv, recipe)
    ensures forall c :: c in recipe ==> Deduct(inv, recipe, qty)[c] == inv[c] - recipe[c] * qty
    ensures forall c :: c in inv && c !in recipe ==> Deduct(inv, recipe, qty)[c] == inv[c]
    ensures NonNegative(Deduct(inv, recipe, qty))
  {
    WithinMaxQty(inv, recipe, qty);
  }

  /** What main.py's selection loop leaves: the selected units, the stock after them, how it ended. */
  datatype Session = Session(items: seq<string>, inventory: Inventory, status: Status)

  /**
   * main.py's selection loop, round by round. Each round is judged as in the
   * other drafts, but an accepted quantity is taken out of the stock at
   * once, so the next round's maximum is computed against the reduced stock.
   * The numbered menu is the listing made before the loop and is not refreshed.
   */
  ghost function Rounds(products: Products, inv: Inventory, menu: seq<string>, script: seq<Round>): Session
    requires MenuReady(products, inv, menu)
    decreases |script|
  {
    if menu == [] then Session([], inv, NothingAvailable)
    else if script == [] then Session([], inv, OutOfInput)
    else
      ConsoleChoicesInRange(|menu| + 1);
      match Judge(products, inv, menu, script[0], ValidChoice, ValidQuantity)
      case Skip => Rounds(products, inv, menu, script[1..])
      case Stop => Session([], inv, Finished)
      case Take(item, qty) =>
        var after := Deduct(inv, products[item].components, qty);
        assert MenuReady(products, after, menu);
        var rest := Rounds(products, after, menu, script[1..]);
        Session(Repeat(item, qty) + rest.items, rest.inventory, rest.status)
  }

  lemma ConcatAssoc<T>(a: seq<T>, b: seq<T>, c: seq<T>)
    ensures a + (b + c) == a + b + c
  {
  }

  /** A session with `items` picked before it: what the whole loop returns once an earlier part is known. */
  function Extend(items: seq<string>, s: Session): Session
  {
    Session(items + s.items, s.inventory, s.status)
  }

  /** Taking `qty` units of `item` first and then `rest` removes their combined recipes. */
  lemma TakeStep(products: Products, inv: Inventory, item: string, qty: nat, rest: seq<string>, c: string)
    requires item in products && Stocked(inv, products[item].components)
    requires AllKnown(products, rest) && c in inv
    ensures AllKnown(products, Repeat(item, qty) + rest)
    ensures Deduct(inv, products[item].components, qty)[c] - Consumed(products, rest, c)
         == inv[c] - Consumed(products, Repeat(item, qty) + rest, c)
  {
    assert Deduct(inv, products[item].components, qty)[c] == inv[c] - Uses(products, item, c) * qty;
    ConsumedRepeat(products, item, qty, c);
    ConsumedConcat(products, Repeat(item, qty), rest, c);
  }

  /**
   * The stock after the loop is the stock before it minus the recipes of all
   * selected units, componentwise; no component is added or dropped.
   */
  lemma {:induction false} RoundsConsume(products: Products, inv: Inventory, menu: seq<string>, script: seq<Round>)
    requires MenuReady(products, inv, menu)
    ensures var s := Rounds(products, inv, menu, script);
      && AllKnown(products, s.items)
      && s.inventory.Keys == inv.Keys
      && forall c :: c in inv ==> s.inventory[c] == inv[c] - Consumed(products, s.items, c)
    decreases |script|
  {
    if menu != [] && script != [] {
      ConsoleChoicesInRange(|menu| + 1);
      match Judge(products, inv, menu, script[0], ValidChoice, ValidQuantity)
      case Skip =>
        RoundsConsume(products, inv, menu, script[1..]);
      case Stop =>
      case Take(item, qty) =>
        var after := Deduct(inv, products[item].components, qty);
        assert MenuReady(products, after, menu);
        RoundsConsume(products, after, menu, script[1..]);
        var rest := Rounds(products, after, menu, script[1..]);
        assert Rounds(products, inv, menu, script).items == Repeat(item, qty) + rest.items;
        forall c | c in inv
          ensures rest.inventory[c] == inv[c] - Consumed(products, Repeat(item, qty) + rest.items, c)
        {
          TakeStep(products, inv, item, qty, rest.items, c);
        }
    }
  }

  /**
   * Only listed items are selected; the loop reports "nothing available"
   * exactly for an empty menu, and then selects nothing and leaves the stock alone.
   */
  lemma {:induction false} RoundsListed(products: Products, inv: Inventory, menu: seq<string>, script: seq<Round>)
    requires MenuReady(products, inv, menu)
    ensures var s := Rounds(products, inv, menu, script);
      && (forall x :: x in s.items ==> x in menu)
      && (s.status == NothingAvailable <==> menu == [])
      && (s.status == NothingAvailable ==> s.items == [] && s.inventory == inv)
    decreases |script|
  {
    if menu != [] && script != [] {
      ConsoleChoicesInRange(|menu| + 1);
      match Judge(products, inv, menu, script[0], ValidChoice, ValidQuantity)
      case Skip =>
        RoundsListed(products, inv, menu, script[1..]);
      case Stop =>
      case Take(item, qty) =>
        var after := Deduct(inv, products[item].components, qty);
        assert MenuReady(products, after, menu);
        RoundsListed(products, after, menu, script[1..]);
    }
  }

  /**
   * No oversell: a stock that starts with no negative count ends with none,
   * because every quantity is bounded by the maximum against the stock as
   * already reduced by the earlier rounds.
   */
  lemma {:induction false} RoundsKeepStockNonNegative(products: Products, inv: Inventory, menu: seq<string>, script: seq<Round>)
    requires MenuReady(products, inv, menu) && NonNegative(inv)
    ensures NonNegative(Rounds(products, inv, menu, script).inventory)
    decreases |script|
  {
    if menu != [] && script != [] {
      ConsoleChoicesInRange(|menu| + 1);
      match Judge(products, inv, menu, script[0], ValidChoice, ValidQuantity)
      case Skip =>
        RoundsKeepStockNonNegative(products, inv, menu, script[1..]);
      case Stop =>
      case Take(item, qty) =>
        var recipe := products[item].components;
        var after := Deduct(inv, recipe, qty);
        DeductWithinMax(inv, recipe, qty);
        assert MenuReady(products, after, menu);
        RoundsKeepStockNonNegative(products, after, menu, script[1..]);
    }
  }

  class KfcManagementSystem {
    const products: Products
    var inventory: Inventory
    var orders: seq<Receipt>
    var customerName: string

    /** `load_inventory`, `load_orders`, `load_products`: a missing store starts empty. */
    constructor (storedInventory: Option<Inventory>, storedOrders: Option<seq<Receipt>>, storedProducts: Option<Products>)
      ensures inventory == if storedInventory.Some? then storedInventory.value else map[]
      ensures orders == if storedOrders.Some? then storedOrders.value else []
      ensures products == if storedProducts.Some? then storedProducts.value else map[]
    {
      inventory := if storedInventory.Some? then storedInventory.value else map[];
      orders := if storedOrders.Some? then storedOrders.value else [];
      products := if storedProducts.Some? then storedProducts.value else map[];
      customerName := "";
    }

    /** `welcome_screen`: stores the stripped, upper-cased reply and says whether it is a valid name. */
    method WelcomeScreen(reply: string) returns (accepted: bool)
      modifies this`customerName
      ensures customerName == NormalizeName(reply)
      ensures accepted == NameAccepted(reply)
    {
      customerName := Upper(Strip(reply));
      accepted := NameAccepted(reply);
    }

    /** `get_available_items`: builds the sub-catalog of available items entry by entry. */
    method GetAvailableItems() returns (available: Products)
      ensures available == AvailableItems(products, inventory)
    {
      available := map[];
      var pending := products.Keys;
      while pending != {}
        invariant pending <= products.Keys
        invariant forall x :: x in available <==> x in products && x !in pending && Available(inventory, products[x].components)
        invariant forall x :: x in available ==> available[x] == products[x]
        decreases pending
      {
        var item :| item in pending;
        var details := products[item];
        var all := true;
        var components := details.components.Keys;
        while components != {}
          invariant components <= details.components.Keys
          invariant all <==> forall c :: c in details.components && c !in components ==> Stock(inventory, c) >= details.components[c]
          decreases components
        {
          var c :| c in components;
          var have := if c in inventory then inventory[c] else 0;
          all := all && have >= details.components[c];
          components := components - {c};
        }
        if all {
          available := available[item := details];
        }
        pending := pending - {item};
      }
      assert available.Keys == AvailableItems(products, inventory).Keys;
    }

    /**
     * `select_items`: the menu loop over the console replies `script`. `menu`
     * is the order in which the available items are numbered. Each accepted
     * quantity extends the selection and is taken out of the stock in place.
     */
    method SelectItems(menu: seq<string>, script: seq<Round>) returns (picked: Picked)
      requires PositiveRecipes(products) && Lists(menu, AvailableItems(products, inventory))
      modifies this`inventory
      ensures MenuReady(products, old(inventory), menu)
      ensures var s := Rounds(products, old(inventory), menu, script);
        picked == Picked(s.items, s.status) && inventory == s.inventory
    {
      ListedAvailableReady(products, inventory, menu);
      var available := GetAvailableItems();
      ListsEmpty(menu, available);
      picked := PlayRounds(available, menu, script);
    }

    /** The loop of `select_items`: `available` is the listing made before it and `menu` numbers it. */
    method PlayRounds(available: Products, menu: seq<string>, script: seq<Round>) returns (picked: Picked)
      requires MenuReady(products, inventory, menu) && (menu == [] <==> available == map[])
      modifies this`inventory
      ensures var s := Rounds(products, old(inventory), menu, script);
        picked == Picked(s.items, s.status) && inventory == s.inventory
    {
      var selected: seq<string> := [];
      var i := 0;
      ghost var goal := Rounds(products, old(inventory), menu, script);
      while true
        invariant 0 <= i <= |script|
        invariant MenuReady(products, inventory, menu)
        invariant goal == Extend(selected, Rounds(products, inventory, menu, script[i..]))
        decreases |script| - i
      {
        if available == map[] {
          return Picked(selected, NothingAvailable);
        }
        if i == |script| {
          return Picked(selected, OutOfInput);
        }
        assert script[i..][1..] == script[i + 1..];
        var verdict;
        verdict, selected := PlayRound(menu, script[i..], selected);
        if verdict.Stop? {
          return Picked(selected, Finished);
        }
        i := i + 1;
      }
    }

    /**
     * One pass of the loop body on the first reply of `script`: the round is
     * judged against the current stock, and an accepted quantity extends the
     * selection and is taken out of the stock at once.
     */
    method PlayRound(menu: seq<string>, script: seq<Round>, selected: seq<string>)
      returns (verdict: Verdict, extended: seq<string>)
      requires MenuReady(products, inventory, menu) && menu != [] && script != []
      modifies this`inventory
      ensures verdict == Judge(products, old(inventory), menu, script[0], ValidChoice, ValidQuantity)
      ensures verdict.Take? ==> inventory == Deduct(old(inventory), products[verdict.item].components, verdict.qty)
      ensures !verdict.Take? ==> inventory == old(inventory)
      ensures MenuReady(products, inventory, menu)
      ensures extended == selected + (if verdict.Take? then Repeat(verdict.item, verdict.qty) else [])
      ensures verdict.Stop? ==>
        Extend(selected, Rounds(products, old(inventory), menu, script)) == Session(selected, inventory, Finished)
      ensures !verdict.Stop? ==>
        Extend(selected, Rounds(products, old(inventory), menu, script)) == Extend(extended, Rounds(products, inventory, menu, script[1..]))
    {
      ConsoleChoicesInRange(|menu| + 1);
      verdict := JudgeRound(products, inventory, menu, script[0], ValidChoice, ValidQuantity);
      extended := selected;
      if verdict.Take? {
        extended := selected + Repeat(verdict.item, verdict.qty);
        TakeComponents(products[verdict.item].components, verdict.qty);
        ConcatAssoc(selected, Repeat(verdict.item, verdict.qty), Rounds(products, inventory, menu, script[1..]).items);
      }
    }

    /** Lines 99-100 of main.py: every component of the recipe loses `count * qty` units. */
    method TakeComponents(recipe: Recipe, qty: nat)
      requires Stocked(inventory, recipe)
      modifies this`inventory
      ensures inventory == Deduct(old(inventory), recipe, qty)
    {
      var pending := recipe.Keys;
      while pending != {}
        invariant pending <= recipe.Keys
        invariant inventory.Keys == old(inventory).Keys
        invariant forall c :: c in inventory ==>
          inventory[c] == old(inventory)[c] - (if c in recipe && c !in pending then recipe[c] * qty else 0)
        decreases pending
      {
        var c :| c in pending;
        inventory := inventory[c := inventory[c] - recipe[c] * qty];
        pending := pending - {c};
      }
    }

    /** `get_order_count`: receipts already recorded under the current customer's name. */
    function GetOrderCount(): (n: nat)
      reads this
      ensures n <= |orders|
    {
      OrderCount(orders, customerName)
    }

    /**
     * `apply_discounts` followed by `store_order`: the gross price of the
     * selection (no per-item discounts in this draft) with the additive rate
     * for the receipts recorded before this one; the receipt keeps the net.
     */
    method ApplyDiscounts(selected: seq<string>, paymentMethod: string, timestamp: string)
      requires AllKnown(products, selected)
      modifies this`orders
      ensures var rate := ConsoleRate(paymentMethod, OrderCount(old(orders), customerName));
        orders == old(orders) + [Receipt(customerName, selected, paymentMethod,
                                         AfterDiscount(Gross(products, selected), rate), timestamp)]
      ensures OrderCount(orders, customerName) == OrderCount(old(orders), customerName) + 1
    {
      var total := Gross(products, selected);
      var discount := 0.0;
      if paymentMethod == "card" {
        discount := discount + 0.05;
      }
      var orderCount := GetOrderCount();
      if orderCount > 0 {
        discount := discount + 0.027;
        if orderCount > 10 {
          discount := discount + 0.12;
        }
      }
      var totalAfterDiscount := AfterDiscount(total, discount);
      StoreOrder(selected, paymentMethod, totalAfterDiscount, discount, total, timestamp);
    }

    /**
     * `store_order`: appends the receipt; the following `update_inventory`
     * only saves the stock, which selection has already reduced.
     */
    method StoreOrder(selected: seq<string>, paymentMethod: string, totalAfterDiscount: real,
                      totalDiscount: real, total: real, timestamp: string)
      modifies this`orders
      ensures orders == old(orders) + [Receipt(customerName, selected, paymentMethod, totalAfterDiscount, timestamp)]
      ensures OrderCount(orders, customerName) == OrderCount(old(orders), customerName) + 1
    {
      var receipt := Receipt(customerName, selected, paymentMethod, totalAfterDiscount, timestamp);
      orders := orders + [receipt];
      OrderCountAppend(old(orders), receipt, customerName);
    }
  }
}
