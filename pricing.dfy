/**
 * Pricing rules shared by the drafts of the console: the gross price of a
 * selection, the per-item percentage discounts subtracted from it, the
 * additive loyalty rate that main.py and kfc_management_system.py both write
 * out, and the final `total * (1 - discount)`. Rates and prices are exact reals.
 */
module Pricing {
  import opened Wrappers
  import opened Catalog

  /** What the pricing step hands on: (total, discount, total_after_discount). */
  datatype Quote = Quote(total: real, discount: real, totalAfterDiscount: real)

  /** `sum(products[item]['price'] for item in selected_items)`: every unit is priced, repeats included. */
  function Gross(products: Products, items: seq<string>): (r: real)
    requires AllKnown(products, items)
    ensures (forall x :: x in items ==> products[x].price >= 0.0) ==> r >= 0.0
  {
    if items == [] then 0.0
    else Gross(products, items[..|items| - 1]) + products[items[|items| - 1]].price
  }

  /** `price * (discount / 100)` for an entry with a 'discount' key, nothing otherwise. */
  function UnitDeduction(p: Product): real
  {
    match p.discount
    case None => 0.0
    case Some(d) => p.price * (d / 100.0)
  }

  /** The per-item discounts of the whole selection, one deduction per selected unit. */
  function Deductions(products: Products, items: seq<string>): real
    requires AllKnown(products, items)
  {
    if items == [] then 0.0
    else Deductions(products, items[..|items| - 1]) + UnitDeduction(products[items[|items| - 1]])
  }

  /**
   * The "product-specific discounts" loop that kfc_management_system.py and
   * discount_manager.py share: each selected unit whose entry has a
   * 'discount' takes `price * discount / 100` off the running total.
   */
  method SubtractItemDiscounts(products: Products, items: seq<string>, total: real) returns (net: real)
    requires AllKnown(products, items)
    ensures net == total - Deductions(products, items)
  {
    net := total;
    var i := 0;
    while i < |items|
      invariant 0 <= i <= |items|
      invariant net == total - Deductions(products, items[..i])
    {
      assert items[..i + 1][..i] == items[..i];
      var p := products[items[i]];
      if p.discount.Some? {
        var itemDiscount := p.discount.value / 100.0;
        net := net - p.price * itemDiscount;
      }
      i := i + 1;
    }
    assert items[..|items|] == items;
  }

  /** A catalog as it is meant to be: prices not negative, discount percentages within 0..100. */
  predicate SaneProducts(products: Products)
  {
    forall x :: x in products ==>
      products[x].price >= 0.0 && (products[x].discount.Some? ==> 0.0 <= products[x].discount.value <= 100.0)
  }

  /** A non-negative amount scaled by a fraction in 0..1 stays within 0 and the amount. */
  lemma ScaleWithin(a: real, f: real)
    requires 0.0 <= a && 0.0 <= f <= 1.0
    ensures 0.0 <= a * f <= a
  {
    assert a * f + a * (1.0 - f) == a;
    assert 0.0 <= a * (1.0 - f);
  }

  /** A discount percentage within 0..100 takes between nothing and the whole price off one unit. */
  lemma UnitDeductionWithin(p: Product)
    requires p.price >= 0.0 && (p.discount.Some? ==> 0.0 <= p.discount.value <= 100.0)
    ensures 0.0 <= UnitDeduction(p) <= p.price
  {
    if p.discount.Some? {
      ScaleWithin(p.price, p.discount.value / 100.0);
    }
  }

  /** With a sane catalog, the per-item discounts never exceed the gross price nor make it negative. */
  lemma {:induction false} DiscountedTotalBounds(products: Products, items: seq<string>)
    requires SaneProducts(products) && AllKnown(products, items)
    ensures 0.0 <= Deductions(products, items) <= Gross(products, items)
  {
    if items != [] {
      var init, last := items[..|items| - 1], items[|items| - 1];
      assert last in items;
      var p := products[last];
      DiscountedTotalBounds(products, init);
      UnitDeductionWithin(p);
      assert Deductions(products, items) == Deductions(products, init) + UnitDeduction(p);
      assert Gross(products, items) == Gross(products, init) + p.price;
    }
  }

  /**
   * The rate of main.py and kfc_management_system.py: 0.05 for "card", 0.027
   * once the customer has an earlier order, and a further 0.12 beyond ten.
   */
  function ConsoleRate(paymentMethod: string, orderCount: int): (r: real)
    ensures 0.0 <= r <= 0.197
    ensures r < 1.0
  {
    (if paymentMethod == "card" then 0.05 else 0.0)
    + (if orderCount > 0 then 0.027 else 0.0)
    + (if orderCount > 10 then 0.12 else 0.0)
  }

  /** The loyalty part only grows with the number of earlier orders. */
  lemma ConsoleRateMonotone(paymentMethod: string, m: int, n: int)
    requires m <= n
    ensures ConsoleRate(paymentMethod, m) <= ConsoleRate(paymentMethod, n)
  {
  }

  /** The three loyalty tiers add 0, 0.027 and 0.147 on top of the payment discount. */
  lemma ConsoleRateTiers(paymentMethod: string, n: int)
    ensures ConsoleRate(paymentMethod, n) - ConsoleRate(paymentMethod, 0)
         == if n <= 0 then 0.0 else if n <= 10 then 0.027 else 0.147
  {
  }

  /** Scaling a non-negative amount by `1 - rate` shrinks it for a rate in 0..1 and grows it for a negative rate. */
  lemma RateScaling(total: real, rate: real)
    ensures 0.0 <= total && 0.0 <= rate <= 1.0 ==> 0.0 <= total * (1.0 - rate) <= total
    ensures 0.0 <= total && rate <= 0.0 ==> total * (1.0 - rate) >= total
  {
    if 0.0 <= total && 0.0 <= rate <= 1.0 {
      ScaleWithin(total, 1.0 - rate);
    } else if 0.0 <= total && rate <= 0.0 {
      assert total * (1.0 - rate) == total + total * (-rate);
      assert 0.0 <= total * (-rate);
    }
  }

  /** `total * (1 - discount)`. */
  function AfterDiscount(total: real, rate: real): (r: real)
    ensures 0.0 <= total && 0.0 <= rate <= 1.0 ==> 0.0 <= r <= total
    ensures 0.0 <= total && rate <= 0.0 ==> r >= total
  {
    RateScaling(total, rate);
    total * (1.0 - rate)
  }

  /** For a fixed selection and payment method a returning customer never pays more. */
  lemma NetNonIncreasingInOrders(total: real, paymentMethod: string, m: int, n: int)
    requires 0.0 <= total && m <= n
    ensures AfterDiscount(total, ConsoleRate(paymentMethod, n)) <= AfterDiscount(total, ConsoleRate(paymentMethod, m))
  {
    ConsoleRateMonotone(paymentMethod, m, n);
    var rm, rn := ConsoleRate(paymentMethod, m), ConsoleRate(paymentMethod, n);
    assert total * (1.0 - rn) <= total * (1.0 - rm) by {
      assert 1.0 - rn <= 1.0 - rm;
    }
  }

  /**
   * The worked example: a Burger at 100 with a 10% discount, two of them,
   * paid by card by a first-time customer, come to 180 before and 171 after
   * the 0.05 card discount; with more than ten earlier orders and cash the
   * rate is 0.147.
   */
  lemma BurgerExample()
    ensures var products := map["Burger" := Product(100.0, Some(10.0), map["bun" := 1, "patty" := 1])];
      && AllKnown(products, ["Burger", "Burger"])
      && Gross(products, ["Burger", "Burger"]) - Deductions(products, ["Burger", "Burger"]) == 180.0
      && ConsoleRate("card", 0) == 0.05
      && AfterDiscount(180.0, 0.05) == 171.0
      && ConsoleRate("cash", 11) == 0.147
  {
    var products := map["Burger" := Product(100.0, Some(10.0), map["bun" := 1, "patty" := 1])];
    var two := ["Burger", "Burger"];
    assert two[..1] == ["Burger"] && ["Burger"][..0] == [];
    assert Gross(products, two) == 200.0;
    assert Deductions(products, two) == 20.0;
  }
}
