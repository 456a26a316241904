/**
 * discount_manager.py: the static pricing rule `DiscountManager.apply_discounts`
 * and the manager's three rate tables with their setters. The static rule
 * never reads the tables.
 */
module Discounts {
  import opened Wrappers
  import opened Catalog
  import opened Pricing

  /** `products[item]` raised KeyError: the selection names an item the catalog lacks. */
  datatype PricingError = UnknownItem(item: string)

  /**
   * The static rule's rate: 0.05 only for the payment reply '1'; 0.027 once
   * the customer has an earlier order, topped up to 0.12 in all beyond ten.
   */
  function StaticRate(paymentMethod: string, orderCount: int): (r: real)
    ensures 0.0 <= r <= 0.17
  {
    (if paymentMethod == "1" then 0.05 else 0.0)
    + (if orderCount > 0 then 0.027 + (if orderCount > 10 then 0.12 - 0.027 else 0.0) else 0.0)
  }

  /** For a fixed payment method the rate never falls as the order count grows. */
  lemma StaticRateMonotone(paymentMethod: string, m: int, n: int)
    requires m <= n
    ensures StaticRate(paymentMethod, m) <= StaticRate(paymentMethod, n)
  {
  }

  /** The loyalty tiers: nothing, 0.027 for 1..10 earlier orders, 0.12 in total beyond ten. */
  lemma StaticRateTiers(paymentMethod: string, n: int)
    ensures StaticRate(paymentMethod, n) - StaticRate(paymentMethod, 0)
         == if n <= 0 then 0.0 else if n <= 10 then 0.027 else 0.12
  {
  }

  /**
   * Only the reply '1' earns the card discount: the words "card" and "cash"
   * (what the customer interface passes in) and the reply '2' earn none.
   */
  lemma CardWordEarnsNoCardDiscount(n: int)
    ensures StaticRate("card", n) == StaticRate("cash", n) == StaticRate("2", n) == StaticRate("1", n) - 0.05
  {
  }

  /**
   * `DiscountManager.apply_discounts`: prices every selected unit, subtracts
   * the per-item percentage discounts, and applies the rate. An unknown item
   * aborts with the first one met, as the KeyError of the price lookup does.
   */
  method ApplyDiscounts(selected: seq<string>, products: Products, paymentMethod: string, orderCount: int)
    returns (r: Result<Quote, PricingError>)
    ensures r.Failure? <==> !AllKnown(products, selected)
    ensures r.Failure? ==> exists i :: 0 <= i < |selected| && selected[i] == r.error.item
                                      && r.error.item !in products && AllKnown(products, selected[..i])
    ensures r.Success? ==> r.value.total == Gross(products, selected) - Deductions(products, selected)
    ensures r.Success? ==> r.value.discount == StaticRate(paymentMethod, orderCount)
    ensures r.Success? ==> r.value.totalAfterDiscount == AfterDiscount(r.value.total, r.value.discount)
  {
    var total := 0.0;
    var i := 0;
    while i < |selected|
      invariant 0 <= i <= |selected|
      invariant AllKnown(products, selected[..i])
      invariant total == Gross(products, selected[..i])
    {
      if selected[i] !in products {
        return Failure(UnknownItem(selected[i]));
      }
      assert selected[..i + 1][..i] == selected[..i];
      total := total + products[selected[i]].price;
      i := i + 1;
    }
    assert selected[..|selected|] == selected;

    var discount := 0.0;
    if paymentMethod == "1" {
      discount := discount + 0.05;
    }
    if orderCount > 0 {
      discount := discount + 0.027;
      if orderCount > 10 {
        discount := discount + (0.12 - 0.027);
      }
    }

    total := SubtractItemDiscounts(products, selected, total);
    r := Success(Quote(total, discount, AfterDiscount(total, discount)));
  }

  /** With a sane catalog the static rule never yields a negative amount, nor one above the gross price. */
  lemma ApplyDiscountsBounds(products: Products, selected: seq<string>, paymentMethod: string, orderCount: int)
    requires SaneProducts(products) && AllKnown(products, selected)
    ensures var total := Gross(products, selected) - Deductions(products, selected);
      var net := AfterDiscount(total, StaticRate(paymentMethod, orderCount));
      0.0 <= net <= total <= Gross(products, selected)
  {
    DiscountedTotalBounds(products, selected);
  }

  /** The manager's three tables: payment method, order-count threshold and item, each to a rate. */
  class DiscountManager {
    var paymentMethodDiscounts: map<string, real>
    var orderCountDiscounts: map<int, real>
    var itemDiscounts: map<string, real>

    constructor ()
      ensures paymentMethodDiscounts == map["card" := 0.05, "cash" := 0.0]
      ensures orderCountDiscounts == map[1 := 0.027, 11 := 0.12]
      ensures itemDiscounts == map[]
    {
      paymentMethodDiscounts := map["card" := 0.05, "cash" := 0.0];
      orderCountDiscounts := map[1 := 0.027, 11 := 0.12];
      itemDiscounts := map[];
    }

    method SetPaymentMethodDiscount(paymentMethod: string, discount: real)
      modifies this
      ensures paymentMethodDiscounts == old(paymentMethodDiscounts)[paymentMethod := discount]
      ensures orderCountDiscounts == old(orderCountDiscounts) && itemDiscounts == old(itemDiscounts)
    {
      paymentMethodDiscounts := paymentMethodDiscounts[paymentMethod := discount];
    }

    method SetOrderCountDiscount(countThreshold: int, discount: real)
      modifies this
      ensures orderCountDiscounts == old(orderCountDiscounts)[countThreshold := discount]
      ensures paymentMethodDiscounts == old(paymentMethodDiscounts) && itemDiscounts == old(itemDiscounts)
    {
      orderCountDiscounts := orderCountDiscounts[countThreshold := discount];
    }

    method SetItemDiscount(item: string, discount: real)
      modifies this
      ensures itemDiscounts == old(itemDiscounts)[item := discount]
      ensures paymentMethodDiscounts == old(paymentMethodDiscounts) && orderCountDiscounts == old(orderCountDiscounts)
    {
      itemDiscounts := itemDiscounts[item := discount];
    }
  }
}
