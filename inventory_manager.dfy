/**
 * inventory_manager.py: the `InventoryManager` that owns the component stock.
 * `check_availability` reads it; `update_inventory` takes one recipe's worth
 * of components per selected unit, in place, without any stock check.
 */
module Inventory {
  import opened Wrappers
  import opened Catalog

  /** `check_availability(item)`: a catalog item all of whose components are stocked. */
  predicate IsAvailable(products: Products, inv: Inventory, item: string)
    ensures IsAvailable(products, inv, item) <==> item in AvailableItems(products, inv)
  {
    item in products && Available(inv, products[item].components)
  }

  /** An item the catalog does not list is never available. */
  lemma UnknownItemUnavailable(products: Products, inv: Inventory, item: string)
    requires item !in products
    ensures !IsAvailable(products, inv, item)
  {
  }

  /** An item with an empty recipe is always available, whatever the stock. */
  lemma EmptyRecipeAlwaysAvailable(products: Products, inv: Inventory, item: string)
    requires item in products && products[item].components == map[]
    ensures IsAvailable(products, inv, item)
  {
  }

  /** For a well-formed recipe, availability is "the maximum quantity is at least one". */
  lemma AvailabilityIsMaxQty(products: Products, inv: Inventory, item: string)
    requires item in products && Positive(products[item].components)
    ensures IsAvailable(products, inv, item) <==>
      Stocked(inv, products[item].components) && MaxQty(inv, products[item].components) >= 1
  {
    var recipe := products[item].components;
    if IsAvailable(products, inv, item) {
      assert Stocked(inv, recipe) by {
        forall c | c in recipe ensures c in inv {
          assert Stock(inv, c) >= recipe[c] > 0;
        }
      }
    }
    if Stocked(inv, recipe) {
      AvailableIffMaxQtyPositive(inv, recipe);
    }
  }

  /** The inventory that `update_inventory(items)` leaves behind, per component. */
  ghost predicate Decremented(before: Inventory, after: Inventory, products: Products, items: seq<string>)
    requires AllKnown(products, items)
  {
    && after.Keys == before.Keys
    && forall c :: c in after ==> after[c] == before[c] - Consumed(products, items, c)
  }

  /** The same multiset of selected units leaves the same inventory, whatever their order. */
  lemma DecrementOrderIndependent(before: Inventory, products: Products, a: seq<string>, b: seq<string>, after: Inventory)
    requires AllKnown(products, a) && multiset(a) == multiset(b)
    requires Decremented(before, after, products, a)
    ensures AllKnown(products, b) && Decremented(before, after, products, b)
  {
    ConsumedPermutation(products, a, b, "");
    forall c | c in after ensures after[c] == before[c] - Consumed(products, b, c) {
      ConsumedPermutation(products, a, b, c);
    }
  }

  /** Components no selected recipe mentions keep their count. */
  lemma DecrementLeavesOthers(before: Inventory, products: Products, items: seq<string>, after: Inventory, c: string)
    requires AllKnown(products, items) && Decremented(before, after, products, items)
    requires c in before && forall x :: x in items ==> c !in products[x].components
    ensures after[c] == before[c]
  {
    ConsumedUnused(products, items, c);
  }

  class InventoryManager {
    const products: Products
    var inventory: Inventory

    /** `load_inventory`: the stored inventory, or an empty one when there is no store yet. */
    constructor (products: Products, stored: Option<Inventory>)
      ensures this.products == products
      ensures inventory == if stored.Some? then stored.value else map[]
    {
      this.products := products;
      inventory := if stored.Some? then stored.value else map[];
    }

    predicate CheckAvailability(item: string)
      reads this
      ensures CheckAvailability(item) <==> item in AvailableItems(products, inventory)
    {
      IsAvailable(products, inventory, item)
    }

    /**
     * `update_inventory(items)`: for each selected unit, in order, subtracts its
     * recipe from the stock. Counts may go negative; an unknown item or a
     * component missing from the stock would raise KeyError, so callers must
     * rule both out.
     */
    method UpdateInventory(items: seq<string>)
      requires AllKnown(products, items)
      requires forall x, c :: x in items && c in products[x].components ==> c in inventory
      modifies this`inventory
      ensures Decremented(old(inventory), inventory, products, items)
    {
      var i := 0;
      while i < |items|
        invariant 0 <= i <= |items|
        invariant AllKnown(products, items[..i])
        invariant Decremented(old(inventory), inventory, products, items[..i])
      {
        assert items[..i + 1][..i] == items[..i];
        TakeRecipe(items[i]);
        i := i + 1;
      }
      assert items[..|items|] == items;
    }

    /** The inner loop of `update_inventory`: one unit of `item` takes each component count once. */
    method TakeRecipe(item: string)
      requires item in products && Stocked(inventory, products[item].components)
      modifies this`inventory
      ensures inventory.Keys == old(inventory).Keys
      ensures forall c :: c in inventory ==> inventory[c] == old(inventory)[c] - Uses(products, item, c)
    {
      var recipe := products[item].components;
      var pending := recipe.Keys;
      while pending != {}
        invariant pending <= recipe.Keys
        invariant inventory.Keys == old(inventory).Keys
        invariant forall c :: c in inventory ==>
          inventory[c] == old(inventory)[c] - (if c in recipe && c !in pending then recipe[c] else 0)
        decreases pending
      {
        var c :| c in pending;
        inventory := inventory[c := inventory[c] - recipe[c]];
        pending := pending - {c};
      }
    }
  }
}
