/**
 * The shared data model of the point-of-sale console: the product catalog
 * (item name -> price, optional percentage discount, recipe of components),
 * the component inventory, and the availability, maximum-quantity and
 * consumption rules every draft of the program computes over them.
 */
module Catalog {
  import opened Wrappers

  /** A recipe: component name -> units of that component one item consumes. */
  type Recipe = map<string, nat>

  /** The stock: component name -> count (a plain integer; nothing stops it going negative). */
  type Inventory = map<string, int>

  /** One catalog entry; `discount` is present only when the entry has a 'discount' key. */
  datatype Product = Product(price: real, discount: Option<real>, components: Recipe)

  type Products = map<string, Product>

  /** `inventory.get(component, 0)`: a component missing from the inventory counts as zero. */
  function Stock(inv: Inventory, c: string): int
  {
    if c in inv then inv[c] else 0
  }

  /** The `all(...)` test: every component of the recipe is stocked at least `count` times. */
  predicate Available(inv: Inventory, recipe: Recipe)
  {
    forall c :: c in recipe ==> Stock(inv, c) >= recipe[c]
  }

  /** The catalog restricted to the items that are available, their details unchanged. */
  function AvailableItems(products: Products, inv: Inventory): Products
  {
    map x | x in products && Available(inv, products[x].components) :: products[x]
  }

  /** A recipe `min(... // count)` can be evaluated over: not empty, every count positive. */
  predicate Positive(recipe: Recipe)
  {
    recipe != map[] && forall c :: c in recipe ==> recipe[c] > 0
  }

  /** Every component of the recipe is a key of the inventory (`inventory[c]` does not raise). */
  predicate Stocked(inv: Inventory, recipe: Recipe)
  {
    forall c :: c in recipe ==> c in inv
  }

  /** The catalog has no empty recipe and no zero count. */
  predicate PositiveRecipes(products: Products)
  {
    forall x :: x in products ==> Positive(products[x].components)
  }

  /**
   * `min(inventory[c] // count for c, count in recipe)`: the largest number of
   * items the stock covers. Dafny's `/` by a positive divisor is floor
   * division, as Python's `//` is, also for a negative count.
   */
  ghost function MaxQty(inv: Inventory, recipe: Recipe): (m: int)
    requires Positive(recipe) && Stocked(inv, recipe)
    ensures forall c :: c in recipe ==> m <= inv[c] / recipe[c]
    ensures exists c :: c in recipe && m == inv[c] / recipe[c]
    decreases recipe.Keys
  {
    var c :| c in recipe;
    var rest := recipe - {c};
    var q := inv[c] / recipe[c];
    if rest == map[] then
      assert forall k :: k in recipe ==> k == c by {
        assert rest.Keys == recipe.Keys - {c};
        assert rest.Keys == {};
        assert recipe.Keys <= {c};
      }
      q
    else
      var m' := MaxQty(inv, rest);
      assert forall k :: k in recipe && k != c ==> k in rest;
      if q <= m' then q else m'
  }

  /** Computes the minimum quotient by walking the recipe's components once. */
  method MinQuotient(inv: Inventory, recipe: Recipe) returns (m: int)
    requires Positive(recipe) && Stocked(inv, recipe)
    ensures m == MaxQty(inv, recipe)
  {
    var pending := recipe.Keys;
    var first :| first in pending;
    m := inv[first] / recipe[first];
    pending := pending - {first};
    while pending != {}
      invariant pending <= recipe.Keys
      invariant forall k :: k in recipe && k !in pending ==> m <= inv[k] / recipe[k]
      invariant exists k :: k in recipe && k !in pending && m == inv[k] / recipe[k]
      decreases pending
    {
      var c :| c in pending;
      if inv[c] / recipe[c] < m {
        m := inv[c] / recipe[c];
      }
      pending := pending - {c};
    }
    ghost var best := MaxQty(inv, recipe);
    ghost var k :| k in recipe && m == inv[k] / recipe[k];
    ghost var j :| j in recipe && best == inv[j] / recipe[j];
    assert m <= best && best <= m;
  }

  /** `q <= a // b` with `b > 0` means that `q` units of `b` fit into `a`. */
  lemma FloorDivBound(a: int, b: int, q: int)
    requires b > 0 && q <= a / b
    ensures q * b <= a
  {
    assert (a / b) * b + a % b == a;
    assert q * b <= (a / b) * b;
  }

  /** An item is available exactly when its maximum quantity is at least one. */
  lemma AvailableIffMaxQtyPositive(inv: Inventory, recipe: Recipe)
    requires Positive(recipe) && Stocked(inv, recipe)
    ensures Available(inv, recipe) <==> MaxQty(inv, recipe) >= 1
  {
    var m := MaxQty(inv, recipe);
    if Available(inv, recipe) {
      var k :| k in recipe && m == inv[k] / recipe[k];
      assert Stock(inv, k) >= recipe[k];
      assert inv[k] / recipe[k] >= recipe[k] / recipe[k];
    } else {
      var k :| k in recipe && Stock(inv, k) < recipe[k];
      assert inv[k] / recipe[k] < 1 by {
        if inv[k] / recipe[k] >= 1 { FloorDivBound(inv[k], recipe[k], 1); }
      }
    }
  }

  /** Any quantity up to the maximum is covered, component by component, by the stock. */
  lemma WithinMaxQty(inv: Inventory, recipe: Recipe, q: int)
    requires Positive(recipe) && Stocked(inv, recipe)
    requires q <= MaxQty(inv, recipe)
    ensures forall c :: c in recipe ==> recipe[c] * q <= inv[c]
  {
    forall c | c in recipe ensures recipe[c] * q <= inv[c] {
      FloorDivBound(inv[c], recipe[c], q);
    }
  }

  /** More stock never makes an available item unavailable. */
  lemma AvailableItemsMonotone(products: Products, inv: Inventory, more: Inventory)
    requires forall c :: Stock(inv, c) <= Stock(more, c)
    ensures AvailableItems(products, inv).Keys <= AvailableItems(products, more).Keys
  {
    forall x | x in AvailableItems(products, inv)
      ensures x in AvailableItems(products, more)
    {
      var recipe := products[x].components;
      assert forall c :: c in recipe ==> Stock(more, c) >= recipe[c] by {
        forall c | c in recipe ensures Stock(more, c) >= recipe[c] {
          assert Stock(inv, c) <= Stock(more, c);
        }
      }
    }
  }

  /** Every selected unit names a catalog entry (`products[item]` does not raise). */
  predicate AllKnown(products: Products, items: seq<string>)
  {
    forall x :: x in items ==> x in products
  }

  /** Units of component `c` that one unit of `item` consumes (0 when not in its recipe). */
  function Uses(products: Products, item: string, c: string): nat
    requires item in products
  {
    if c in products[item].components then products[item].components[c] else 0
  }

  /** Units of component `c` that the whole selection consumes, one recipe per selected unit. */
  function Consumed(products: Products, items: seq<string>, c: string): nat
    requires AllKnown(products, items)
  {
    if items == [] then 0
    else Consumed(products, items[..|items| - 1], c) + Uses(products, items[|items| - 1], c)
  }

  /** `[item] * n`: `n` copies of one item. */
  function Repeat(item: string, n: nat): (r: seq<string>)
    ensures |r| == n
    ensures forall x :: x in r ==> x == item
  {
    if n == 0 then [] else Repeat(item, n - 1) + [item]
  }

  /** Consumption adds up over concatenated selections. */
  lemma {:induction false} ConsumedConcat(products: Products, a: seq<string>, b: seq<string>, c: string)
    requires AllKnown(products, a) && AllKnown(products, b)
    ensures AllKnown(products, a + b)
    ensures Consumed(products, a + b, c) == Consumed(products, a, c) + Consumed(products, b, c)
    decreases |b|
  {
    if b != [] {
      var b' := b[..|b| - 1];
      assert (a + b)[..|a + b| - 1] == a + b';
      ConsumedConcat(products, a, b', c);
    } else {
      assert a + b == a;
    }
  }

  /** `n` copies of an item consume `n` times its recipe. */
  lemma {:induction false} ConsumedRepeat(products: Products, item: string, n: nat, c: string)
    requires item in products
    ensures AllKnown(products, Repeat(item, n))
    ensures Consumed(products, Repeat(item, n), c) == n * Uses(products, item, c)
  {
    if n > 0 {
      var r, u := Repeat(item, n), Uses(products, item, c);
      ConsumedRepeat(products, item, n - 1, c);
      assert r[..n - 1] == Repeat(item, n - 1) && r[n - 1] == item;
      assert Consumed(products, r, c) == (n - 1) * u + u;
    }
  }

  /** A component that no selected item's recipe mentions is not consumed. */
  lemma {:induction false} ConsumedUnused(products: Products, items: seq<string>, c: string)
    requires AllKnown(products, items)
    requires forall x :: x in items ==> c !in products[x].components
    ensures Consumed(products, items, c) == 0
  {
    if items != [] {
      ConsumedUnused(products, items[..|items| - 1], c);
    }
  }

  /** Taking one unit out of the middle of a selection takes away its recipe. */
  lemma ConsumedRemove(products: Products, b: seq<string>, j: int, c: string)
    requires AllKnown(products, b) && 0 <= j < |b|
    ensures AllKnown(products, b[..j] + b[j + 1..])
    ensures Consumed(products, b, c) == Consumed(products, b[..j] + b[j + 1..], c) + Uses(products, b[j], c)
  {
    assert b == b[..j] + [b[j]] + b[j + 1..];
    ConsumedConcat(products, b[..j], [b[j]], c);
    ConsumedConcat(products, b[..j] + [b[j]], b[j + 1..], c);
    ConsumedConcat(products, b[..j], b[j + 1..], c);
    assert [b[j]][..0] == [];
  }

  /** Dropping the same element from two permutations of each other leaves permutations. */
  lemma PermutationDrop(a: seq<string>, b: seq<string>, j: int)
    requires a != [] && 0 <= j < |b| && b[j] == a[|a| - 1]
    requires multiset(a) == multiset(b)
    ensures multiset(a[..|a| - 1]) == multiset(b[..j] + b[j + 1..])
  {
    var last := b[j];
    assert a == a[..|a| - 1] + [last];
    assert b == b[..j] + [last] + b[j + 1..];
    var ma, mb := multiset(a[..|a| - 1]), multiset(b[..j] + b[j + 1..]);
    assert multiset(b) == mb + multiset([last]);
    assert multiset(a) == ma + multiset([last]);
    forall e ensures ma[e] == mb[e] {
      assert (ma + multiset([last]))[e] == (mb + multiset([last]))[e];
    }
  }

  /** The consumption does not depend on the order of the selected units. */
  lemma {:induction false} ConsumedPermutation(products: Products, a: seq<string>, b: seq<string>, c: string)
    requires AllKnown(products, a)
    requires multiset(a) == multiset(b)
    ensures AllKnown(products, b)
    ensures Consumed(products, a, c) == Consumed(products, b, c)
    decreases |a|
  {
    assert AllKnown(products, b) by {
      forall x | x in b ensures x in products {
        assert x in multiset(b);
      }
    }
    if a != [] {
      var last := a[|a| - 1];
      assert last in multiset(b);
      var j :| 0 <= j < |b| && b[j] == last;
      PermutationDrop(a, b, j);
      ConsumedRemove(products, b, j, c);
      ConsumedPermutation(products, a[..|a| - 1], b[..j] + b[j + 1..], c);
    }
  }
}
