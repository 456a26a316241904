/**
 * The item-selection loop of the console, for the drafts that do not touch
 * the stock while the customer chooses (kfc_management_system.py and
 * customer_interface.py). Console replies are a finite script of rounds; a
 * round is one menu choice and, when the choice names an item, one quantity.
 */
module Selection {
  import opened Catalog
  import opened ConsoleInput

  /**
   * The replies of one pass of the loop, as typed: the menu choice, then the
   * quantity (read only for an item). The loop strips both before testing them.
   */
  datatype Round = Round(choice: string, quantity: string)

  /** How the loop ended: nothing to offer, "Done" chosen, or no more replies. */
  datatype Status = NothingAvailable | Finished | OutOfInput

  /** The accumulated `selected_items` and how the loop ended. */
  datatype Picked = Picked(items: seq<string>, status: Status)

  /** `menu` numbers exactly the given items, each once, in the order they are listed. */
  ghost predicate Lists(menu: seq<string>, items: Products)
  {
    && (forall x :: x in menu <==> x in items)
    && (forall i, j :: 0 <= i < j < |menu| ==> menu[i] != menu[j])
  }

  /** Every listed item has a recipe the maximum quantity can be computed over. */
  ghost predicate MenuReady(products: Products, inv: Inventory, menu: seq<string>)
  {
    forall x :: x in menu ==>
      x in products && Positive(products[x].components) && Stocked(inv, products[x].components)
  }

  /** A listing of the available items of a catalog without empty recipes or zero counts is ready. */
  lemma ListedAvailableReady(products: Products, inv: Inventory, menu: seq<string>)
    requires PositiveRecipes(products) && Lists(menu, AvailableItems(products, inv))
    ensures MenuReady(products, inv, menu)
  {
    forall x | x in menu
      ensures x in products && Positive(products[x].components) && Stocked(inv, products[x].components)
    {
      assert x in AvailableItems(products, inv);
      var recipe := products[x].components;
      forall c | c in recipe ensures c in inv {
        assert Stock(inv, c) >= recipe[c] > 0;
      }
    }
  }

  /** The menu is empty exactly when nothing is available. */
  lemma ListsEmpty(menu: seq<string>, items: Products)
    requires Lists(menu, items)
    ensures menu == [] <==> items == map[]
  {
    if menu != [] {
      assert menu[0] in items;
    } else {
      assert items.Keys == {};
    }
  }

  /** The choice test lets through only numerals, and none outside 1 .. index. */
  ghost predicate ChoicesInRange(validChoice: (string, nat) -> bool, index: nat)
  {
    forall s :: validChoice(s, index) ==> IsDigits(s) && 1 <= Value(s) <= index
  }

  /** The console's own choice test `choice.isdigit() and 1 <= int(choice) <= index` is in range. */
  lemma ConsoleChoicesInRange(index: nat)
    ensures ChoicesInRange(ValidChoice, index)
  {
  }

  /** What one round decides: ask again, stop, or add `qty` units of `item`. */
  datatype Verdict = Skip | Stop | Take(item: string, qty: nat)

  /**
   * One pass of the loop body against the stock `inv`, on the stripped
   * replies: a choice the test rejects, or a quantity the test rejects
   * against the item's maximum, asks again; the number after the last item
   * means "Done"; otherwise the item numbered `int(choice)` is taken
   * `int(qty)` times.
   */
  ghost function Decide(products: Products, inv: Inventory, menu: seq<string>, choice: string, qty: string,
                        validChoice: (string, nat) -> bool, validQty: (string, int) -> bool): (v: Verdict)
    requires MenuReady(products, inv, menu)
    requires ChoicesInRange(validChoice, |menu| + 1)
    ensures v.Take? ==> v.item in menu
  {
    var index := |menu| + 1;
    if !validChoice(choice, index) then Skip
    else if ChoosesDone(choice, index) then Stop
    else
      var item := menu[Value(choice) - 1];
      if !validQty(qty, MaxQty(inv, products[item].components)) then Skip
      else Take(item, Value(qty))
  }

  /**
   * What a round decides, in terms of the stripped replies: an item is taken
   * exactly when the choice passes its test without being "Done" and the
   * quantity passes its test against the maximum of the item so numbered;
   * it is then that item, `int(qty)` times; the round stops exactly on a
   * valid "Done".
   */
  lemma DecideMeaning(products: Products, inv: Inventory, menu: seq<string>, choice: string, qty: string,
                      validChoice: (string, nat) -> bool, validQty: (string, int) -> bool)
    requires MenuReady(products, inv, menu)
    requires ChoicesInRange(validChoice, |menu| + 1)
    ensures var v, index := Decide(products, inv, menu, choice, qty, validChoice, validQty), |menu| + 1;
      && (v.Take? <==> && validChoice(choice, index) && !ChoosesDone(choice, index)
                       && validQty(qty, MaxQty(inv, products[menu[Value(choice) - 1]].components)))
      && (v.Take? ==> v.item == menu[Value(choice) - 1] && v.qty == Value(qty))
      && (v.Stop? <==> validChoice(choice, index) && ChoosesDone(choice, index))
  {
    var index := |menu| + 1;
    if validChoice(choice, index) && !ChoosesDone(choice, index) {
      assert 1 <= Value(choice) < index;
    }
  }

  /** One pass of the loop body: both replies are stripped before they are judged. */
  ghost function Judge(products: Products, inv: Inventory, menu: seq<string>, round: Round,
                       validChoice: (string, nat) -> bool, validQty: (string, int) -> bool): (v: Verdict)
    requires MenuReady(products, inv, menu)
    requires ChoicesInRange(validChoice, |menu| + 1)
    ensures v.Take? ==> v.item in menu
  {
    Decide(products, inv, menu, Strip(round.choice), Strip(round.quantity), validChoice, validQty)
  }

  /** The loop body's decision, computed: `MinQuotient` gives the maximum the quantity is checked against. */
  method JudgeRound(products: Products, inv: Inventory, menu: seq<string>, round: Round,
                    validChoice: (string, nat) -> bool, validQty: (string, int) -> bool) returns (v: Verdict)
    requires MenuReady(products, inv, menu)
    requires ChoicesInRange(validChoice, |menu| + 1)
    ensures v == Judge(products, inv, menu, round, validChoice, validQty)
  {
    var index := |menu| + 1;
    var choice := Strip(round.choice);
    if !validChoice(choice, index) {
      return Skip;
    }
    if ChoosesDone(choice, index) {
      return Stop;
    }
    var item := menu[Value(choice) - 1];
    var maxQty := MinQuotient(inv, products[item].components);
    var qty := Strip(round.quantity);
    if !validQty(qty, maxQty) {
      return Skip;
    }
    return Take(item, Value(qty));
  }

  /**
   * The selection loop, round by round, for the drafts that leave the stock
   * alone while the customer chooses: every round is judged against the same
   * stock `inv`, "Done" ends the loop, an accepted quantity appends that many
   * copies of the item.
   */
  ghost function Picks(products: Products, inv: Inventory, menu: seq<string>, script: seq<Round>,
                       validChoice: (string, nat) -> bool, validQty: (string, int) -> bool): Picked
    requires MenuReady(products, inv, menu)
    requires ChoicesInRange(validChoice, |menu| + 1)
    decreases |script|
  {
    if menu == [] then Picked([], NothingAvailable)
    else if script == [] then Picked([], OutOfInput)
    else
      match Judge(products, inv, menu, script[0], validChoice, validQty)
      case Skip => Picks(products, inv, menu, script[1..], validChoice, validQty)
      case Stop => Picked([], Finished)
      case Take(item, qty) =>
        var rest := Picks(products, inv, menu, script[1..], validChoice, validQty);
        Picked(Repeat(item, qty) + rest.items, rest.status)
  }

  /**
   * Only listed items are picked; the loop reports "nothing available"
   * exactly for an empty menu, and then picks nothing.
   */
  lemma {:induction false} PicksListed(products: Products, inv: Inventory, menu: seq<string>, script: seq<Round>,
                                       validChoice: (string, nat) -> bool, validQty: (string, int) -> bool)
    requires MenuReady(products, inv, menu)
    requires ChoicesInRange(validChoice, |menu| + 1)
    ensures var r := Picks(products, inv, menu, script, validChoice, validQty);
      && (forall x :: x in r.items ==> x in menu)
      && (r.status == NothingAvailable <==> menu == [])
      && (r.status == NothingAvailable ==> r.items == [])
    decreases |script|
  {
    if menu != [] && script != [] {
      PicksListed(products, inv, menu, script[1..], validChoice, validQty);
    }
  }

  /**
   * The loop of `select_items` against a fixed stock `inv`: `available` is
   * the listing made before the loop, `menu` its numbering, and the two tests
   * decide which choices and quantities are accepted.
   */
  method SelectLoop(products: Products, inv: Inventory, available: Products, menu: seq<string>, script: seq<Round>,
                    validChoice: (string, nat) -> bool, validQty: (string, int) -> bool)
    returns (picked: Picked)
    requires MenuReady(products, inv, menu) && (menu == [] <==> available == map[])
    requires ChoicesInRange(validChoice, |menu| + 1)
    ensures picked == Picks(products, inv, menu, script, validChoice, validQty)
  {
    var selected: seq<string> := [];
    var i := 0;
    ghost var goal := Picks(products, inv, menu, script, validChoice, validQty);
    while true
      invariant 0 <= i <= |script|
      invariant goal.items == selected + Picks(products, inv, menu, script[i..], validChoice, validQty).items
      invariant goal.status == Picks(products, inv, menu, script[i..], validChoice, validQty).status
      decreases |script| - i
    {
      if available == map[] {
        return Picked(selected, NothingAvailable);
      }
      if i == |script| {
        return Picked(selected, OutOfInput);
      }
      assert script[i..][0] == script[i] && script[i..][1..] == script[i + 1..];
      var verdict := JudgeRound(products, inv, menu, script[i], validChoice, validQty);
      match verdict {
        case Skip =>
        case Stop =>
          return Picked(selected, Finished);
        case Take(item, qty) =>
          selected := selected + Repeat(item, qty);
      }
      i := i + 1;
    }
  }
}
