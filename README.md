# KFC point-of-sale console: pricing and stock core in Dafny

This project models the core of a small KFC ordering console, which the
repository keeps in three drafts that disagree with each other:

- `main.py` is the standalone console. It keeps the inventory, the products
  and the receipts as dictionaries of its own, and it takes stock *while* the
  customer picks. Each accepted pick reduces every component at once.
- `kfc_management_system.py` is the console built on
  `inventory_manager.py` and `order_manager.py`. It takes stock only
  *after* the order is stored, through `InventoryManager.update_inventory`.
- `customer_interface.py` is the same console with the input tests
  delegated to a validator and the pricing delegated to
  `discount_manager.py`.

Each draft is modelled as written, with one exception: the test for the
"Done" entry. Every draft strips both replies, as the program does, and then
compares the choice with the "Done" number by value. The program compares
the text with `str(index)`, which crashes on a reply such as "02" (see
Findings); `ConsoleInput.ChoosesDoneAsWritten` is that test as written. The
lemmas compare the drafts.

The shared vocabulary is in `Catalog`:
- A product is a price, an optional per-item discount and a recipe: a map
  from component to the count one unit needs.
- An item is available when every component has at least its count in
  stock.
- The largest quantity the console offers is the least quotient
  `stock / count` over the recipe (`MaxQty`).
- `Consumed` is what a list of picked items takes from one component.

`ConsoleInput` models the console's text handling:
- the `isdigit`/`int`/`str` conversions that decide a menu choice;
- `strip` and `upper`/`lower` on the customer's name and the name pattern;
- the payment replies.

`Selection` models the selection loop of the two drafts that do not take
stock during selection:
- `Judge` decides one round (skip, stop, or take an item and a quantity) by
  stripping both replies and passing them to `Decide`;
- `Picks` folds `Judge` over the customer's replies;
- `SelectLoop` is the loop itself, proved equal to `Picks`.

`MainApp.Rounds` is the same fold for `main.py`. Its rounds reduce the
stock as they go.

The console's replies are a finite list of rounds. A reply the console
never gets (end of input) ends the loop with the status `OutOfInput`. The
Python program would raise `EOFError` there.

Three rates are priced:

| rate | source | rule |
|---|---|---|
| `Pricing.ConsoleRate` | `main.py`, `kfc_management_system.py` | 0.05 for card, plus 0.027 for any earlier order, plus a further 0.12 after ten (at most 0.197) |
| `Discounts.StaticRate` | `discount_manager.py` | 0.12 in place of 0.027 after ten (at most 0.17) |
| card discount in `Discounts.StaticRate` | `discount_manager.py` | only when the payment string is exactly `'1'` |

Where the drafts' promises and their code disagree, the model follows the
code:
- **Oversell.** The no-oversell promise does not hold in
  `kfc_management_system.py`: the maximum offered for an item is never
  lowered by earlier picks in the same session, so `KfcSystem.OversellExample`
  exhibits an order that consumes more than the stock.
- **Partial store.** The all-or-nothing promise for a stored order does not
  hold in `customer_interface.py`: the order is appended before the
  timestamp call fails (see Findings).

## Model

| member | source | states |
|---|---|---|
| Catalog.MaxQty | main.py:75 | the largest quantity offered is at most `stock // count` for every component and equals it for one: the minimum over the recipe |
| Catalog.MinQuotient | kfc_management_system.py:67 | the loop that computes the maximum returns exactly `MaxQty` |
| Catalog.AvailableIffMaxQtyPositive | inventory_manager.py:71 | for a recipe with positive counts, an item is available exactly when at least one unit can be made |
| Catalog.WithinMaxQty | main.py:90-100 | any quantity up to the maximum needs no more of any component than is in stock |
| Catalog.AvailableItemsMonotone | main.py:55-60 | more stock never removes an item from the available listing |
| Catalog.Repeat | main.py:97 | a pick of `n` units adds exactly `n` copies of the item and nothing else |
| Catalog.ConsumedConcat | inventory_manager.py:64-66 | what two lists of items consume is the sum of what each consumes |
| Catalog.ConsumedRepeat | inventory_manager.py:64-66 | `n` copies of an item consume `n` times its recipe count |
| Catalog.ConsumedUnused | inventory_manager.py:64-66 | items whose recipes do not name a component consume none of it |
| Catalog.ConsumedPermutation | inventory_manager.py:64-66 | what a list of items consumes does not depend on its order |
| ConsoleInput.ValidChoiceNumerals | main.py:82 | the choice test accepts the numeral of `n` exactly when `1 <= n <= index` |
| ConsoleInput.ValidQuantityNumerals | main.py:92 | the quantity test accepts the numeral of `n` exactly when `1 <= n <= max_qty` |
| ConsoleInput.StrRoundTrip | main.py:86 | converting a number to text and back gives the number |
| ConsoleInput.CanonicalRoundTrip | main.py:86 | converting digit text without a leading zero to a number and back gives the text |
| ConsoleInput.LeadingZeroMissesDone | main.py:82-89 | as written, the reply "02" on a one-item menu passes the digit and range test but is not recognised as "Done" |
| ConsoleInput.ChoiceLookupInRange | main.py:86-89 | compared by value, every accepted choice is either "Done" or a valid index into the menu |
| ConsoleInput.TrimStart | main.py:49 | the result is a suffix of the input that does not start with white space |
| ConsoleInput.TrimEnd | main.py:49 | the result is a prefix of the input that does not end with white space |
| ConsoleInput.TrimStartDropsSpaces | main.py:49 | everything removed from the front is white space |
| ConsoleInput.TrimEndDropsSpaces | main.py:49 | everything removed from the back is white space |
| ConsoleInput.StripTrims | main.py:49 | `strip` is `lstrip` followed by `rstrip` |
| ConsoleInput.StripDigits | main.py:81 | a digit reply has nothing to strip |
| ConsoleInput.StripLeadingBlank | main.py:81 | a blank typed before a digit reply is stripped away |
| ConsoleInput.StripTrailingBlank | main.py:81 | a blank typed after a digit reply is stripped away |
| ConsoleInput.StripShape | main.py:49 | `strip` returns a slice of the input with no white space at either end, and only white space is dropped |
| ConsoleInput.StripIdempotent | main.py:49 | stripping twice is stripping once |
| ConsoleInput.UpperHasNoLower | main.py:49 | an upper-cased name contains no lower-case ASCII letter |
| ConsoleInput.UpperTwice | main.py:49 | upper-casing twice is upper-casing once |
| ConsoleInput.NameAcceptedShape | main.py:50 | an accepted name is made of upper-case letters and spaces only, and starts and ends with a letter |
| ConsoleInput.NormalizeIdempotent | main.py:49 | normalising a stored name again leaves it unchanged |
| ConsoleInput.CardOrCash | main.py:108-111 | a typed reply is accepted only as "card" or "cash"; any other reply selects nothing (the console asks again) |
| ConsoleInput.CardOrCashIgnoresCase | main.py:108 | upper-casing a reply never changes the payment it selects |
| ConsoleInput.TrimStartUpper | main.py:108 | upper-casing and removing leading white space can be done in either order |
| ConsoleInput.TrimEndUpper | main.py:108 | upper-casing and removing trailing white space can be done in either order |
| ConsoleInput.CardReplySelectsCard | main.py:108-109 | the reply " Card" selects card payment |
| ConsoleInput.PaymentChoice | kfc_management_system.py:86-93 | a numbered reply is accepted only as "card" or "cash" |
| ConsoleInput.PaymentChoiceMeaning | kfc_management_system.py:86-93 | a reply selects card exactly when it strips to "1" and cash exactly when it strips to "2"; any other reply selects nothing (the console asks again) |
| Pricing.Gross | discount_manager.py:9 | the sum of the prices of the selected items is not negative when no price is |
| Pricing.UnitDeductionWithin | discount_manager.py:26-29 | one item's deduction `price * discount / 100` lies between 0 and its price when the percentage lies within 0 to 100 |
| Pricing.SubtractItemDiscounts | kfc_management_system.py:111-114 | the per-item loop subtracts, from the running total, the sum of the discounts of the selected items |
| Pricing.DiscountedTotalBounds | discount_manager.py:26-29 | with prices not negative and discount percentages within 0 to 100, the deductions lie between 0 and the gross total |
| Pricing.ConsoleRate | main.py:119-126 | the rate lies between 0 and 0.197, so it is below 1 |
| Pricing.ConsoleRateMonotone | kfc_management_system.py:104-108 | more earlier orders never lower the rate |
| Pricing.ConsoleRateTiers | main.py:122-126 | over the payment part, the loyalty part is 0 for no earlier order, 0.027 for 1 to 10, and 0.147 after ten |
| Pricing.AfterDiscount | main.py:127 | a rate between 0 and 1 leaves a net between 0 and the total, and a rate of 0 or less never lowers it |
| Pricing.NetNonIncreasingInOrders | main.py:117-127 | the net never rises as the customer's order count grows |
| Pricing.BurgerExample | kfc_management_system.py:99-116 | two burgers at 100 with a 10 % item discount come to 180; card with no earlier order is 0.05 and leaves 171; cash after 11 orders is 0.147 |
| Selection.ConsoleChoicesInRange | kfc_management_system.py:59 | the console's digit-and-range test accepts only numerals whose value lies between 1 and the "Done" index |
| Selection.Decide | kfc_management_system.py:59-75 | on the stripped replies, an item taken is one on the menu |
| Selection.DecideMeaning | kfc_management_system.py:59-75 | an item is taken exactly when the choice passes its test without being "Done" and the quantity passes its test against the maximum of the item so numbered; it is then that item, `int(qty)` times; the round stops exactly on a valid "Done" |
| Selection.Judge | kfc_management_system.py:58-69 | both replies are stripped before they are judged; an item taken is one on the menu |
| Selection.JudgeRound | kfc_management_system.py:56-75 | the round as the console runs it, stripping both replies and computing the maximum with the loop, gives exactly the verdict of `Judge` |
| Selection.PicksListed | customer_interface.py:30-70 | every selected item is on the menu, and "nothing available" occurs exactly when the menu is empty and then selects nothing |
| Selection.SelectLoop | kfc_management_system.py:39-75 | the selection loop returns exactly the fold of `Judge` over the replies |
| Inventory.IsAvailable | inventory_manager.py:69-72 | an item is available exactly when it is in the listing of available products |
| Inventory.InventoryManager.CheckAvailability | inventory_manager.py:69-72 | `check_availability` answers yes exactly for the items in the listing of available products |
| Inventory.UnknownItemUnavailable | inventory_manager.py:69-72 | an item not in the products is never available |
| Inventory.EmptyRecipeAlwaysAvailable | inventory_manager.py:71 | an item with no components is available whatever the stock |
| Inventory.AvailabilityIsMaxQty | inventory_manager.py:71 | for positive counts, availability is the same as the components being stocked and at least one unit being makeable |
| Inventory.DecrementOrderIndependent | inventory_manager.py:64-66 | the stock left by `update_inventory` does not depend on the order of the items |
| Inventory.DecrementLeavesOthers | inventory_manager.py:64-66 | a component no selected item uses is left unchanged |
| Inventory.InventoryManager.constructor | inventory_manager.py:47-57 | the inventory is the stored one, or empty when none is stored |
| Inventory.InventoryManager.UpdateInventory | inventory_manager.py:63-67 | every component ends reduced by what the items consume; the keys are unchanged |
| Inventory.InventoryManager.TakeRecipe | inventory_manager.py:65-66 | one item reduces each component by its own recipe count and leaves the others unchanged |
| Orders.CountFor | kfc_management_system.py:96-97 | a customer's order count never exceeds the number of orders |
| Orders.CountForConcat | order_manager.py:63 | counts over two order lists add up |
| Orders.CountForAppend | order_manager.py:63 | appending an order adds 1 to its customer's count and 0 to the others |
| Orders.CountForBatch | order_manager.py:63 | appending `k` orders of one customer adds `k` to that customer's count |
| Orders.CountForAll | order_manager.py:63 | a list made only of one customer's orders counts all of them |
| Orders.OrderManager.constructor | order_manager.py:38-47 | the orders are the stored ones, or none when none are stored |
| Orders.OrderManager.PlaceOrder | order_manager.py:53-65 | the returned order holds the arguments and is appended; its customer's count rises by 1 and no other count changes |
| Discounts.StaticRate | discount_manager.py:13-23 | the rate lies between 0 and 0.17 |
| Discounts.StaticRateMonotone | discount_manager.py:20-23 | more earlier orders never lower the rate |
| Discounts.StaticRateTiers | discount_manager.py:20-23 | over the payment part, the loyalty part is 0 for no earlier order, 0.027 for 1 to 10, and 0.12 after ten |
| Discounts.CardWordEarnsNoCardDiscount | discount_manager.py:14-17 | "card", "cash" and "2" all earn the same rate, which is 0.05 less than the rate for "1" |
| Discounts.ApplyDiscounts | discount_manager.py:7-32 | it fails exactly when an item is not a product and names that item; otherwise it returns the gross minus the item discounts, the static rate, and the net after the rate |
| Discounts.ApplyDiscountsBounds | discount_manager.py:26-31 | for a sane catalog, `0 <= net <= total <= gross` |
| Discounts.DiscountManager.constructor | discount_manager.py:2-5 | the tables start as card 0.05 and cash 0, counts 1 → 0.027 and 11 → 0.12, and no item discounts |
| Discounts.DiscountManager.SetPaymentMethodDiscount | discount_manager.py:34-35 | only that payment entry is set |
| Discounts.DiscountManager.SetOrderCountDiscount | discount_manager.py:37-38 | only that threshold entry is set |
| Discounts.DiscountManager.SetItemDiscount | discount_manager.py:40-41 | only that item entry is set |
| MainApp.OrderCount | main.py:114-115 | a customer's receipt count never exceeds the number of receipts |
| MainApp.OrderCountAppend | main.py:138 | appending a receipt adds 1 to its customer's count and 0 to the others |
| MainApp.Deduct | main.py:99-100 | taking a pick's components keeps the set of components |
| MainApp.DeductWithinMax | main.py:90-100 | a pick up to the maximum reduces each recipe component by count × quantity, leaves the others, and drives no component negative |
| MainApp.RoundsListed | main.py:66-100 | every picked item is on the menu; "nothing available" occurs exactly when the menu is empty, and then nothing is picked and the stock is untouched |
| MainApp.RoundsConsume | main.py:66-100 | after the session, each component's stock is its start less what the picked items consume, and no component is added or dropped |
| MainApp.RoundsKeepStockNonNegative | main.py:66-100 | a session that starts with non-negative stock never drives a component below zero (no oversell) |
| MainApp.KfcManagementSystem.constructor | main.py:10-45 | inventory, receipts and products are the stored ones, or empty when none are stored |
| MainApp.KfcManagementSystem.WelcomeScreen | main.py:47-53 | the stored name is the reply stripped and upper-cased, and it is accepted exactly when the name pattern matches |
| MainApp.KfcManagementSystem.GetAvailableItems | main.py:55-60 | the listing holds exactly the available products |
| MainApp.KfcManagementSystem.SelectItems | main.py:62-100 | the picks and the stock left are those of the `Rounds` fold over the replies |
| MainApp.KfcManagementSystem.PlayRounds | main.py:66-100 | the loop ends with the picks and the stock of the `Rounds` fold from the stock at entry |
| MainApp.KfcManagementSystem.PlayRound | main.py:81-100 | the verdict is `Judge` of the first round against the stock at entry; an accepted pick takes count × quantity of each recipe component out of the stock (`Deduct`), any other verdict leaves the stock unchanged; the picks grow by the verdict's copies and the rest of the fold is unchanged |
| MainApp.KfcManagementSystem.TakeComponents | main.py:99-100 | the inventory becomes `Deduct` of the old inventory by the pick |
| MainApp.KfcManagementSystem.GetOrderCount | main.py:114-115 | the customer's receipt count never exceeds the number of receipts |
| MainApp.KfcManagementSystem.ApplyDiscounts | main.py:117-128 | one receipt is appended whose total is the gross after the console rate for the customer's earlier receipts, and the customer's count rises by 1 |
| MainApp.KfcManagementSystem.StoreOrder | main.py:130-151 | the receipt holds the customer, the items, the payment, the net and the time; the count rises by 1 |
| KfcSystem.KfcManagementSystem.constructor | kfc_management_system.py:9-21 | the managers hold the stored inventory and orders, or empty ones |
| KfcSystem.KfcManagementSystem.WelcomeScreen | kfc_management_system.py:23-29 | the stored name is the reply stripped and upper-cased, and it is accepted exactly when the name pattern matches |
| KfcSystem.KfcManagementSystem.GetAvailableItems | kfc_management_system.py:31-33 | the listing holds exactly the available products |
| KfcSystem.KfcManagementSystem.SelectItems | kfc_management_system.py:35-75 | the picks are the fold of `Judge` over the replies against the unchanged stock |
| KfcSystem.KfcManagementSystem.GetOrderCount | kfc_management_system.py:96-97 | the count never exceeds the number of stored orders |
| KfcSystem.KfcManagementSystem.ApplyDiscounts | kfc_management_system.py:99-117 | one order is appended with the gross less item discounts, the console rate for the earlier orders, and the net; the stock is reduced by what the items consume |
| KfcSystem.KfcManagementSystem.StoreOrder | kfc_management_system.py:119-132 | the order is appended, then the stock is reduced by what the items consume |
| KfcSystem.BurgerReady | kfc_management_system.py:47-49 | a one-burger catalog over 3 patties is ready for the loop, and its maximum is 3 |
| KfcSystem.BurgerTakesThree | kfc_management_system.py:58-75 | against 3 patties, any round whose replies strip to "1" and "3" takes 3 burgers |
| KfcSystem.BurgerDone | kfc_management_system.py:58-64 | any round whose choice strips to "2" ends the selection on the one-burger menu |
| KfcSystem.BurgerVerdicts | kfc_management_system.py:56-75 | against 3 patties, choice "1" with quantity "3" takes 3 burgers, also when typed as " 1" and "3 ", and "2" ends the selection |
| KfcSystem.OversellExample | kfc_management_system.py:67-75 | two rounds that strip to "1" and "3", then "2": both picks are accepted against 3 patties, so the order consumes 6 |
| Interface.CustomerInterface.constructor | customer_interface.py:10-14 | the managers hold the stored inventory and orders, or empty ones |
| Interface.CustomerInterface.GetAvailableItems | customer_interface.py:23-28 | the listing holds exactly the available products |
| Interface.CustomerInterface.SelectItems | customer_interface.py:30-70 | the picks are the fold of `Judge` under the validator's tests against the unchanged stock |
| Interface.CustomerInterface.GetOrderCount | customer_interface.py:79-80 | the count never exceeds the number of stored orders |
| Interface.CustomerInterface.ApplyDiscounts | customer_interface.py:82-89 | the quote is that of the discount manager: a failure exactly for an unknown item, otherwise the static pricing |
| Interface.CustomerInterface.StoreOrderAsWritten | customer_interface.py:91-104 | as written, the order is appended and the call then fails with `AttributeError` before any stock is taken |
| Interface.CustomerInterface.StoreOrder | customer_interface.py:91-104 | corrected, the order is appended and the stock is reduced by what the items consume |
| Interface.StockNotTaken | customer_interface.py:102-104 | stock left untouched is never the stock the order should leave when the order uses a component |

## Left out

- Loading and saving JSON files are not modelled. Each constructor takes the
  stored value as an `Option`, with `None` standing for a missing file, and
  saving after a change is not modelled.
- Prompts, printed menus, receipts and their formatting are left out.
  `datetime.now()` is a `timestamp` parameter.
- The re-prompting recursion is left out; only the decision it repeats is
  modelled. This covers `welcome_screen`, `payment_method`, and
  `select_items` after an empty selection. `WelcomeScreen` returns whether
  the name was accepted, and `PaymentChoice` returns `None` for a reply that
  would be asked again.
- The order in which a dictionary lists its keys is the `menu` parameter.
  The menu is required to list the available items exactly once each.
- `input_validator.py` is not part of this model. Its choice and quantity
  tests are parameters of `Interface.CustomerInterface.SelectItems`.
  `customer_interface.py`'s `welcome_screen` and `payment_method` consist
  of calls to it and are left out.
- `product_manager.py` and `program_manager.py` are not part of this model.
- Prices and rates are exact reals, not binary floats, so rounding is not
  modelled.
- `strip` removes exactly the characters of Python's `str.isspace()`.
  `isdigit`, `upper` and `lower` are modelled over ASCII only; Python also
  accepts non-ASCII digits and letters there.
- Several failures are excluded by preconditions:
  - a `KeyError` from an unknown item or from a component missing from the
    inventory;
  - a `ZeroDivisionError` from a zero recipe count;
  - a `ValueError` from `min()` over an empty recipe (main.py:75), which
    `Positive` excludes;
  - a validator that lets through a non-numeral or an out-of-range choice,
    so that `int(choice)` or `item_map[int(choice)]` fails
    (customer_interface.py:53-60). `ChoicesInRange` excludes it in
    `Interface.CustomerInterface.SelectItems`, and `QuantitiesNumeric`
    requires the quantity test to accept numerals only.

  `PositiveRecipes`, `Stocked` and `AllKnown` express these. The exception
  is `Discounts.ApplyDiscounts`, whose unknown-item failure is modelled as a
  `Failure` result.
- Running out of replies ends selection with `OutOfInput`, where Python
  raises `EOFError`.
- The code kept inside string literals at the top of
  `inventory_manager.py` and `order_manager.py` is not modelled, since it
  never runs.
- `DiscountManager`'s tables are modelled with their setters.
  `apply_discounts` never reads them, and neither does the model.
- `main.py`'s `update_inventory` only saves the inventory, so
  `MainApp.KfcManagementSystem.StoreOrder` leaves the stock alone.
- Selection.Judge: on a reply that spells the "Done" number other than as `str(index)` (such as "02"), the round stops, where the program raises `KeyError` at `item_map[int(choice)]` (kfc_management_system.py:63-66). The as-written test is `ConsoleInput.ChoosesDoneAsWritten` (see Findings).
- Selection.Decide: stops on such a reply in the same way.
- Selection.JudgeRound: stops on such a reply in the same way.
- Selection.Picks: stops on such a reply in the same way.
- Selection.SelectLoop: stops on such a reply in the same way.
- MainApp.Rounds: stops on such a reply in the same way (main.py:86-89).
- MainApp.KfcManagementSystem.PlayRounds: stops on such a reply in the same way.
- MainApp.KfcManagementSystem.PlayRound: stops on such a reply in the same way.
- MainApp.KfcManagementSystem.SelectItems: stops on such a reply in the same way.
- KfcSystem.KfcManagementSystem.SelectItems: stops on such a reply in the same way.
- Interface.CustomerInterface.SelectItems: stops on such a reply in the same way (customer_interface.py:57-60).
- MainApp.Deduct: its own contract states only that the components are
  kept. The amounts taken are stated by `MainApp.DeductWithinMax` for picks
  within the maximum, which are the only ones the console makes.

## Findings

| source | as written | input that shows it | evidently intended | confidence | as-written member | corrected member |
|---|---|---|---|---|---|---|
| main.py:82-89 | a choice that passes the digit and range test is "Done" only when it equals `str(index)` as text; otherwise it indexes the menu | one available item and the reply "02": it passes the test at line 82, is not `str(index)` at line 86, and `item_map[int(choice)]` raises `KeyError` at line 89 | a choice whose value is the "Done" index ends the selection | not executed | ConsoleInput.LeadingZeroMissesDone | ConsoleInput.ChoiceLookupInRange |
| customer_interface.py:102 | `datetime.now()` is called on the module imported by `import datetime` (line 7), which has no `now` | any order stored through `store_order` | the order is stored and `update_inventory` (line 104) takes its stock | not executed | Interface.CustomerInterface.StoreOrderAsWritten | Interface.CustomerInterface.StoreOrder |

The same choice test appears in `kfc_management_system.py` at lines 59-66.
The model's selection uses the value comparison `ConsoleInput.ChoosesDone`.
`Interface.StockNotTaken` shows that the stock the as-written `store_order`
leaves differs from the stock it should leave.
