# Shopping checkout pricing, modelled in Dafny

This project models the checkout of a small shop. It has three parts.

- **Catalogue.** There are four items. Each has a SKU and an exact list price.
- **Pricing rules.** A rule is one of three kinds: pay-for-X-receive-Y, bundle deal or bulk discount. A bulk discount carries a percentage or a flat discount.
- **Checkout.** A `Checkout` object holds the pricing rules and a basket of scanned items. `scan` appends items to the basket. `total` adds up the list prices and truncates the sum toward zero at two decimal places.

The tests also call five queries on the checkout: `itemCount`, `itemCounts`, `includedItems`, `bundledItems` and `freeItems`. The tests call them, but neither Checkout.kt nor the test file defines them; the test rows pin down what each returns for the test rules. The model states them as pure functions of the scanned items and the rules, with definitions inferred from the test rows (see below).

Modules, one per component:

- `Decimals` holds exact amounts as `real` and models `setScale(2, DOWN)`.
- `Items` is the catalogue.
- `Discounts` and `PricingRules` are the closed sum types, and `PricingRule.PricePerUnit` is the bulk price.
- `Baskets` holds pure views of the scanned list: the list-price fold, the total and the counts.
- `FreeItems` holds the free-unit queries.
- `Shopping` holds the `Checkout` class. Its `items` field is a `seq<Item>`. `Scan` reassigns that field, and `Total` is a loop over it.
- `Scenarios` holds the rule set the tests use and the results the tests expect.

## Where the code and the tests disagree

- `total` never reads `pricingRules` (Checkout.kt:18, :30). The model follows the code. The expected totals at CheckoutTests.kt:33, :36 and :39 (249.00, 2718.95 and 1949.98) assume that free units are subtracted and bulk unit prices applied; Checkout.kt:30 does neither. The code gives 358.50, 2968.95 and 1979.98 for those baskets, and `Scenarios.TotalRowsIgnoringRules` proves those three values. The tests at :42 and :45 agree with the code, and `Scenarios.TotalRows` proves them.
- The five queries `itemCount`, `itemCounts`, `includedItems`, `bundledItems` and `freeItems` are called by CheckoutTests.kt but defined neither there nor in Checkout.kt. Their definitions here are inferred from the test rows:
  - `itemCount(i)` counts occurrences of `i`.
  - `itemCounts` maps each scanned item to its count.
  - `includedItems` holds `(count(item) / payFor) * receive` copies of each pay-for-X-receive-Y rule's item.
  - `bundledItems` holds `count(purchased) / min` copies of each bundle deal's bundled item.
  - `freeItems` holds the units of both.

  Every test uses `BundleDeal(Macbook Pro, 1, VGA Adapter)` and `PayForXReceiveY(Apple TV, 3, 1)` (CheckoutTests.kt:20-21), so the rows fix these two formulas only for `min` = 1, `payFor` = 3 and `receive` = 1. Dividing the purchased count by `min`, rather than reading `min` as a threshold ("the minimum amount to purchase before receiving the free item", PricingRule.kt:21), and multiplying the groups of `payFor` by `receive` are the model's choices.

  No test row fixes an order for these lists. The test rule set has one rule of each kind (CheckoutTests.kt:20-22), and the freeItems rows are compared in any order (CheckoutTests.kt:136). The orders used here are the model's choice: rules are taken in rule order, and `freeItems` is `includedItems` followed by `bundledItems`. `FreeItems.FreeItemsOf` promises only the multiset of its result. `Scenarios.StandardFreeItems` is the lemma that states the order under the test rules.

## Notes on the code

- The KDoc at Discount.kt:11 calls `percentage` "the percentage to remove from the price". PricingRule.kt:37 applies it as a fraction (`1 − percentage`), so 0.1 takes off a tenth, not a figure from 0 to 100.
- Nothing stops a flat discount from exceeding the list price; the unit price then goes negative (PricingRule.kt:38).

## Model

| member | source | states |
|---|---|---|
| `Decimals.SetScale2Down` | src/main/kotlin/com/rjf/dius/shopping/Checkout.kt:30 | the result is whole cents, lies between zero and the input, and is less than one cent away from it |
| `Decimals.FloorCents` | src/main/kotlin/com/rjf/dius/shopping/Checkout.kt:30 | for a non-negative amount: whole cents, not above the amount, less than a cent below it |
| `Decimals.SetScale2DownIsGreatest` | src/main/kotlin/com/rjf/dius/shopping/Checkout.kt:30 | for a non-negative amount, truncation gives the largest whole-cents value not above it |
| `Decimals.SetScale2DownOfWholeCents` | src/main/kotlin/com/rjf/dius/shopping/Checkout.kt:30 | an amount already in whole cents is unchanged |
| `Decimals.SetScale2DownMonotone` | src/main/kotlin/com/rjf/dius/shopping/Checkout.kt:30 | truncation preserves order on non-negative amounts |
| `Decimals.WholeCentsAdd` | src/main/kotlin/com/rjf/dius/shopping/Checkout.kt:30 | a sum of whole-cents amounts is whole cents |
| `Decimals.WholeCentsNeg` | src/main/kotlin/com/rjf/dius/shopping/Checkout.kt:30 | the negation of a whole-cents amount is whole cents |
| `Items.Price` | src/main/kotlin/com/rjf/dius/shopping/model/Item.kt:10-14 | every item has exactly one list price, which is positive and whole cents |
| `Items.Sku` | src/main/kotlin/com/rjf/dius/shopping/model/Item.kt:10-14 | every item has a three-letter SKU |
| `Items.SkusAreDistinct` | src/main/kotlin/com/rjf/dius/shopping/model/Item.kt:11-14 | equal SKUs mean the same item |
| `Items.CatalogueIsExactlyFourItems` | src/main/kotlin/com/rjf/dius/shopping/model/Item.kt:10-15 | the catalogue has exactly four distinct entries, and every item is one of them |
| `PricingRules.PricingRule.PricePerUnit` | src/main/kotlin/com/rjf/dius/shopping/model/PricingRule.kt:36-39 | the exhaustive match over the discount kinds: a percentage removes that fraction of the list price, a flat discount removes exactly its amount |
| `PricingRules.BundleDealWithDefaultMin` | src/main/kotlin/com/rjf/dius/shopping/model/PricingRule.kt:24 | a bundle deal without an explicit `min` has `min` 1 |
| `PricingRules.PricePerUnitNeutralAndFull` | src/main/kotlin/com/rjf/dius/shopping/model/PricingRule.kt:37-38 | a 0 percentage or 0 amount keeps the list price, and a percentage of 1 makes the unit free |
| `PricingRules.PricePerUnitAtMostListPrice` | src/main/kotlin/com/rjf/dius/shopping/model/PricingRule.kt:36-39 | a non-negative discount never raises the unit price above the list price |
| `PricingRules.PricePerUnitNotClamped` | src/main/kotlin/com/rjf/dius/shopping/model/PricingRule.kt:37-38 | an amount above the list price, or a percentage above 1, gives a negative unit price |
| `PricingRules.PricePerUnitIgnoresMin` | src/main/kotlin/com/rjf/dius/shopping/model/PricingRule.kt:29-38 | the unit price does not depend on the threshold `min` |
| `Baskets.ListSum` | src/main/kotlin/com/rjf/dius/shopping/Checkout.kt:30 | the fold of list prices is non-negative; its value is pinned by `ListSumIsCountedPrice` and `ListSumAppend` |
| `Baskets.TotalOf` | src/main/kotlin/com/rjf/dius/shopping/Checkout.kt:30 | the total is whole cents, not above the list-price sum, and less than a cent below it |
| `Baskets.ItemCount` | src/test/kotlin/com/rjf/dius/shopping/CheckoutTests.kt:53-67 | a count never exceeds the number of scanned units |
| `Baskets.ItemCountIsMultiplicity` | src/test/kotlin/com/rjf/dius/shopping/CheckoutTests.kt:53-67 | `itemCount(i)` is the multiplicity of `i` among the scanned items, and 0 when `i` is absent |
| `Baskets.ItemCounts` | src/test/kotlin/com/rjf/dius/shopping/CheckoutTests.kt:75-90 | an item has an entry exactly when its count is positive, and the entry is its count |
| `Baskets.ItemCountPositiveIffPresent` | src/test/kotlin/com/rjf/dius/shopping/CheckoutTests.kt:75-90 | the count is positive exactly when the item was scanned |
| `Baskets.ItemCountAppend` | src/main/kotlin/com/rjf/dius/shopping/Checkout.kt:24 | counts add up over two scans |
| `Baskets.ListSumAppend` | src/main/kotlin/com/rjf/dius/shopping/Checkout.kt:24-30 | the list-price sum after a further scan is the old sum plus the sum of the new items |
| `Baskets.CountedPriceSnoc` | src/main/kotlin/com/rjf/dius/shopping/Checkout.kt:30 | one more unit adds its list price to the count-weighted price |
| `Baskets.ListSumIsCountedPrice` | src/main/kotlin/com/rjf/dius/shopping/Checkout.kt:30 | the fold equals each item's count times its list price, summed over the catalogue |
| `Baskets.TotalIgnoresScanOrder` | src/main/kotlin/com/rjf/dius/shopping/Checkout.kt:30 | two baskets holding the same multiset of items have the same total |
| `Baskets.TotalIsListSum` | src/main/kotlin/com/rjf/dius/shopping/Checkout.kt:30 | with whole-cents catalogue prices, truncation removes nothing, so the total equals the list-price sum |
| `Baskets.TotalOfEmptyBasket` | src/main/kotlin/com/rjf/dius/shopping/Checkout.kt:19-30 | a basket with nothing scanned totals 0 |
| `Baskets.TotalGrowsWithScan` | src/main/kotlin/com/rjf/dius/shopping/Checkout.kt:24-30 | scanning more items raises the total by exactly their list prices, so the total never decreases |
| `FreeItems.Repeat` | src/test/kotlin/com/rjf/dius/shopping/CheckoutTests.kt:99-102 | `n` copies of one item: length `n`, and no other item |
| `FreeItems.IncludedUnits` | src/test/kotlin/com/rjf/dius/shopping/CheckoutTests.kt:112-121 | a pay-for-X-receive-Y rule frees `receive` units per complete group of `payFor` (the number of groups `g` satisfies `g * payFor <= count < (g + 1) * payFor`), so nothing below `payFor` units |
| `FreeItems.BundledUnits` | src/test/kotlin/com/rjf/dius/shopping/CheckoutTests.kt:97-104 | a bundle deal frees one bundled unit per complete group of `min` purchased units |
| `FreeItems.IncludedItems` | src/test/kotlin/com/rjf/dius/shopping/CheckoutTests.kt:112-121 | every included unit is the item of some pay-for-X-receive-Y rule |
| `FreeItems.BundledItems` | src/test/kotlin/com/rjf/dius/shopping/CheckoutTests.kt:97-104 | every bundled unit is the bundled item of some bundle deal |
| `FreeItems.FreeItemsOf` | src/test/kotlin/com/rjf/dius/shopping/CheckoutTests.kt:129-136 | the free units are exactly the included units and the bundled units together |
| `FreeItems.ItemCountRepeat` | src/test/kotlin/com/rjf/dius/shopping/CheckoutTests.kt:99-102 | `n` copies of an item count `n` for it and 0 for every other item |
| `FreeItems.IncludedItemsCount` | src/test/kotlin/com/rjf/dius/shopping/CheckoutTests.kt:112-121 | each item occurs in `includedItems` as often as the sum of `(count / payFor) * receive` over its rules |
| `FreeItems.BundledItemsCount` | src/test/kotlin/com/rjf/dius/shopping/CheckoutTests.kt:97-104 | each item occurs in `bundledItems` as often as the sum of `count(purchased) / min` over the deals that bundle it, whether or not it was scanned |
| `FreeItems.FreeItemsCount` | src/test/kotlin/com/rjf/dius/shopping/CheckoutTests.kt:129-136 | the free units of both rule kinds are pooled: an item's free count is its included count plus its bundled count |
| `FreeItems.FreeItemsIgnoreScanOrder` | src/test/kotlin/com/rjf/dius/shopping/CheckoutTests.kt:129-136 | the free units depend only on the multiset of scanned items |
| `FreeItems.IncludedItemsSameCounts` | src/test/kotlin/com/rjf/dius/shopping/CheckoutTests.kt:112-121 | baskets with equal counts have equal `includedItems` |
| `FreeItems.BundledItemsSameCounts` | src/test/kotlin/com/rjf/dius/shopping/CheckoutTests.kt:97-104 | baskets with equal counts have equal `bundledItems` |
| `Shopping.Checkout.constructor` | src/main/kotlin/com/rjf/dius/shopping/Checkout.kt:18-19 | a new checkout keeps the given rules and has an empty basket |
| `Shopping.Checkout.Scan` | src/main/kotlin/com/rjf/dius/shopping/Checkout.kt:24 | the new items are appended in argument order, earlier items stay, the basket grows by their number, and the answer says whether the basket changed |
| `Shopping.Checkout.Total` | src/main/kotlin/com/rjf/dius/shopping/Checkout.kt:30 | the fold loop returns the truncated list-price sum without changing the basket or reading the rules |
| `Scenarios.StandardCheckoutWith` | src/test/kotlin/com/rjf/dius/shopping/CheckoutTests.kt:18-24 | a checkout with the test rules that has scanned the given items |
| `Scenarios.StandardBulkUnitPrice` | src/test/kotlin/com/rjf/dius/shopping/CheckoutTests.kt:22 | the test bulk discount (Super iPad, min 4, flat 50) prices a unit at 499.99 |
| `Scenarios.StandardIncludedItems` | src/test/kotlin/com/rjf/dius/shopping/CheckoutTests.kt:21 | under the test rules, `includedItems` is one Apple TV per complete group of three |
| `Scenarios.StandardBundledItems` | src/test/kotlin/com/rjf/dius/shopping/CheckoutTests.kt:20 | under the test rules, `bundledItems` is one VGA adapter per Macbook Pro |
| `Scenarios.StandardFreeItems` | src/test/kotlin/com/rjf/dius/shopping/CheckoutTests.kt:20-21 | under the test rules, `freeItems` is the included Apple TVs followed by the bundled adapters |
| `Scenarios.IncludedItemsOfAppleTvs` | src/test/kotlin/com/rjf/dius/shopping/CheckoutTests.kt:112-121 | `n` Apple TVs give `n / 3` free Apple TVs |
| `Scenarios.IncludedItemsRows` | src/test/kotlin/com/rjf/dius/shopping/CheckoutTests.kt:114-119 | 1 or 2 Apple TVs give none free, 3 to 5 give one, 6 give two |
| `Scenarios.BundledItemsRows` | src/test/kotlin/com/rjf/dius/shopping/CheckoutTests.kt:99-102 | the four `bundledItems` rows |
| `Scenarios.MixedBasketCounts` | src/test/kotlin/com/rjf/dius/shopping/CheckoutTests.kt:60 | the mixed basket counts 2, 3, 4 and 5 |
| `Scenarios.ItemCountRows` | src/test/kotlin/com/rjf/dius/shopping/CheckoutTests.kt:55-66 | the `itemCount` rows: empty, single scans and the mixed basket |
| `Scenarios.ItemCountsRowsSingle` | src/test/kotlin/com/rjf/dius/shopping/CheckoutTests.kt:77-81 | the `itemCounts` rows for the empty basket and single scans, with zero counts left out |
| `Scenarios.ItemCountsOfFullBasket` | src/test/kotlin/com/rjf/dius/shopping/CheckoutTests.kt:84-89 | a basket holding every item maps each item to its count |
| `Scenarios.ItemCountsRowMixed` | src/test/kotlin/com/rjf/dius/shopping/CheckoutTests.kt:82 | the `itemCounts` row for the mixed basket |
| `Scenarios.FreeItemsRowMacbooksAndTvs` | src/test/kotlin/com/rjf/dius/shopping/CheckoutTests.kt:131 | 2 Macbook Pros and 2 Apple TVs free two adapters, in any order |
| `Scenarios.FreeItemsRowSixTvs` | src/test/kotlin/com/rjf/dius/shopping/CheckoutTests.kt:132 | 6 Apple TVs free two Apple TVs |
| `Scenarios.FreeItemsRowMacbooksAndAdapters` | src/test/kotlin/com/rjf/dius/shopping/CheckoutTests.kt:133 | 3 Macbook Pros and 2 adapters free three adapters |
| `Scenarios.FreeItemsRowAllThree` | src/test/kotlin/com/rjf/dius/shopping/CheckoutTests.kt:134 | 3 Macbook Pros, 2 adapters and 6 Apple TVs free three adapters and two Apple TVs, in any order |
| `Scenarios.TotalRows` | src/test/kotlin/com/rjf/dius/shopping/CheckoutTests.kt:41-46 | Apple TV×2 + VGA totals 249.00, and Macbook Pro + Super iPad totals 1949.98 |
| `Scenarios.TotalRowsIgnoringRules` | src/test/kotlin/com/rjf/dius/shopping/CheckoutTests.kt:32-40 | the code's totals for the three baskets whose expected totals assume the rules are applied: 358.50, 2968.95 and 1979.98 |
| `Scenarios.FreshCheckoutTotal` | src/main/kotlin/com/rjf/dius/shopping/Checkout.kt:18-30 | a new checkout, whatever its rules, totals 0 through the class's `Total` |
| `Scenarios.CheckoutTotals` | src/test/kotlin/com/rjf/dius/shopping/CheckoutTests.kt:41-46 | checkouts built, scanned and totalled through the class give 249.00 and 1949.98 |

## Left out

- Item prices are built in the code as `BigDecimal(double)`, which holds the binary floating-point expansion. The model uses the exact decimal prices. Two prices are exact (109.50 and 30.00); the other two (549.99 and 1399.99) lie above their literals by under 1e-14. A JVM list holds fewer than 2^31 units, so the accumulated excess stays below a cent, and `setScale(2, DOWN)` gives the same totals as exact prices. Unit prices are not truncated (PricingRule.kt:37-38), so in the code a Super iPad or Macbook Pro unit price keeps this excess: the test bulk rule gives 499.99 plus about 9.09e-15, where `Scenarios.StandardBulkUnitPrice` states the exact-price value 499.99.
- BigDecimal scale is not modelled. Amounts are compared by value only.
- The `items` property is a public `var`, so callers can replace or mutate the list. The model changes it only through `Scan`.
- `pricingRules` is a caller-supplied `MutableList` that the caller could mutate after construction. The model stores an immutable `seq`.
- `payFor`, `receive`, `min` and the counts are Kotlin `Int` (32-bit). The model uses unbounded integers, so overflow of `count / payFor * receive` is not modelled.
- `FreeItems.IncludedItems` requires every pay-for-X-receive-Y rule to have `payFor > 0` and `receive >= 0`. No code for this query exists in Checkout.kt, so what it does for other rules (a division by zero, a negative number of copies) cannot be known.
- `FreeItems.BundledItems` requires every bundle deal to have `min > 0`, for the same reason.
- `FreeItems.FreeItemsOf` requires both of these conditions, for the same reason.
- `FreeItems.IncludedUnits` and `FreeItems.BundledUnits` require a positive divisor, for the same reason.
- A total that applies the rules, as the tests at CheckoutTests.kt:33, :36 and :39 expect, is not modelled, because Checkout.kt:30 does not compute one.
