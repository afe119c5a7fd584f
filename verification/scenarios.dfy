/** The checkout configuration the tests use and the results they pin down
    (CheckoutTests.kt), stated over the model. */
module Scenarios {
  import opened Items
  import opened Discounts
  import opened PricingRules
  import opened Baskets
  import opened FreeItems
  import opened Shopping

  /** A Macbook Pro bundles a free VGA adapter, every three Apple TVs bring one
      more free, and four or more Super iPads cost 50 less each. */
  const StandardRules: seq<PricingRule> := [
    BundleDeal(MacbookPro, 1, VgaAdapter),
    PayForXReceiveY(AppleTV, 3, 1),
    BulkDiscount(SuperIPad, 4, FlatDiscount(50.0))
  ]

  /** A checkout with the standard rules that has scanned `items`. */
  method StandardCheckoutWith(items: seq<Item>) returns (c: Checkout)
    ensures fresh(c)
    ensures c.pricingRules == StandardRules && c.items == items
  {
    c := new Checkout(StandardRules);
    var _ := c.Scan(items);
  }

  /** The standard bulk discount prices a Super iPad at 499.99. */
  lemma StandardBulkUnitPrice()
    ensures StandardRules[2].PricePerUnit() == 499.99
  {
  }

  /** Under the standard rules one Apple TV is free per complete group of three. */
  lemma {:induction false} StandardIncludedItems(items: seq<Item>)
    ensures WellFormed(StandardRules)
    ensures IncludedItems(items, StandardRules) == Repeat(AppleTV, ItemCount(items, AppleTV) / 3)
  {
    var r := StandardRules;
    var free := Repeat(AppleTV, ItemCount(items, AppleTV) / 3);
    assert r[1..][1..] == [r[2]] && r[1..][1..][1..] == [];
    assert IncludedItems(items, r[1..][1..]) == [];
    assert IncludedItems(items, r[1..]) == free + [];
    assert free + [] == free;
  }

  /** Under the standard rules every Macbook Pro brings one VGA adapter,
      whether or not an adapter was scanned. */
  lemma {:induction false} StandardBundledItems(items: seq<Item>)
    ensures WellFormed(StandardRules)
    ensures BundledItems(items, StandardRules) == Repeat(VgaAdapter, ItemCount(items, MacbookPro))
  {
    var r := StandardRules;
    var free := Repeat(VgaAdapter, ItemCount(items, MacbookPro));
    assert r[1..][1..] == [r[2]] && r[1..][1..][1..] == [];
    assert BundledItems(items, r[1..][1..]) == [];
    assert BundledItems(items, r[1..]) == [];
    assert BundledItems(items, r) == free + [];
    assert free + [] == free;
  }

  /** Apple TVs alone: one free per three scanned. */
  lemma {:induction false} IncludedItemsOfAppleTvs(n: nat)
    ensures WellFormed(StandardRules)
    ensures IncludedItems(Repeat(AppleTV, n), StandardRules) == Repeat(AppleTV, n / 3)
  {
    StandardIncludedItems(Repeat(AppleTV, n));
    ItemCountRepeat(AppleTV, n, AppleTV);
  }

  /** The includedItems table: 1-2 Apple TVs give none, 3-5 give one, 6 give two. */
  lemma IncludedItemsRows()
    ensures WellFormed(StandardRules)
    ensures IncludedItems(Repeat(AppleTV, 1), StandardRules) == []
    ensures IncludedItems(Repeat(AppleTV, 2), StandardRules) == []
    ensures IncludedItems(Repeat(AppleTV, 3), StandardRules) == [AppleTV]
    ensures IncludedItems(Repeat(AppleTV, 4), StandardRules) == [AppleTV]
    ensures IncludedItems(Repeat(AppleTV, 5), StandardRules) == [AppleTV]
    ensures IncludedItems(Repeat(AppleTV, 6), StandardRules) == [AppleTV, AppleTV]
  {
    IncludedItemsOfAppleTvs(1);
    IncludedItemsOfAppleTvs(2);
    IncludedItemsOfAppleTvs(3);
    IncludedItemsOfAppleTvs(4);
    IncludedItemsOfAppleTvs(5);
    IncludedItemsOfAppleTvs(6);
  }

  /** The bundledItems table: one adapter per Macbook Pro, none without one. */
  lemma BundledItemsRows()
    ensures WellFormed(StandardRules)
    ensures BundledItems([VgaAdapter], StandardRules) == []
    ensures BundledItems([MacbookPro, VgaAdapter], StandardRules) == [VgaAdapter]
    ensures BundledItems([MacbookPro, MacbookPro, VgaAdapter], StandardRules) == [VgaAdapter, VgaAdapter]
    ensures BundledItems([MacbookPro, MacbookPro, VgaAdapter, VgaAdapter], StandardRules) == [VgaAdapter, VgaAdapter]
  {
    StandardBundledItems([VgaAdapter]);
    StandardBundledItems([MacbookPro, VgaAdapter]);
    StandardBundledItems([MacbookPro, MacbookPro, VgaAdapter]);
    StandardBundledItems([MacbookPro, MacbookPro, VgaAdapter, VgaAdapter]);
  }

  /** Under the standard rules the free units are the included Apple TVs followed
      by the bundled VGA adapters. */
  lemma StandardFreeItems(items: seq<Item>)
    ensures WellFormed(StandardRules)
    ensures FreeItemsOf(items, StandardRules)
         == Repeat(AppleTV, ItemCount(items, AppleTV) / 3) + Repeat(VgaAdapter, ItemCount(items, MacbookPro))
  {
    StandardIncludedItems(items);
    StandardBundledItems(items);
  }

  /** The counts of a basket scanned as two runs of equal items. */
  lemma CountsOfTwoRuns(x: Item, m: nat, y: Item, n: nat, i: Item)
    ensures ItemCount(Repeat(x, m) + Repeat(y, n), i) == (if i == x then m else 0) + (if i == y then n else 0)
  {
    ItemCountAppend(Repeat(x, m), Repeat(y, n), i);
    ItemCountRepeat(x, m, i);
    ItemCountRepeat(y, n, i);
  }

  /** The counts of a basket scanned as three runs of equal items. */
  lemma CountsOfThreeRuns(x: Item, m: nat, y: Item, n: nat, z: Item, k: nat, i: Item)
    ensures ItemCount(Repeat(x, m) + Repeat(y, n) + Repeat(z, k), i)
         == (if i == x then m else 0) + (if i == y then n else 0) + (if i == z then k else 0)
  {
    CountsOfTwoRuns(x, m, y, n, i);
    ItemCountAppend(Repeat(x, m) + Repeat(y, n), Repeat(z, k), i);
    ItemCountRepeat(z, k, i);
  }

  /** The basket of 2 Super iPads, 3 Macbook Pros, 4 Apple TVs and 5 VGA adapters. */
  function MixedBasket(): seq<Item>
  {
    Repeat(SuperIPad, 2) + Repeat(MacbookPro, 3) + Repeat(AppleTV, 4) + Repeat(VgaAdapter, 5)
  }

  /** The counts of the mixed basket, item by item. */
  lemma MixedBasketCounts(i: Item)
    ensures ItemCount(MixedBasket(), i)
         == match i case SuperIPad => 2 case MacbookPro => 3 case AppleTV => 4 case VgaAdapter => 5
  {
    CountsOfThreeRuns(SuperIPad, 2, MacbookPro, 3, AppleTV, 4, i);
    ItemCountAppend(Repeat(SuperIPad, 2) + Repeat(MacbookPro, 3) + Repeat(AppleTV, 4), Repeat(VgaAdapter, 5), i);
    ItemCountRepeat(VgaAdapter, 5, i);
  }

  /** The itemCount table: a single scan counts one for its item and zero for
      the others; the mixed basket counts 2, 3, 4 and 5. */
  lemma ItemCountRows(i: Item)
    ensures ItemCount([], i) == 0
    ensures ItemCount([i], i) == 1
    ensures forall j :: j != i ==> ItemCount([j], i) == 0
    ensures ItemCount(MixedBasket(), SuperIPad) == 2
    ensures ItemCount(MixedBasket(), MacbookPro) == 3
    ensures ItemCount(MixedBasket(), AppleTV) == 4
    ensures ItemCount(MixedBasket(), VgaAdapter) == 5
  {
    MixedBasketCounts(SuperIPad);
    MixedBasketCounts(MacbookPro);
    MixedBasketCounts(AppleTV);
    MixedBasketCounts(VgaAdapter);
  }

  /** The itemCounts table, empty and single scans: items not scanned have no entry. */
  lemma ItemCountsRowsSingle(i: Item)
    ensures ItemCounts([]) == map[]
    ensures ItemCounts([i]) == map[i := 1]
  {
  }

  /** A basket holding every item has an itemCounts entry for each, with its count. */
  lemma ItemCountsOfFullBasket(items: seq<Item>, ipads: nat, macbooks: nat, tvs: nat, adapters: nat)
    requires 0 < ipads && 0 < macbooks && 0 < tvs && 0 < adapters
    requires ItemCount(items, SuperIPad) == ipads && ItemCount(items, MacbookPro) == macbooks
    requires ItemCount(items, AppleTV) == tvs && ItemCount(items, VgaAdapter) == adapters
    ensures ItemCounts(items) == map[SuperIPad := ipads, MacbookPro := macbooks, AppleTV := tvs, VgaAdapter := adapters]
  {
  }

  /** The itemCounts table, the mixed basket: every item with its count. */
  lemma ItemCountsRowMixed()
    ensures ItemCounts(MixedBasket()) == map[SuperIPad := 2, MacbookPro := 3, AppleTV := 4, VgaAdapter := 5]
  {
    MixedBasketCounts(SuperIPad);
    MixedBasketCounts(MacbookPro);
    MixedBasketCounts(AppleTV);
    MixedBasketCounts(VgaAdapter);
    ItemCountsOfFullBasket(MixedBasket(), 2, 3, 4, 5);
  }

  /** freeItems, 2 Macbook Pros and 2 Apple TVs: two adapters and no Apple TV. */
  lemma FreeItemsRowMacbooksAndTvs()
    ensures WellFormed(StandardRules)
    ensures multiset(FreeItemsOf(Repeat(MacbookPro, 2) + Repeat(AppleTV, 2), StandardRules))
         == multiset(Repeat(VgaAdapter, 2))
  {
    var b := Repeat(MacbookPro, 2) + Repeat(AppleTV, 2);
    StandardFreeItems(b);
    CountsOfTwoRuns(MacbookPro, 2, AppleTV, 2, AppleTV);
    CountsOfTwoRuns(MacbookPro, 2, AppleTV, 2, MacbookPro);
    assert FreeItemsOf(b, StandardRules) == [] + Repeat(VgaAdapter, 2);
  }

  /** freeItems, 6 Apple TVs: two Apple TVs. */
  lemma FreeItemsRowSixTvs()
    ensures WellFormed(StandardRules)
    ensures multiset(FreeItemsOf(Repeat(AppleTV, 6), StandardRules)) == multiset(Repeat(AppleTV, 2))
  {
    var b := Repeat(AppleTV, 6);
    StandardFreeItems(b);
    ItemCountRepeat(AppleTV, 6, AppleTV);
    ItemCountRepeat(AppleTV, 6, MacbookPro);
    assert FreeItemsOf(b, StandardRules) == Repeat(AppleTV, 2) + [];
  }

  /** freeItems, 3 Macbook Pros and 2 adapters: three adapters, more than were scanned. */
  lemma FreeItemsRowMacbooksAndAdapters()
    ensures WellFormed(StandardRules)
    ensures multiset(FreeItemsOf(Repeat(MacbookPro, 3) + Repeat(VgaAdapter, 2), StandardRules))
         == multiset(Repeat(VgaAdapter, 3))
  {
    var b := Repeat(MacbookPro, 3) + Repeat(VgaAdapter, 2);
    StandardFreeItems(b);
    CountsOfTwoRuns(MacbookPro, 3, VgaAdapter, 2, AppleTV);
    CountsOfTwoRuns(MacbookPro, 3, VgaAdapter, 2, MacbookPro);
    assert FreeItemsOf(b, StandardRules) == [] + Repeat(VgaAdapter, 3);
  }

  /** freeItems, 3 Macbook Pros, 2 adapters and 6 Apple TVs: three adapters and
      two Apple TVs, in any order. */
  lemma FreeItemsRowAllThree()
    ensures WellFormed(StandardRules)
    ensures multiset(FreeItemsOf(Repeat(MacbookPro, 3) + Repeat(VgaAdapter, 2) + Repeat(AppleTV, 6), StandardRules))
         == multiset(Repeat(VgaAdapter, 3) + Repeat(AppleTV, 2))
  {
    var b := Repeat(MacbookPro, 3) + Repeat(VgaAdapter, 2) + Repeat(AppleTV, 6);
    StandardFreeItems(b);
    CountsOfThreeRuns(MacbookPro, 3, VgaAdapter, 2, AppleTV, 6, AppleTV);
    CountsOfThreeRuns(MacbookPro, 3, VgaAdapter, 2, AppleTV, 6, MacbookPro);
    assert FreeItemsOf(b, StandardRules) == Repeat(AppleTV, 2) + Repeat(VgaAdapter, 3);
  }

  /** The totals the code computes for the baskets whose expected totals hold:
      two Apple TVs and an adapter (the unused 3-for-2), and a Macbook Pro with a
      Super iPad (the unused bundle). */
  lemma TotalRows()
    ensures TotalOf([AppleTV, AppleTV, VgaAdapter]) == 249.00
    ensures TotalOf([MacbookPro, SuperIPad]) == 1949.98
  {
    TotalIsListSum([AppleTV, AppleTV, VgaAdapter]);
    TotalIsListSum([MacbookPro, SuperIPad]);
  }

  /** The totals the code computes where the expected totals assume the rules
      are applied: the list-price sums, not 249.00, 2718.95 and 1949.98. */
  lemma TotalRowsIgnoringRules()
    ensures TotalOf([AppleTV, AppleTV, AppleTV, VgaAdapter]) == 358.50
    ensures TotalOf([AppleTV, SuperIPad, SuperIPad, AppleTV, SuperIPad, SuperIPad, SuperIPad]) == 2968.95
    ensures TotalOf([MacbookPro, VgaAdapter, SuperIPad]) == 1979.98
  {
    var tvs := [AppleTV, AppleTV, AppleTV, VgaAdapter];
    ListSumAppend([AppleTV, AppleTV], [AppleTV, VgaAdapter]);
    assert tvs == [AppleTV, AppleTV] + [AppleTV, VgaAdapter];
    TotalIsListSum(tvs);

    var ipads := [AppleTV, SuperIPad, SuperIPad, AppleTV, SuperIPad, SuperIPad, SuperIPad];
    ListSumAppend([AppleTV, SuperIPad], [SuperIPad, AppleTV]);
    ListSumAppend([SuperIPad, SuperIPad], [SuperIPad]);
    ListSumAppend([AppleTV, SuperIPad] + [SuperIPad, AppleTV], [SuperIPad, SuperIPad] + [SuperIPad]);
    assert ipads == ([AppleTV, SuperIPad] + [SuperIPad, AppleTV]) + ([SuperIPad, SuperIPad] + [SuperIPad]);
    TotalIsListSum(ipads);

    TotalIsListSum([MacbookPro, VgaAdapter, SuperIPad]);
  }

  /** A checkout that has scanned nothing totals 0, whatever its rules. */
  method FreshCheckoutTotal(rules: seq<PricingRule>) returns (t: real)
    ensures t == 0.0
  {
    var c := new Checkout(rules);
    TotalOfEmptyBasket();
    t := c.Total();
  }

  /** Checkouts built and scanned as the tests do, then totalled. */
  method CheckoutTotals() returns (tvsAndAdapter: real, macbookAndIpad: real)
    ensures tvsAndAdapter == 249.00
    ensures macbookAndIpad == 1949.98
  {
    TotalRows();
    var c := new Checkout(StandardRules);
    var _ := c.Scan([AppleTV, AppleTV]);
    var _ := c.Scan([VgaAdapter]);
    assert c.items == [AppleTV, AppleTV, VgaAdapter];
    tvsAndAdapter := c.Total();
    var d := StandardCheckoutWith([MacbookPro, SuperIPad]);
    macbookAndIpad := d.Total();
  }
}
