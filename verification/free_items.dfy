/** The free units the pricing rules grant for a basket: `includedItems`,
    `bundledItems` and `freeItems`, the checkout queries the tests pin down
    (CheckoutTests.kt). They are pure functions of the scanned items and the
    rules, taken in rule order. */
module FreeItems {
  import opened Items
  import opened PricingRules
  import opened Baskets

  /** `n` copies of `item`. */
  function Repeat(item: Item, n: nat): (r: seq<Item>)
    ensures |r| == n
    ensures forall x :: x in r ==> x == item
  {
    if n == 0 then [] else [item] + Repeat(item, n - 1)
  }

  /** Pay-for-X-receive-Y rules that can be divided by and repeated: a positive
      `payFor` and a non-negative `receive`. */
  predicate IncludedRulesWellFormed(rules: seq<PricingRule>)
  {
    forall rule :: rule in rules && rule.PayForXReceiveY? ==> rule.payFor > 0 && rule.receive >= 0
  }

  /** Bundle deals that can be divided by: a positive `min`. */
  predicate BundledRulesWellFormed(rules: seq<PricingRule>)
  {
    forall rule :: rule in rules && rule.BundleDeal? ==> rule.min > 0
  }

  /** Both kinds of free-unit rule are well formed. */
  predicate WellFormed(rules: seq<PricingRule>)
  {
    IncludedRulesWellFormed(rules) && BundledRulesWellFormed(rules)
  }

  /** Free units of a pay-for-X-receive-Y rule: `receive` for each complete group of `payFor`. */
  function IncludedUnits(rule: PricingRule, items: seq<Item>): (n: nat)
    requires rule.PayForXReceiveY? && rule.payFor > 0 && rule.receive >= 0
    ensures exists groups: nat ::
      groups * rule.payFor <= ItemCount(items, rule.item) < (groups + 1) * rule.payFor && n == groups * rule.receive
    ensures ItemCount(items, rule.item) < rule.payFor ==> n == 0
  {
    var groups := ItemCount(items, rule.item) / rule.payFor;
    assert groups * rule.payFor <= ItemCount(items, rule.item) < (groups + 1) * rule.payFor;
    groups * rule.receive
  }

  /** Free units of a bundle deal: one `bundled` per complete group of `min` purchased. */
  function BundledUnits(rule: PricingRule, items: seq<Item>): (n: nat)
    requires rule.BundleDeal? && rule.min > 0
    ensures n * rule.min <= ItemCount(items, rule.purchased) < (n + 1) * rule.min
  {
    ItemCount(items, rule.purchased) / rule.min
  }

  /** includedItems: for each pay-for-X-receive-Y rule in order, its free units of its item. */
  function IncludedItems(items: seq<Item>, rules: seq<PricingRule>): (r: seq<Item>)
    requires IncludedRulesWellFormed(rules)
    ensures forall x :: x in r ==> exists rule :: rule in rules && rule.PayForXReceiveY? && rule.item == x
  {
    if rules == [] then []
    else
      var rest := IncludedItems(items, rules[1..]);
      match rules[0]
      case PayForXReceiveY(item, _, _) => Repeat(item, IncludedUnits(rules[0], items)) + rest
      case _ => rest
  }

  /** bundledItems: for each bundle deal in order, its free units of the bundled item. */
  function BundledItems(items: seq<Item>, rules: seq<PricingRule>): (r: seq<Item>)
    requires BundledRulesWellFormed(rules)
    ensures forall x :: x in r ==> exists rule :: rule in rules && rule.BundleDeal? && rule.bundled == x
  {
    if rules == [] then []
    else
      var rest := BundledItems(items, rules[1..]);
      match rules[0]
      case BundleDeal(_, _, bundled) => Repeat(bundled, BundledUnits(rules[0], items)) + rest
      case _ => rest
  }

  /** freeItems: the included free units followed by the bundled ones. */
  function FreeItemsOf(items: seq<Item>, rules: seq<PricingRule>): (r: seq<Item>)
    requires WellFormed(rules)
    ensures |r| == |IncludedItems(items, rules)| + |BundledItems(items, rules)|
    ensures multiset(r) == multiset(IncludedItems(items, rules)) + multiset(BundledItems(items, rules))
  {
    IncludedItems(items, rules) + BundledItems(items, rules)
  }

  /** The free units of `item` summed over every pay-for-X-receive-Y rule for it. */
  function IncludedUnitsOf(items: seq<Item>, rules: seq<PricingRule>, item: Item): nat
    requires IncludedRulesWellFormed(rules)
  {
    if rules == [] then 0
    else
      (if rules[0].PayForXReceiveY? && rules[0].item == item then IncludedUnits(rules[0], items) else 0)
      + IncludedUnitsOf(items, rules[1..], item)
  }

  /** The free units of `item` summed over every bundle deal that bundles it. */
  function BundledUnitsOf(items: seq<Item>, rules: seq<PricingRule>, item: Item): nat
    requires BundledRulesWellFormed(rules)
  {
    if rules == [] then 0
    else
      (if rules[0].BundleDeal? && rules[0].bundled == item then BundledUnits(rules[0], items) else 0)
      + BundledUnitsOf(items, rules[1..], item)
  }

  /** `n` copies of `item` count `n` for it and nothing for any other item. */
  lemma {:induction false} ItemCountRepeat(item: Item, n: nat, other: Item)
    ensures ItemCount(Repeat(item, n), other) == if other == item then n else 0
  {
    if n > 0 {
      ItemCountRepeat(item, n - 1, other);
      assert Repeat(item, n)[1..] == Repeat(item, n - 1);
    }
  }

  /** includedItems holds, of each item, the free units all its pay-for-X-receive-Y rules grant. */
  lemma {:induction false} IncludedItemsCount(items: seq<Item>, rules: seq<PricingRule>, item: Item)
    requires IncludedRulesWellFormed(rules)
    ensures ItemCount(IncludedItems(items, rules), item) == IncludedUnitsOf(items, rules, item)
  {
    if rules != [] {
      IncludedItemsCount(items, rules[1..], item);
      var rest := IncludedItems(items, rules[1..]);
      if rules[0].PayForXReceiveY? {
        var n := IncludedUnits(rules[0], items);
        ItemCountAppend(Repeat(rules[0].item, n), rest, item);
        ItemCountRepeat(rules[0].item, n, item);
      }
    }
  }

  /** bundledItems holds, of each item, the free units all bundle deals for it grant,
      whether or not any unit of it was scanned. */
  lemma {:induction false} BundledItemsCount(items: seq<Item>, rules: seq<PricingRule>, item: Item)
    requires BundledRulesWellFormed(rules)
    ensures ItemCount(BundledItems(items, rules), item) == BundledUnitsOf(items, rules, item)
  {
    if rules != [] {
      BundledItemsCount(items, rules[1..], item);
      var rest := BundledItems(items, rules[1..]);
      if rules[0].BundleDeal? {
        var n := BundledUnits(rules[0], items);
        ItemCountAppend(Repeat(rules[0].bundled, n), rest, item);
        ItemCountRepeat(rules[0].bundled, n, item);
      }
    }
  }

  /** Free units from both rule kinds are pooled: an item freed by a
      pay-for-X-receive-Y rule and by a bundle deal counts both. */
  lemma FreeItemsCount(items: seq<Item>, rules: seq<PricingRule>, item: Item)
    requires WellFormed(rules)
    ensures ItemCount(FreeItemsOf(items, rules), item)
         == IncludedUnitsOf(items, rules, item) + BundledUnitsOf(items, rules, item)
  {
    IncludedItemsCount(items, rules, item);
    BundledItemsCount(items, rules, item);
    ItemCountAppend(IncludedItems(items, rules), BundledItems(items, rules), item);
  }

  /** The free units depend only on how often each item was scanned, not on scan order. */
  lemma FreeItemsIgnoreScanOrder(a: seq<Item>, b: seq<Item>, rules: seq<PricingRule>)
    requires WellFormed(rules)
    requires multiset(a) == multiset(b)
    ensures FreeItemsOf(a, rules) == FreeItemsOf(b, rules)
  {
    forall i ensures ItemCount(a, i) == ItemCount(b, i) {
      ItemCountIsMultiplicity(a, i);
      ItemCountIsMultiplicity(b, i);
    }
    IncludedItemsSameCounts(a, b, rules);
    BundledItemsSameCounts(a, b, rules);
  }

  /** Baskets with equal counts give the same includedItems. */
  lemma {:induction false} IncludedItemsSameCounts(a: seq<Item>, b: seq<Item>, rules: seq<PricingRule>)
    requires IncludedRulesWellFormed(rules)
    requires forall i :: ItemCount(a, i) == ItemCount(b, i)
    ensures IncludedItems(a, rules) == IncludedItems(b, rules)
  {
    if rules != [] {
      IncludedItemsSameCounts(a, b, rules[1..]);
    }
  }

  /** Baskets with equal counts give the same bundledItems. */
  lemma {:induction false} BundledItemsSameCounts(a: seq<Item>, b: seq<Item>, rules: seq<PricingRule>)
    requires BundledRulesWellFormed(rules)
    requires forall i :: ItemCount(a, i) == ItemCount(b, i)
    ensures BundledItems(a, rules) == BundledItems(b, rules)
  {
    if rules != [] {
      BundledItemsSameCounts(a, b, rules[1..]);
    }
  }
}
