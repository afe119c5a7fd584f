/** The checkout itself (Checkout.kt): a basket that scanning appends to and
    that totals its list prices. */
module Shopping {
  import opened Items
  import opened PricingRules
  import opened Decimals
  import opened Baskets

  /** A checkout session. `pricingRules` is fixed at construction and never
      read by `Total`; `items` only ever grows. */
  class Checkout {
    const pricingRules: seq<PricingRule>
    var items: seq<Item>

    /** A new checkout with the given rules and nothing scanned. */
    constructor (pricingRules: seq<PricingRule>)
      ensures this.pricingRules == pricingRules
      ensures items == []
    {
      this.pricingRules := pricingRules;
      items := [];
    }

    /** Appends `newItems`, in argument order, after the items already scanned.
        Answers whether the basket changed, as a list's addAll does. */
    method Scan(newItems: seq<Item>) returns (changed: bool)
      modifies this
      ensures items == old(items) + newItems
      ensures |items| == old(|items|) + |newItems|
      ensures changed <==> newItems != []
    {
      items := items + newItems;
      changed := newItems != [];
    }

    /** Folds the list prices of the scanned items and truncates the sum toward
        zero at two decimal places. Reads the basket only. */
    method Total() returns (t: real)
      ensures t == TotalOf(items)
      ensures t <= ListSum(items) && ListSum(items) - t < 0.01
    {
      var sum := 0.0;
      for k := 0 to |items|
        invariant sum == ListSum(items[..k])
      {
        assert items[..k + 1][..k] == items[..k];
        sum := sum + Price(items[k]);
      }
      assert items[..|items|] == items;
      t := SetScale2Down(sum);
    }
  }
}
