/** The pricing rules a checkout can be configured with (PricingRule.kt).
    The three kinds form a closed set; only a bulk discount computes anything. */
module PricingRules {
  import opened Items
  import opened Discounts

  /** `payFor`, `receive` and `min` are plain integers: no range is enforced. */
  datatype PricingRule =
      /** Every `payFor` scanned units of `item` include `receive` free ones. */
    | PayForXReceiveY(item: Item, payFor: int, receive: int)
      /** "Every `min` units of `purchased` bring one `bundled` free." */
    | BundleDeal(purchased: Item, min: int, bundled: Item)
      /** "From `min` units of `item` on, each unit costs the discounted price." */
    | BulkDiscount(item: Item, min: int, discount: Discount)
  {
    /** The unit price of a bulk-discounted item: the list price with the
        discount taken off. A percentage removes that fraction of the list
        price, a flat discount removes exactly its amount; nothing is clamped. */
    function PricePerUnit(): (r: real)
      requires BulkDiscount?
      ensures discount.PercentDiscount? ==> Price(item) - r == Price(item) * discount.percentage
      ensures discount.FlatDiscount? ==> Price(item) - r == discount.amount
    {
      match discount
      case PercentDiscount(percentage) => Price(item) * (1.0 - percentage)
      case FlatDiscount(amount) => Price(item) - amount
    }
  }

  /** `BundleDeal(purchased, bundled = ...)` with `min` omitted. */
  function BundleDealWithDefaultMin(purchased: Item, bundled: Item): (r: PricingRule)
    ensures r.BundleDeal? && r.purchased == purchased && r.bundled == bundled
    ensures r.min == 1
  {
    BundleDeal(purchased, 1, bundled)
  }

  /** A zero discount of either kind leaves the list price; a 100% discount makes the item free. */
  lemma PricePerUnitNeutralAndFull(item: Item, min: int)
    ensures BulkDiscount(item, min, PercentDiscount(0.0)).PricePerUnit() == Price(item)
    ensures BulkDiscount(item, min, FlatDiscount(0.0)).PricePerUnit() == Price(item)
    ensures BulkDiscount(item, min, PercentDiscount(1.0)).PricePerUnit() == 0.0
  {
  }

  /** A discount that is not negative never raises the unit price above the list price. */
  lemma PricePerUnitAtMostListPrice(rule: PricingRule)
    requires rule.BulkDiscount?
    requires rule.discount.PercentDiscount? ==> 0.0 <= rule.discount.percentage
    requires rule.discount.FlatDiscount? ==> 0.0 <= rule.discount.amount
    ensures rule.PricePerUnit() <= Price(rule.item)
  {
  }

  /** Nothing clamps the unit price: a flat amount above the list price, or a
      percentage above one, gives a negative unit price. */
  lemma PricePerUnitNotClamped(rule: PricingRule)
    requires rule.BulkDiscount?
    requires rule.discount.PercentDiscount? ==> 1.0 < rule.discount.percentage
    requires rule.discount.FlatDiscount? ==> Price(rule.item) < rule.discount.amount
    ensures rule.PricePerUnit() < 0.0
  {
  }

  /** The unit price does not depend on the threshold `min`, which is only stored. */
  lemma PricePerUnitIgnoresMin(item: Item, min1: int, min2: int, d: Discount)
    ensures BulkDiscount(item, min1, d).PricePerUnit() == BulkDiscount(item, min2, d).PricePerUnit()
  {
  }
}
