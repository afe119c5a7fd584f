/** The two kinds of discount a bulk-discount rule can carry (Discount.kt).
    A `percentage` is a fraction of the price (0.1 takes off a tenth), an
    `amount` is a sum of money; neither is range-checked. */
module Discounts {

  datatype Discount =
    | PercentDiscount(percentage: real)
    | FlatDiscount(amount: real)
}
