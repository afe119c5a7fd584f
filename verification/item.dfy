/** The fixed catalogue of purchasable items (Item.kt). */
module Items {
  import opened Decimals

  /** One catalogue entry. Items are equal exactly when they are the same entry;
      the price plays no part in equality. */
  datatype Item = SuperIPad | MacbookPro | AppleTV | VgaAdapter

  /** Every item, in declaration order. */
  const Catalogue: seq<Item> := [SuperIPad, MacbookPro, AppleTV, VgaAdapter]

  /** The stock-keeping unit code that identifies an item. */
  function Sku(i: Item): (s: string)
    ensures |s| == 3
  {
    match i
    case SuperIPad => "ipd"
    case MacbookPro => "mbp"
    case AppleTV => "atv"
    case VgaAdapter => "vga"
  }

  /** The list price of an item, as an exact decimal amount. */
  function Price(i: Item): (p: real)
    ensures 0.0 < p
    ensures IsWholeCents(p)
  {
    match i
    case SuperIPad => 549.99
    case MacbookPro => 1399.99
    case AppleTV => 109.50
    case VgaAdapter => 30.00
  }

  /** The catalogue holds exactly four distinct entries and every item is one of them. */
  lemma CatalogueIsExactlyFourItems()
    ensures |Catalogue| == 4
    ensures forall i: Item :: i in Catalogue
    ensures forall j, k :: 0 <= j < k < |Catalogue| ==> Catalogue[j] != Catalogue[k]
  {
    forall i: Item ensures i in Catalogue {
      match i
      case SuperIPad => assert Catalogue[0] == i;
      case MacbookPro => assert Catalogue[1] == i;
      case AppleTV => assert Catalogue[2] == i;
      case VgaAdapter => assert Catalogue[3] == i;
    }
  }

  /** The SKU identifies the item: distinct items have distinct codes. */
  lemma SkusAreDistinct(i: Item, j: Item)
    ensures Sku(i) == Sku(j) ==> i == j
  {
  }
}
