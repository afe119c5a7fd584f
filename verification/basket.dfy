/** Pure views of a basket, the list of scanned items (Checkout.kt): its
    list-price sum, its truncated total, and how often each item occurs. */
module Baskets {
  import opened Decimals
  import opened Items

  /** items.fold(ZERO) { sum, item -> sum + item.price }: a left fold of the list prices. */
  function ListSum(items: seq<Item>): (s: real)
    ensures 0.0 <= s
  {
    if items == [] then 0.0
    else ListSum(items[..|items| - 1]) + Price(items[|items| - 1])
  }

  /** The amount payable as Checkout.total computes it: the list-price sum
      truncated toward zero at two decimal places. Pricing rules play no part. */
  function TotalOf(items: seq<Item>): (t: real)
    ensures IsWholeCents(t)
    ensures 0.0 <= t <= ListSum(items) && ListSum(items) - t < 0.01
  {
    SetScale2Down(ListSum(items))
  }

  /** items.count { it == item }: how many scanned units are `item`. */
  function ItemCount(items: seq<Item>, item: Item): (n: nat)
    ensures n <= |items|
  {
    if items == [] then 0
    else (if items[0] == item then 1 else 0) + ItemCount(items[1..], item)
  }

  /** The count of each item that occurs, keyed by item; absent items have no key. */
  function ItemCounts(items: seq<Item>): (m: map<Item, nat>)
    ensures forall i :: i in m <==> ItemCount(items, i) > 0
    ensures forall i :: i in m ==> m[i] == ItemCount(items, i)
  {
    ItemCountPositiveIffPresent(items);
    map i | i in items :: ItemCount(items, i)
  }

  /** The count of an item is its multiplicity in the basket. */
  lemma {:induction false} ItemCountIsMultiplicity(items: seq<Item>, item: Item)
    ensures ItemCount(items, item) == multiset(items)[item]
  {
    if items != [] {
      ItemCountIsMultiplicity(items[1..], item);
      assert items == [items[0]] + items[1..];
      assert multiset(items) == multiset{items[0]} + multiset(items[1..]);
    }
  }

  /** An item has a positive count exactly when it was scanned. */
  lemma ItemCountPositiveIffPresent(items: seq<Item>)
    ensures forall i :: ItemCount(items, i) > 0 <==> i in items
  {
    forall i ensures ItemCount(items, i) > 0 <==> i in items {
      ItemCountIsMultiplicity(items, i);
    }
  }

  /** Counting distributes over concatenation. */
  lemma ItemCountAppend(a: seq<Item>, b: seq<Item>, item: Item)
    ensures ItemCount(a + b, item) == ItemCount(a, item) + ItemCount(b, item)
  {
    ItemCountIsMultiplicity(a + b, item);
    ItemCountIsMultiplicity(a, item);
    ItemCountIsMultiplicity(b, item);
  }

  /** The list-price sum of two scans in a row is the sum of each. */
  lemma {:induction false} ListSumAppend(a: seq<Item>, b: seq<Item>)
    ensures ListSum(a + b) == ListSum(a) + ListSum(b)
  {
    if b != [] {
      var b' := b[..|b| - 1];
      ListSumAppend(a, b');
      assert (a + b)[..|a + b| - 1] == a + b';
    } else {
      assert a + b == a;
    }
  }

  /** The price of the units counted per catalogue entry. */
  function CountedPrice(items: seq<Item>): real
  {
    ItemCount(items, SuperIPad) as real * Price(SuperIPad)
    + ItemCount(items, MacbookPro) as real * Price(MacbookPro)
    + ItemCount(items, AppleTV) as real * Price(AppleTV)
    + ItemCount(items, VgaAdapter) as real * Price(VgaAdapter)
  }

  /** Scanning one more unit adds its list price to the counted price. */
  lemma CountedPriceSnoc(init: seq<Item>, last: Item)
    ensures CountedPrice(init + [last]) == CountedPrice(init) + Price(last)
  {
    var items := init + [last];
    forall i ensures ItemCount(items, i) == ItemCount(init, i) + (if i == last then 1 else 0) {
      ItemCountAppend(init, [last], i);
      assert ItemCount([last], i) == (if i == last then 1 else 0) + ItemCount([], i);
    }
    var a, b, c, d := ItemCount(init, SuperIPad), ItemCount(init, MacbookPro), ItemCount(init, AppleTV), ItemCount(init, VgaAdapter);
    assert CountedPrice(init) == a as real * 549.99 + b as real * 1399.99 + c as real * 109.50 + d as real * 30.00;
  }

  /** The fold equals the per-item count times list price, summed over the catalogue. */
  lemma {:induction false} ListSumIsCountedPrice(items: seq<Item>)
    ensures ListSum(items) == CountedPrice(items)
  {
    if items != [] {
      var init, last := items[..|items| - 1], items[|items| - 1];
      ListSumIsCountedPrice(init);
      assert items == init + [last];
      CountedPriceSnoc(init, last);
    }
  }

  /** The total depends only on which items were scanned how often, not on their order. */
  lemma TotalIgnoresScanOrder(a: seq<Item>, b: seq<Item>)
    requires multiset(a) == multiset(b)
    ensures TotalOf(a) == TotalOf(b)
  {
    forall i ensures ItemCount(a, i) == ItemCount(b, i) {
      ItemCountIsMultiplicity(a, i);
      ItemCountIsMultiplicity(b, i);
    }
    assert CountedPrice(a) == CountedPrice(b);
    ListSumIsCountedPrice(a);
    ListSumIsCountedPrice(b);
    assert ListSum(a) == ListSum(b);
  }

  /** Every list price is whole cents, so the truncation in the total never
      removes anything: the total is the exact list-price sum. */
  lemma {:induction false} TotalIsListSum(items: seq<Item>)
    ensures IsWholeCents(ListSum(items))
    ensures TotalOf(items) == ListSum(items)
  {
    if items != [] {
      TotalIsListSum(items[..|items| - 1]);
      WholeCentsAdd(ListSum(items[..|items| - 1]), Price(items[|items| - 1]));
    }
    SetScale2DownOfWholeCents(ListSum(items));
  }

  /** Nothing scanned, nothing to pay. */
  lemma TotalOfEmptyBasket()
    ensures TotalOf([]) == 0.0
  {
  }

  /** Scanning more items never lowers the total. */
  lemma TotalGrowsWithScan(items: seq<Item>, newItems: seq<Item>)
    ensures TotalOf(items) <= TotalOf(items + newItems)
    ensures TotalOf(items + newItems) == TotalOf(items) + ListSum(newItems)
  {
    ListSumAppend(items, newItems);
    TotalIsListSum(items);
    TotalIsListSum(items + newItems);
  }
}
