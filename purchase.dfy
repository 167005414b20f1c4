/**
 * A purchase in progress: how many of each item have been scanned, and the
 * running total price.
 */
module Purchases {
  import opened JavaInt
  import opened Wrappers

  /** A scanned item: what the purchase reads of it. */
  datatype Item = Item(brand: string, name: string, price: Int32, discount: Int32, hasDiscount: bool)

  /** Why `removeScannedItem` threw. */
  datatype PurchaseError = NotScanned

  /** Every item in the map has been scanned at least once more than removed. */
  predicate PositiveCounts(m: map<Item, int>)
  {
    forall x :: x in m ==> m[x] >= 1
  }

  /** The item map after `scanItem(x)`: one more `x`, and no other entry touched. */
  function Scanned(m: map<Item, int>, x: Item): (r: map<Item, int>)
    ensures x in r && r[x] == (if x in m then m[x] + 1 else 1)
    ensures forall y :: y != x ==> (y in r <==> y in m) && (y in m ==> r[y] == m[y])
    ensures PositiveCounts(m) ==> PositiveCounts(r)
  {
    m[x := if x in m then m[x] + 1 else 1]
  }

  /**
   * The item map after `removeScannedItem(x)` for a scanned `x`: one fewer
   * `x`, the entry gone when it was the last one, and no other entry touched.
   */
  function Removed(m: map<Item, int>, x: Item): (r: map<Item, int>)
    requires x in m
    ensures m[x] > 1 ==> x in r && r[x] == m[x] - 1
    ensures m[x] <= 1 ==> x !in r
    ensures forall y :: y != x ==> (y in r <==> y in m) && (y in m ==> r[y] == m[y])
    ensures PositiveCounts(m) ==> PositiveCounts(r)
  {
    if m[x] > 1 then m[x := m[x] - 1] else m - {x}
  }

  /** Removing an item just scanned gives back exactly the map before the scan. */
  lemma RemoveUndoesScan(m: map<Item, int>, x: Item)
    requires PositiveCounts(m)
    ensures Removed(Scanned(m, x), x) == m
  {
    var r := Removed(Scanned(m, x), x);
    assert r.Keys == m.Keys;
  }

  /**
   * For an item without discount, the total after a scan and a remove is the
   * total before, with Java's `int` overflow in between or not.
   */
  lemma RemoveUndoesScanTotal(total: Int32, x: Item)
    ensures Wrap32(Wrap32(total + x.price) - x.price) == total
  {
    Wrap32AddSub(total, x.price);
  }

  class Purchase {
    var items: map<Item, int>
    var totalPrice: Int32

    ghost predicate Valid()
      reads this
    {
      PositiveCounts(items)
    }

    /** A new purchase has no items and a total of 0. */
    constructor ()
      ensures Valid()
      ensures items == map[] && totalPrice == 0
    {
      items := map[];
      totalPrice := 0;
    }

    /**
     * `incrementTotalPrice`. For an item without discount the price is added
     * with `int` wrap-around. A discounted item goes through `double`
     * arithmetic in Java; `discountedTotal` stands for the total Java then
     * arrives at, which this model does not compute.
     */
    method IncrementTotalPrice(item: Item, discountedTotal: Int32)
      modifies this`totalPrice
      ensures totalPrice == (if item.hasDiscount then discountedTotal else Wrap32(old(totalPrice) + item.price))
    {
      if item.hasDiscount {
        totalPrice := discountedTotal;
      } else {
        totalPrice := Wrap32(totalPrice + item.price);
      }
    }

    /** `decrementPrice`, the same as `IncrementTotalPrice` with the price subtracted. */
    method DecrementPrice(item: Item, discountedTotal: Int32)
      modifies this`totalPrice
      ensures totalPrice == (if item.hasDiscount then discountedTotal else Wrap32(old(totalPrice) - item.price))
    {
      if item.hasDiscount {
        totalPrice := discountedTotal;
      } else {
        totalPrice := Wrap32(totalPrice - item.price);
      }
    }

    /** `scanItem`: one more of `item`, and its price added to the total. */
    method ScanItem(item: Item, discountedTotal: Int32)
      requires Valid()
      modifies this
      ensures Valid()
      ensures items == Scanned(old(items), item)
      ensures totalPrice == (if item.hasDiscount then discountedTotal else Wrap32(old(totalPrice) + item.price))
    {
      if item in items {
        var currentAmount := items[item];
        items := items[item := currentAmount + 1];
      } else {
        items := items[item := 1];
      }
      IncrementTotalPrice(item, discountedTotal);
    }

    /**
     * `removeScannedItem`: for an item never scanned, a NoSuchElementException
     * with map and total unchanged; otherwise one fewer of it, its price off
     * the total, and the item handed back.
     */
    method RemoveScannedItem(item: Item, discountedTotal: Int32) returns (r: Result<Item, PurchaseError>)
      requires Valid()
      modifies this
      ensures Valid()
      ensures old(item !in items) ==> r == Failure(NotScanned) && items == old(items) && totalPrice == old(totalPrice)
      ensures old(item in items) ==>
                r == Success(item) && items == Removed(old(items), item) &&
                totalPrice == (if item.hasDiscount then discountedTotal else Wrap32(old(totalPrice) - item.price))
    {
      if item !in items {
        return Failure(NotScanned);
      }
      if items[item] > 1 {
        var currentAmount := items[item];
        items := items[item := currentAmount - 1];
      } else {
        items := items - {item};
      }
      DecrementPrice(item, discountedTotal);
      return Success(item);
    }

    function TotalPrice(): (r: Int32)
      reads this
    {
      totalPrice
    }

    function PurchasedItems(): (r: map<Item, int>)
      reads this
    {
      items
    }
  }

  /**
   * Scanning an item without discount and removing it again leaves the
   * purchase exactly as it was.
   */
  method ScanThenRemove(p: Purchase, item: Item, discountedTotal: Int32)
    requires p.Valid() && !item.hasDiscount
    modifies p
    ensures p.Valid()
    ensures p.items == old(p.items) && p.totalPrice == old(p.totalPrice)
  {
    p.ScanItem(item, discountedTotal);
    var r := p.RemoveScannedItem(item, discountedTotal);
    RemoveUndoesScan(old(p.items), item);
    RemoveUndoesScanTotal(old(p.totalPrice), item);
  }
}
