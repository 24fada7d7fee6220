/** The stock repository as a ledger: held quantity per (warehouse, product).
    Reading it is `StockFor`; the batch removal is `StockLedger.RemoveStock`. */
module Ledger {
  import opened Orders

  datatype StockKey = StockKey(warehouseId: int, productId: int)

  /** One batch removal the ledger was asked to apply. */
  datatype Removal = Removal(warehouseId: int, items: seq<StockAlteration>)

  /** The stock read for one warehouse and a list of product ids: product id to
      held quantity, with the ids that have no stock entry absent. */
  function StockFor(held: map<StockKey, int>, warehouseId: int, productIds: seq<int>): map<int, int>
  {
    map id | id in productIds && StockKey(warehouseId, id) in held :: held[StockKey(warehouseId, id)]
  }

  /** Removing one alteration: the matching entry, if present, drops by its quantity. */
  function Deduct(held: map<StockKey, int>, warehouseId: int, a: StockAlteration): map<StockKey, int>
  {
    var k := StockKey(warehouseId, a.productId);
    if k in held then held[k := held[k] - a.quantity] else held
  }

  /** The ledger after a whole batch of alterations, applied in order. */
  function Deducted(held: map<StockKey, int>, warehouseId: int, items: seq<StockAlteration>): map<StockKey, int>
    decreases |items|
  {
    if items == [] then held else Deducted(Deduct(held, warehouseId, items[0]), warehouseId, items[1..])
  }

  /** The total quantity a batch removes from one product. */
  function QuantityFor(items: seq<StockAlteration>, productId: int): int
  {
    if items == [] then 0
    else (if items[0].productId == productId then items[0].quantity else 0) + QuantityFor(items[1..], productId)
  }

  /** No two alterations of the batch name the same product. */
  predicate DistinctProducts(items: seq<StockAlteration>)
  {
    forall i, j :: 0 <= i < j < |items| ==> items[i].productId != items[j].productId
  }

  /** A batch removal keeps the ledger's keys, lowers each entry of the warehouse by
      the total the batch removes from that product, and leaves every other entry alone. */
  lemma {:induction false} DeductedEffect(held: map<StockKey, int>, warehouseId: int, items: seq<StockAlteration>, k: StockKey)
    ensures k in Deducted(held, warehouseId, items) <==> k in held
    ensures k in held ==>
      Deducted(held, warehouseId, items)[k]
        == held[k] - (if k.warehouseId == warehouseId then QuantityFor(items, k.productId) else 0)
    decreases |items|
  {
    if items != [] {
      DeductedEffect(Deduct(held, warehouseId, items[0]), warehouseId, items[1..], k);
    }
  }

  /** With one alteration per product, a product's total is its own alteration's quantity. */
  lemma {:induction false} QuantityForDistinct(items: seq<StockAlteration>, i: nat)
    requires DistinctProducts(items)
    requires i < |items|
    ensures QuantityFor(items, items[i].productId) == items[i].quantity
    decreases |items|
  {
    if i == 0 {
      QuantityForAbsent(items[1..], items[0].productId);
    } else {
      QuantityForDistinct(items[1..], i - 1);
    }
  }

  /** A product the batch does not name loses nothing. */
  lemma {:induction false} QuantityForAbsent(items: seq<StockAlteration>, productId: int)
    requires forall i :: 0 <= i < |items| ==> items[i].productId != productId
    ensures QuantityFor(items, productId) == 0
    decreases |items|
  {
    if items != [] {
      QuantityForAbsent(items[1..], productId);
    }
  }

  /** The stock ledger that the stock repository keeps. `removals` records every batch
      removal it was asked for, in call order. */
  class StockLedger {
    var held: map<StockKey, int>
    ghost var removals: seq<Removal>

    constructor (initial: map<StockKey, int>)
      ensures held == initial && removals == []
    {
      held := initial;
      removals := [];
    }

    /** The batch removal, applied as one step. */
    method RemoveStock(warehouseId: int, items: seq<StockAlteration>)
      modifies this
      ensures held == Deducted(old(held), warehouseId, items)
      ensures removals == old(removals) + [Removal(warehouseId, items)]
    {
      held := Deducted(held, warehouseId, items);
      removals := removals + [Removal(warehouseId, items)];
    }
  }
}
