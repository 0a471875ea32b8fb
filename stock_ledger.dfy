/** The stock ledger of a shop item (app/stock/models.py, `StockItem`): total and reserved quantities,
    the quantities derived from them, the discounted price, and the reserve / release / consume
    operations that rewrite the quantity columns. Prices are integer cents. */
module StockLedger {
  import opened Common

  /** The two inventory columns of a stock item: `quantity` (total owned) and `reserved_quantity`. */
  datatype Levels = Levels(quantity: nat, reserved: nat)

  /** The ledger invariant: never more reserved than owned. The columns do not enforce it (both are
      editable in the admin), so it is a predicate, not a type constraint. */
  predicate Consistent(l: Levels)
  {
    l.reserved <= l.quantity
  }

  /** `available_quantity = max(0, quantity - reserved_quantity)` */
  function Available(l: Levels): (a: nat)
    ensures a == 0 <==> l.quantity <= l.reserved
    ensures a + l.reserved >= l.quantity
    ensures Consistent(l) ==> a + l.reserved == l.quantity
    ensures a <= l.quantity
  {
    if l.quantity > l.reserved then l.quantity - l.reserved else 0
  }

  /** `reserve_stock(q)`: the new levels and whether the reservation was granted. */
  function Reserve(l: Levels, q: nat): (r: (Levels, bool))
    ensures r.1 <==> q <= Available(l)
    ensures r.0.quantity == l.quantity
    ensures r.1 ==> r.0.reserved == l.reserved + q
    ensures !r.1 ==> r.0 == l
  {
    if q <= Available(l) then (Levels(l.quantity, l.reserved + q), true) else (l, false)
  }

  /** `release_stock(q)`: the reserved column drops by `q`, clamped at zero. */
  function Release(l: Levels, q: nat): (r: Levels)
    ensures r.quantity == l.quantity
    ensures r.reserved <= l.reserved
    ensures r.reserved == 0 <==> l.reserved <= q
    ensures l.reserved - q <= r.reserved
    ensures l.reserved > q ==> r.reserved + q == l.reserved
  {
    Levels(l.quantity, if l.reserved > q then l.reserved - q else 0)
  }

  /** `consume_stock(q)`: stock leaves the building; the total and the reservation both drop. */
  function Consume(l: Levels, q: nat): (r: (Levels, bool))
    ensures r.1 <==> q <= l.quantity
    ensures r.1 ==> r.0.quantity == l.quantity - q && r.0 == Levels(l.quantity - q, Release(l, q).reserved)
    ensures r.1 ==> l.reserved - r.0.reserved == if q <= l.reserved then q else l.reserved
    ensures !r.1 ==> r.0 == l
  {
    if q <= l.quantity then (Levels(l.quantity - q, Release(l, q).reserved), true) else (l, false)
  }

  /** A granted reservation keeps the ledger consistent; a refused one changes nothing. */
  lemma ReservePreservesConsistency(l: Levels, q: nat)
    requires Consistent(l)
    ensures Consistent(Reserve(l, q).0)
    ensures Available(Reserve(l, q).0) == if Reserve(l, q).1 then Available(l) - q else Available(l)
  {
  }

  /** Releasing exactly what was just reserved restores the ledger. */
  lemma ReleaseUndoesReserve(l: Levels, q: nat)
    requires Reserve(l, q).1
    ensures Release(Reserve(l, q).0, q) == l
  {
  }

  /** Two releases add up, and once nothing is reserved a further release is a no-op. */
  lemma ReleaseComposes(l: Levels, a: nat, b: nat)
    ensures Release(Release(l, a), b) == Release(l, a + b)
    ensures Release(l, a).reserved == 0 ==> Release(Release(l, a), b) == Release(l, a)
  {
  }

  /** Releasing keeps the ledger consistent and never lowers availability. */
  lemma ReleasePreservesConsistency(l: Levels, q: nat)
    requires Consistent(l)
    ensures Consistent(Release(l, q))
    ensures Available(Release(l, q)) >= Available(l)
  {
  }

  /** Consuming keeps the ledger consistent. */
  lemma ConsumePreservesConsistency(l: Levels, q: nat)
    requires Consistent(l)
    ensures Consistent(Consume(l, q).0)
  {
  }

  /** Consuming stock that was reserved for it leaves the quantity available to other orders unchanged. */
  lemma ConsumeReservedKeepsAvailability(l: Levels, q: nat)
    requires Consistent(l) && q <= l.reserved
    ensures Consume(l, q).1
    ensures Available(Consume(l, q).0) == Available(l)
  {
  }

  /** Runs a series of reservation requests one after the other, returning the final levels and the
      total quantity granted. */
  function ReserveAll(l: Levels, requests: seq<nat>): (Levels, nat)
    decreases |requests|
  {
    if requests == [] then (l, 0)
    else
      var (l', ok) := Reserve(l, requests[0]);
      var (final, granted) := ReserveAll(l', requests[1..]);
      (final, granted + if ok then requests[0] else 0)
  }

  /** No overselling: whatever series of reservations is made, the total granted never exceeds what was
      available at the start, the total stays unchanged, and a consistent ledger stays consistent. */
  lemma {:induction false} ReserveAllNeverOversells(l: Levels, requests: seq<nat>)
    ensures var (final, granted) := ReserveAll(l, requests);
      granted <= Available(l)
      && final.quantity == l.quantity
      && final.reserved == l.reserved + granted
      && (Consistent(l) ==> Consistent(final))
    decreases |requests|
  {
    if requests != [] {
      var (l', ok) := Reserve(l, requests[0]);
      ReserveAllNeverOversells(l', requests[1..]);
    }
  }

  /** `is_in_stock` and `is_low_stock`, both read off the available quantity. */
  predicate InStock(l: Levels)
  {
    Available(l) > 0
  }

  predicate LowStock(l: Levels, lowStockThreshold: nat)
  {
    Available(l) <= lowStockThreshold
  }

  /** `current_price`: the original price minus the discount, or no price when either is missing. */
  function CurrentPrice(originalPrice: Option<int>, discount: Option<int>): (p: Option<int>)
    ensures p.Some? <==> originalPrice.Some? && discount.Some?
    ensures p.Some? ==> p.value + discount.value == originalPrice.value
  {
    if originalPrice.None? || discount.None? then None else Some(originalPrice.value - discount.value)
  }

  /** `clean`: the order-quantity bounds are checked only when a maximum is set and non-zero. */
  predicate OrderBoundsValid(minOrderQuantity: nat, maxOrderQuantity: Option<nat>)
  {
    !(maxOrderQuantity.Some? && maxOrderQuantity.value != 0 && minOrderQuantity > maxOrderQuantity.value)
  }

  /** A zero maximum counts as "no maximum": any minimum passes; a set maximum must not be below the minimum. */
  lemma OrderBoundsZeroMeansUnset(minOrderQuantity: nat, maxOrderQuantity: Option<nat>)
    ensures maxOrderQuantity == Some(0) ==> OrderBoundsValid(minOrderQuantity, maxOrderQuantity)
    ensures maxOrderQuantity.None? ==> OrderBoundsValid(minOrderQuantity, maxOrderQuantity)
    ensures maxOrderQuantity.Some? && maxOrderQuantity.value > 0 ==>
      (OrderBoundsValid(minOrderQuantity, maxOrderQuantity) <==> minOrderQuantity <= maxOrderQuantity.value)
  {
  }

  /** A `StockItem` row. Only the columns the ledger logic reads or writes are modelled. */
  class StockItem {
    var quantity: nat
    var reservedQuantity: nat
    var lowStockThreshold: nat
    var minOrderQuantity: nat
    var maxOrderQuantity: Option<nat>
    var originalPrice: Option<int>
    var discount: Option<int>

    /** A new row with the column defaults: no stock, threshold 5, minimum order 1, no maximum, no discount. */
    constructor (originalPrice: Option<int>)
      ensures quantity == 0 && reservedQuantity == 0 && lowStockThreshold == 5
      ensures minOrderQuantity == 1 && maxOrderQuantity.None?
      ensures this.originalPrice == originalPrice && discount == Some(0)
    {
      quantity := 0;
      reservedQuantity := 0;
      lowStockThreshold := 5;
      minOrderQuantity := 1;
      maxOrderQuantity := None;
      this.originalPrice := originalPrice;
      discount := Some(0);
    }

    /** The two inventory columns as a value. */
    function Stock(): Levels
      reads this
    {
      Levels(quantity, reservedQuantity)
    }

    function AvailableQuantity(): nat
      reads this
    {
      Available(Stock())
    }

    predicate IsInStock()
      reads this
    {
      InStock(Stock())
    }

    predicate IsLowStock()
      reads this
    {
      LowStock(Stock(), lowStockThreshold)
    }

    function CurrentPriceValue(): Option<int>
      reads this
    {
      CurrentPrice(originalPrice, discount)
    }

    predicate Clean()
      reads this
    {
      OrderBoundsValid(minOrderQuantity, maxOrderQuantity)
    }

    method ReserveStock(q: nat) returns (ok: bool)
      modifies this`reservedQuantity
      ensures (Stock(), ok) == Reserve(old(Stock()), q)
    {
      if q <= AvailableQuantity() {
        reservedQuantity := reservedQuantity + q;
        ok := true;
      } else {
        ok := false;
      }
    }

    method ReleaseStock(q: nat)
      modifies this`reservedQuantity
      ensures Stock() == Release(old(Stock()), q)
    {
      reservedQuantity := if reservedQuantity > q then reservedQuantity - q else 0;
    }

    method ConsumeStock(q: nat) returns (ok: bool)
      modifies this`quantity, this`reservedQuantity
      ensures (Stock(), ok) == Consume(old(Stock()), q)
    {
      if q <= quantity {
        quantity := quantity - q;
        reservedQuantity := if reservedQuantity > q then reservedQuantity - q else 0;
        ok := true;
      } else {
        ok := false;
      }
    }
  }
}
