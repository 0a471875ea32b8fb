/** The stock dashboard admin (dashboard/stock/admin.py): the "stock status" list filter, the stock-status
    badge of each row and the available-quantity column. The filter compares the TOTAL quantity with the
    low-stock threshold, while the badge uses the AVAILABLE quantity of the stock ledger. */
module StockAdmin {
  import opened Common
  import Text
  import StockLedger

  /** The columns of a stock item the filter and the badge read. */
  datatype StockRow = StockRow(levels: StockLedger.Levels, lowStockThreshold: nat)

  /** Whether a row passes `StockStatusFilter.queryset` for the selected value; an unknown value keeps all. */
  predicate Matches(value: string, row: StockRow)
  {
    var q := row.levels.quantity;
    if value == "in_stock" then q > row.lowStockThreshold
    else if value == "low_stock" then q > 0 && q <= row.lowStockThreshold
    else if value == "out_of_stock" then q == 0
    else true
  }

  function Select(value: string, rows: seq<StockRow>): seq<StockRow>
  {
    if rows == [] then []
    else Select(value, rows[..|rows| - 1]) + (if Matches(value, rows[|rows| - 1]) then [rows[|rows| - 1]] else [])
  }

  /** `StockStatusFilter.queryset`: no selected value returns the queryset as it is. */
  function FilterQueryset(value: Option<string>, rows: seq<StockRow>): seq<StockRow>
  {
    if value.None? then rows else Select(value.value, rows)
  }

  /** A filtered queryset holds exactly the matching rows, each at most as often as before. */
  lemma {:induction false} SelectMembers(value: string, rows: seq<StockRow>)
    ensures forall r :: r in Select(value, rows) <==> r in rows && Matches(value, r)
    ensures multiset(Select(value, rows)) <= multiset(rows)
    ensures |Select(value, rows)| <= |rows|
  {
    if rows != [] {
      SelectMembers(value, rows[..|rows| - 1]);
      assert rows == rows[..|rows| - 1] + [rows[|rows| - 1]];
    }
  }

  /** Any value other than the three listed (or none) leaves the queryset unchanged. */
  lemma {:induction false} UnknownValueKeepsAll(value: Option<string>, rows: seq<StockRow>)
    requires value.None? || value.value !in {"in_stock", "low_stock", "out_of_stock"}
    ensures FilterQueryset(value, rows) == rows
  {
    if value.Some? && rows != [] {
      UnknownValueKeepsAll(value, rows[..|rows| - 1]);
      assert rows == rows[..|rows| - 1] + [rows[|rows| - 1]];
    }
  }

  /** Every stock item falls under exactly one of the three filter values. */
  lemma FilterPartition(row: StockRow)
    ensures Matches("in_stock", row) || Matches("low_stock", row) || Matches("out_of_stock", row)
    ensures !(Matches("in_stock", row) && Matches("low_stock", row))
    ensures !(Matches("in_stock", row) && Matches("out_of_stock", row))
    ensures !(Matches("low_stock", row) && Matches("out_of_stock", row))
  {
  }

  /** So the three filtered querysets split the whole queryset between them. */
  lemma {:induction false} FilterSizesAddUp(rows: seq<StockRow>)
    ensures |Select("in_stock", rows)| + |Select("low_stock", rows)| + |Select("out_of_stock", rows)| == |rows|
  {
    if rows != [] {
      FilterSizesAddUp(rows[..|rows| - 1]);
      FilterPartition(rows[|rows| - 1]);
    }
  }

  /** The badge of `StockItemAdmin.stock_status`, with the available quantity it shows. */
  datatype Badge = OutOfStock | LowStock(available: nat) | InStock(available: nat)

  /** `stock_status`: out of stock unless in stock, then low stock when at or under the threshold. */
  function StockStatus(row: StockRow): (b: Badge)
  {
    if !StockLedger.InStock(row.levels) then OutOfStock
    else if StockLedger.LowStock(row.levels, row.lowStockThreshold) then LowStock(StockLedger.Available(row.levels))
    else InStock(StockLedger.Available(row.levels))
  }

  /** The badge in terms of the available quantity: out of stock exactly when nothing is available, and the
      number shown is the available quantity, at most the threshold for low stock and above it otherwise. */
  lemma StockStatusByAvailability(row: StockRow)
    ensures StockStatus(row) == OutOfStock <==> row.levels.quantity <= row.levels.reserved
    ensures StockStatus(row).LowStock? ==> 0 < StockStatus(row).available <= row.lowStockThreshold
    ensures StockStatus(row).InStock? ==> StockStatus(row).available > row.lowStockThreshold
    ensures !StockStatus(row).OutOfStock? ==> StockStatus(row).available + row.levels.reserved == row.levels.quantity
  {
  }

  /** Without reservations the badge and the filter agree; with them a row can be listed as in stock while
      its badge says out of stock. */
  lemma BadgeMatchesFilterWithoutReservations(row: StockRow)
    ensures row.levels.reserved == 0 ==>
      (StockStatus(row) == OutOfStock <==> Matches("out_of_stock", row))
      && (StockStatus(row).LowStock? <==> Matches("low_stock", row))
      && (StockStatus(row).InStock? <==> Matches("in_stock", row))
    ensures var fullyReserved := StockRow(StockLedger.Levels(10, 10), 5);
      Matches("in_stock", fullyReserved) && StockStatus(fullyReserved) == OutOfStock
  {
  }

  /** `available_quantity_display`: "-" without an object, otherwise
      "A available[ (R reserved)] of T total". */
  function AvailableQuantityDisplay(obj: Option<StockLedger.Levels>): string
  {
    if obj.None? then "-"
    else
      var l := obj.value;
      var available := Text.NatToString(StockLedger.Available(l)) + " available";
      var reserved := if l.reserved > 0 then " (" + Text.NatToString(l.reserved) + " reserved)" else "";
      var total := " of " + Text.NatToString(l.quantity) + " total";
      available + reserved + total
  }

  /** The reserved part is shown exactly when something is reserved; the text opens with the available
      quantity and closes with the total. */
  lemma AvailableQuantityDisplayShape(l: StockLedger.Levels)
    ensures '(' in AvailableQuantityDisplay(Some(l)) <==> l.reserved > 0
    ensures Text.IsPrefix(Text.NatToString(StockLedger.Available(l)) + " available", AvailableQuantityDisplay(Some(l)))
    ensures Text.IsSuffix(" of " + Text.NatToString(l.quantity) + " total", AvailableQuantityDisplay(Some(l)))
  {
    var a := Text.NatToString(StockLedger.Available(l));
    var r := Text.NatToString(l.reserved);
    var t := Text.NatToString(l.quantity);
    NoParenInNumber(StockLedger.Available(l));
    NoParenInNumber(l.reserved);
    NoParenInNumber(l.quantity);
    var head := a + " available";
    var mid := if l.reserved > 0 then " (" + r + " reserved)" else "";
    var tail := " of " + t + " total";
    assert '(' !in head by {
      assert '(' !in " available";
    }
    assert '(' !in tail by {
      assert '(' !in " of " && '(' !in " total";
    }
    if l.reserved > 0 {
      assert '(' in mid by { assert mid[1] == '('; }
    }
    ThreeParts(head, mid, tail, '(');
  }

  /** A number's decimal form holds no parenthesis. */
  lemma NoParenInNumber(n: nat)
    ensures '(' !in Text.NatToString(n)
  {
    var s := Text.NatToString(n);
    assert forall c :: c in s ==> Text.IsDigit(c);
  }

  /** A text made of three parts opens with the first, closes with the last, and holds a character exactly
      when one of the parts does. */
  lemma ThreeParts(head: string, mid: string, tail: string, c: char)
    ensures Text.IsPrefix(head, head + mid + tail) && Text.IsSuffix(tail, head + mid + tail)
    ensures c in head + mid + tail <==> c in head || c in mid || c in tail
  {
    var s := head + mid + tail;
    assert s[..|head|] == head;
    assert s[|s| - |tail|..] == tail;
  }
}
