/** The order aggregate of the shop app (app/orders/models.py): an order, its lines, the status that is
    recomputed from the lines' completion flags and the assignment, the assignment fields that `save`
    derives from the handler, the price snapshot taken when a line is saved, and the order totals.
    The order's lines (`order.items`) are held by the order as a sequence. Prices are integer cents. */
module AppOrders {
  import opened Common
  import Text

  datatype Status = Pending | InProgress | Completed | Cancelled

  predicate Terminal(s: Status)
  {
    s == Completed || s == Cancelled
  }

  /** One order line: the ordered quantity, the price snapshot `price_at_time`, the current price of the
      stock item the line points to (`item.current_price`, read live), and the completion flag. */
  datatype OrderItem = OrderItem(quantity: nat, priceAtTime: Option<int>, itemPrice: Option<int>, isCompleted: bool)

  /** `are_all_items_completed`: false for an order without lines, otherwise no line is still open. */
  predicate AllItemsCompleted(items: seq<OrderItem>)
  {
    items != [] && forall i :: 0 <= i < |items| ==> items[i].isCompleted
  }

  /** One open line is enough to make the order incomplete, and an order with only completed lines is complete. */
  lemma AllItemsCompletedCases(items: seq<OrderItem>, k: nat)
    requires k < |items|
    ensures !items[k].isCompleted ==> !AllItemsCompleted(items)
    ensures AllItemsCompleted(items) ==> AllItemsCompleted(items[k := items[k].(isCompleted := true)])
    ensures (forall i :: 0 <= i < |items| && i != k ==> items[i].isCompleted)
            ==> AllItemsCompleted(items[k := items[k].(isCompleted := true)])
  {
  }

  /** `update_status_based_on_items`: the status the order gets from the completion of its lines and its assignment. */
  function RecomputedStatus(status: Status, isAssigned: bool, allCompleted: bool): (s: Status)
    ensures status == Cancelled ==> s == Cancelled
    ensures status == Completed ==> s == Completed
    ensures allCompleted && status != Cancelled ==> s == Completed
    ensures !allCompleted && !Terminal(status) ==> s == (if isAssigned then InProgress else Pending)
  {
    if allCompleted && status != Cancelled then Completed
    else if isAssigned && !Terminal(status) then InProgress
    else if !isAssigned && !Terminal(status) then Pending
    else status
  }

  /** Recomputing twice is recomputing once, and a completed order stays completed even when a line is
      reopened (the completion is sticky). */
  lemma RecomputeIdempotentAndSticky(status: Status, isAssigned: bool, allCompleted: bool, laterAllCompleted: bool)
    ensures var s := RecomputedStatus(status, isAssigned, allCompleted);
      RecomputedStatus(s, isAssigned, allCompleted) == s
      && (s == Completed ==> RecomputedStatus(s, isAssigned, laterAllCompleted) == Completed)
  {
  }

  /** The assignment columns of an order. */
  datatype Assignment = Assignment(handler: Option<UserId>, isAssigned: bool, assignedAt: Option<Time>)

  /** The first part of `save`: `is_assigned` follows the handler, `assigned_at` is stamped when a handler
      is present without a timestamp and cleared when there is no handler. */
  function SyncAssignment(a: Assignment, now: Time): (r: Assignment)
    ensures r.handler == a.handler
    ensures r.isAssigned <==> a.handler.Some?
    ensures r.assignedAt.Some? <==> a.handler.Some?
    ensures a.handler.Some? && a.assignedAt.Some? ==> r.assignedAt == a.assignedAt
    ensures a.handler.Some? && a.assignedAt.None? ==> r.assignedAt == Some(now)
  {
    var stamped := if a.handler.Some? && a.assignedAt.None? then Some(now) else a.assignedAt;
    Assignment(a.handler, a.handler.Some?, if a.handler.None? then None else stamped)
  }

  /** Syncing is idempotent: a second save at a later time keeps the first timestamp. */
  lemma SyncAssignmentIdempotent(a: Assignment, now: Time, later: Time)
    ensures SyncAssignment(SyncAssignment(a, now), later) == SyncAssignment(a, now)
  {
  }

  /** The columns `save` reads and writes. */
  datatype OrderState = OrderState(assignment: Assignment, status: Status)

  /** What `Order.save` leaves in the row: the assignment columns synchronised and, unless the order is
      new, the status recomputed from the (synchronised) assignment and the lines. */
  function Saved(s: OrderState, isNew: bool, allCompleted: bool, now: Time): (r: OrderState)
    ensures r.assignment == SyncAssignment(s.assignment, now)
    ensures isNew ==> r.status == s.status
    ensures !isNew ==> r.status == RecomputedStatus(s.status, s.assignment.handler.Some?, allCompleted)
  {
    var a := SyncAssignment(s.assignment, now);
    OrderState(a, if isNew then s.status else RecomputedStatus(s.status, a.isAssigned, allCompleted))
  }

  /** Facts about a saved existing order: it is consistent (assigned exactly when a handler is set, stamped
      exactly when assigned), a cancelled order stays cancelled, a completed one stays completed, and a
      second save changes nothing. */
  lemma SavedExistingOrder(s: OrderState, allCompleted: bool, now: Time, later: Time)
    ensures var r := Saved(s, false, allCompleted, now);
      (r.assignment.isAssigned <==> r.assignment.handler.Some?)
      && (r.assignment.assignedAt.Some? <==> r.assignment.isAssigned)
      && (s.status == Cancelled ==> r.status == Cancelled)
      && (s.status == Completed ==> r.status == Completed)
      && (allCompleted && s.status != Cancelled ==> r.status == Completed)
      && Saved(r, false, allCompleted, later) == r
  {
  }

  /** `price_at_time` is filled from the stock item's current price only when it is unset or zero and
      the current price is neither unset nor zero. */
  function Snapshot(item: OrderItem): (r: OrderItem)
    ensures r.quantity == item.quantity && r.itemPrice == item.itemPrice && r.isCompleted == item.isCompleted
    ensures Truthy(item.priceAtTime) ==> r == item
    ensures !Truthy(item.priceAtTime) && Truthy(item.itemPrice) ==> r.priceAtTime == item.itemPrice
    ensures !Truthy(item.priceAtTime) && !Truthy(item.itemPrice) ==> r == item
  {
    if !Truthy(item.priceAtTime) && Truthy(item.itemPrice) then item.(priceAtTime := item.itemPrice) else item
  }

  /** `OrderItem.total_price`: `(price_at_time or item.current_price or 0) * quantity`. */
  function LineTotal(item: OrderItem): int
  {
    var price := if Truthy(item.priceAtTime) then item.priceAtTime.value
                 else if Truthy(item.itemPrice) then item.itemPrice.value
                 else 0;
    price * item.quantity
  }

  /** Once a line has been saved with a non-zero price, its total no longer follows the stock item's price;
      a line saved while the item had no price (or price zero) keeps following it. */
  lemma SnapshotFreezesLineTotal(item: OrderItem, laterPrice: Option<int>)
    ensures Truthy(item.priceAtTime) || Truthy(item.itemPrice) ==>
      LineTotal(Snapshot(item).(itemPrice := laterPrice)) == LineTotal(Snapshot(item))
    ensures !Truthy(item.priceAtTime) && Truthy(item.itemPrice) ==>
      LineTotal(Snapshot(item)) == item.itemPrice.value * item.quantity
    ensures !Truthy(item.priceAtTime) && !Truthy(item.itemPrice) ==>
      LineTotal(Snapshot(item).(itemPrice := laterPrice)) == LineTotal(item.(itemPrice := laterPrice))
    ensures Snapshot(Snapshot(item)) == Snapshot(item)
  {
  }

  /** `get_total_items`: the sum of the lines' quantities. */
  function SumQuantities(items: seq<OrderItem>): nat
  {
    if items == [] then 0 else SumQuantities(items[..|items| - 1]) + items[|items| - 1].quantity
  }

  /** The sum of the lines' totals, which `get_total_price` accumulates. */
  function SumLineTotals(items: seq<OrderItem>): int
  {
    if items == [] then 0 else SumLineTotals(items[..|items| - 1]) + LineTotal(items[|items| - 1])
  }

  /** Both totals are additive over a split of the lines, so no line is counted twice or missed. */
  lemma {:induction false} TotalsAdditive(a: seq<OrderItem>, b: seq<OrderItem>)
    ensures SumQuantities(a + b) == SumQuantities(a) + SumQuantities(b)
    ensures SumLineTotals(a + b) == SumLineTotals(a) + SumLineTotals(b)
    decreases |b|
  {
    if b == [] {
      assert a + b == a;
    } else {
      var b' := b[..|b| - 1];
      assert (a + b)[..|a + b| - 1] == a + b';
      TotalsAdditive(a, b');
    }
  }

  /** Replacing one line changes each total by exactly the difference between the new and the old line. */
  lemma TotalsAfterReplace(items: seq<OrderItem>, k: nat, line: OrderItem)
    requires k < |items|
    ensures SumQuantities(items[k := line]) == SumQuantities(items) - items[k].quantity + line.quantity
    ensures SumLineTotals(items[k := line]) == SumLineTotals(items) - LineTotal(items[k]) + LineTotal(line)
  {
    var pre, post := items[..k], items[k + 1..];
    assert items == pre + [items[k]] + post;
    assert items[k := line] == pre + [line] + post;
    TotalsAdditive(pre + [items[k]], post);
    TotalsAdditive(pre, [items[k]]);
    TotalsAdditive(pre + [line], post);
    TotalsAdditive(pre, [line]);
    assert [items[k]][..0] == [] && [line][..0] == [];
  }

  /** A canonical UUID string as `str(uuid)` prints it: 36 characters, lower-case hex digits, hyphens at 8, 13, 18, 23. */
  predicate IsHexLower(c: char)
  {
    '0' <= c <= '9' || 'a' <= c <= 'f'
  }

  predicate IsUuidString(s: string)
  {
    |s| == 36
    && forall i :: 0 <= i < 36 ==> (if i == 8 || i == 13 || i == 18 || i == 23 then s[i] == '-' else IsHexLower(s[i]))
  }

  /** `short_id`: the first eight characters of the id, upper-cased. */
  function ShortId(id: string): (r: string)
    ensures |r| == if |id| < 8 then |id| else 8
    ensures forall i :: 0 <= i < |r| ==> r[i] == Text.UpperChar(id[i])
  {
    Text.Upper(if |id| < 8 then id else id[..8])
  }

  /** For a real order id the short form is eight upper-case hex digits, the first group of the UUID. */
  lemma ShortIdOfUuid(id: string)
    requires IsUuidString(id)
    ensures |ShortId(id)| == 8
    ensures forall i :: 0 <= i < 8 ==> ('0' <= ShortId(id)[i] <= '9' || 'A' <= ShortId(id)[i] <= 'F')
  {
    forall i | 0 <= i < 8
      ensures '0' <= ShortId(id)[i] <= '9' || 'A' <= ShortId(id)[i] <= 'F'
    {
      assert IsHexLower(id[i]);
    }
  }

  /** `Order.clean`: a handler must be a superuser or belong to ORDERS_OPERATOR. */
  predicate ValidHandler(handler: Option<Principal>)
  {
    handler.None? || handler.value.isSuperuser || InGroup(handler.value, ORDERS_OPERATOR)
  }

  /** An `Order` row together with its lines. `pk` is the primary key as `save` sees it: the id column has
      a generated default, so a constructed order already carries its key. */
  class Order {
    var pk: Option<string>
    var creator: Option<UserId>
    var handler: Option<UserId>
    var status: Status
    var isAssigned: bool
    var assignedAt: Option<Time>
    var items: seq<OrderItem>

    /** `Order(creator=...)`: the id default is generated at construction, status pending, unassigned, no lines. */
    constructor (id: string, creator: Option<UserId>)
      ensures pk == Some(id) && this.creator == creator && handler.None?
      ensures status == Pending && !isAssigned && assignedAt.None? && items == []
    {
      pk := Some(id);
      this.creator := creator;
      handler := None;
      status := Pending;
      isAssigned := false;
      assignedAt := None;
      items := [];
    }

    function AssignmentColumns(): Assignment
      reads this
    {
      Assignment(handler, isAssigned, assignedAt)
    }

    function State(): OrderState
      reads this
    {
      OrderState(AssignmentColumns(), status)
    }

    method AreAllItemsCompleted() returns (done: bool)
      ensures done == AllItemsCompleted(items)
    {
      done := items != [];
      var i := 0;
      while i < |items| && done
        invariant 0 <= i <= |items|
        invariant done <==> items != [] && forall j :: 0 <= j < i ==> items[j].isCompleted
      {
        done := items[i].isCompleted;
        i := i + 1;
      }
    }

    method UpdateStatusBasedOnItems()
      modifies this`status
      ensures status == RecomputedStatus(old(status), isAssigned, AllItemsCompleted(items))
    {
      var done := AreAllItemsCompleted();
      if done && status != Cancelled {
        status := Completed;
      } else if isAssigned && !Terminal(status) {
        status := InProgress;
      } else if !isAssigned && !Terminal(status) {
        status := Pending;
      }
    }

    /** `Order.save`; `now` is `timezone.now()` and `id` the key the database assigns when there is none. */
    method Save(now: Time, id: string)
      modifies this`pk, this`isAssigned, this`assignedAt, this`status
      ensures State() == Saved(old(State()), old(pk).None?, AllItemsCompleted(items), now)
      ensures pk == if old(pk).None? then Some(id) else old(pk)
    {
      isAssigned := handler.Some?;
      if handler.Some? && assignedAt.None? {
        assignedAt := Some(now);
      }
      if handler.None? && assignedAt.Some? {
        assignedAt := None;
      }
      var isNew := pk.None?;
      if isNew {
        pk := Some(id);
      }
      if !isNew {
        UpdateStatusBasedOnItems();
      }
    }

    /** `OrderItem.save` for the line at position `k` (`k == |items|` saves a new line): the price snapshot
        is taken, the line is stored, and the order is saved again. */
    method SaveItem(k: nat, line: OrderItem, now: Time)
      requires pk.Some? && k <= |items|
      modifies this`pk, this`items, this`isAssigned, this`assignedAt, this`status
      ensures pk == old(pk)
      ensures items == if k == |old(items)| then old(items) + [Snapshot(line)] else old(items)[k := Snapshot(line)]
      ensures State() == Saved(old(State()), false, AllItemsCompleted(items), now)
    {
      var stored := Snapshot(line);
      if k == |items| {
        items := items + [stored];
      } else {
        items := items[k := stored];
      }
      Save(now, pk.value);
    }

    function GetTotalItems(): nat
      reads this
    {
      SumQuantities(items)
    }

    method GetTotalPrice() returns (total: int)
      ensures total == SumLineTotals(items)
    {
      total := 0;
      var i := 0;
      while i < |items|
        invariant 0 <= i <= |items|
        invariant total == SumLineTotals(items[..i])
      {
        assert items[..i + 1][..i] == items[..i];
        total := total + LineTotal(items[i]);
        i := i + 1;
      }
      assert items[..i] == items;
    }
  }
}
