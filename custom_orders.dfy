/** The order aggregate of the custom back office (backend/custom/orders/models.py). Unlike the shop app's
    order it has no per-line completion: its status is set only by the explicit assign and unassign
    operations, and `save` only keeps the assignment columns in step with the handler. */
module CustomOrders {
  import opened Common
  import AppOrders

  type Status = AppOrders.Status

  /** An order line without a completion flag: quantity, price snapshot and the stock item's live price. */
  datatype OrderItem = OrderItem(quantity: nat, priceAtTime: Option<int>, itemPrice: Option<int>)

  /** `OrderItem.total_price`: `(price_at_time or item.current_price or 0) * quantity`. */
  function LineTotal(item: OrderItem): int
  {
    var price := if Truthy(item.priceAtTime) then item.priceAtTime.value
                 else if Truthy(item.itemPrice) then item.itemPrice.value
                 else 0;
    price * item.quantity
  }

  /** `OrderItem.save`: the same snapshot rule as the shop app, without re-saving the order. */
  function Snapshot(item: OrderItem): (r: OrderItem)
    ensures r.quantity == item.quantity && r.itemPrice == item.itemPrice
    ensures !Truthy(item.priceAtTime) && Truthy(item.itemPrice) ==> r.priceAtTime == item.itemPrice
    ensures Truthy(item.priceAtTime) || !Truthy(item.itemPrice) ==> r == item
  {
    if !Truthy(item.priceAtTime) && Truthy(item.itemPrice) then item.(priceAtTime := item.itemPrice) else item
  }

  /** The two order variants price a line the same way. */
  lemma LineTotalAgreesWithShopApp(item: OrderItem, done: bool)
    ensures LineTotal(item) == AppOrders.LineTotal(AppOrders.OrderItem(item.quantity, item.priceAtTime, item.itemPrice, done))
    ensures LineTotal(Snapshot(item))
         == AppOrders.LineTotal(AppOrders.Snapshot(AppOrders.OrderItem(item.quantity, item.priceAtTime, item.itemPrice, done)))
  {
  }

  function SumQuantities(items: seq<OrderItem>): nat
  {
    if items == [] then 0 else SumQuantities(items[..|items| - 1]) + items[|items| - 1].quantity
  }

  function SumLineTotals(items: seq<OrderItem>): int
  {
    if items == [] then 0 else SumLineTotals(items[..|items| - 1]) + LineTotal(items[|items| - 1])
  }

  /** `can_be_assigned_to`: superusers and members of ORDERS_HANDLER may handle orders. */
  predicate CanBeAssignedTo(user: Principal)
  {
    user.isSuperuser || InGroup(user, ORDERS_HANDLER)
  }

  /** `is_available_for_assignment`: no handler and still pending. */
  predicate AvailableForAssignment(handler: Option<UserId>, status: Status)
  {
    handler.None? && status == AppOrders.Pending
  }

  /** `clean`: a handler, when set, must be a user who may handle orders. */
  predicate CleanHandler(handler: Option<Principal>)
  {
    handler.None? || CanBeAssignedTo(handler.value)
  }

  /** Why an assignment was refused (both are `ValidationError`s in the source). */
  datatype AssignError = NotAHandler | AlreadyAssigned

  /** The columns the assignment operations and `save` touch. */
  datatype OrderState = OrderState(handler: Option<UserId>, status: Status, isAssigned: bool, assignedAt: Option<Time>)

  /** `save`: `is_assigned` follows the handler; `assigned_at` is stamped when missing and cleared without a handler. */
  function Saved(s: OrderState, now: Time): (r: OrderState)
    ensures r.handler == s.handler && r.status == s.status
    ensures r.isAssigned <==> s.handler.Some?
    ensures r.assignedAt.Some? <==> s.handler.Some?
    ensures s.handler.Some? && s.assignedAt.Some? ==> r.assignedAt == s.assignedAt
    ensures s.handler.Some? && s.assignedAt.None? ==> r.assignedAt == Some(now)
  {
    var stamped := if s.handler.Some? && s.assignedAt.None? then Some(now) else s.assignedAt;
    OrderState(s.handler, s.status, s.handler.Some?, if s.handler.None? then None else stamped)
  }

  /** `assign_to_staff_orders_handler`: refused for a user who may not handle orders, then for an order that
      already has a handler (whoever it is); otherwise the user becomes the handler, the order is in
      progress and stamped now. */
  function Assign(s: OrderState, user: Principal, now: Time): (r: Result)
  {
    if !CanBeAssignedTo(user) then Refused(NotAHandler)
    else if s.handler.Some? then Refused(AlreadyAssigned)
    else Done(Saved(OrderState(Some(user.id), AppOrders.InProgress, s.isAssigned, Some(now)), now))
  }

  datatype Result = Done(state: OrderState) | Refused(error: AssignError)

  /** `unassign_order`: handler and timestamp cleared, status back to pending whatever it was. */
  function Unassign(s: OrderState, now: Time): OrderState
  {
    Saved(OrderState(None, AppOrders.Pending, s.isAssigned, None), now)
  }

  /** The outcome of an assignment, case by case. */
  lemma AssignOutcome(s: OrderState, user: Principal, now: Time)
    ensures Assign(s, user, now).Refused? <==> !CanBeAssignedTo(user) || s.handler.Some?
    ensures !CanBeAssignedTo(user) ==> Assign(s, user, now) == Refused(NotAHandler)
    ensures CanBeAssignedTo(user) && s.handler.Some? ==> Assign(s, user, now) == Refused(AlreadyAssigned)
    ensures Assign(s, user, now).Done? ==>
      Assign(s, user, now).state == OrderState(Some(user.id), AppOrders.InProgress, true, Some(now))
  {
  }

  /** Even the current handler cannot be assigned a second time. */
  lemma NoReassignmentToSameUser(s: OrderState, user: Principal, now: Time)
    requires s.handler == Some(user.id)
    ensures Assign(s, user, now) != Done(s)
    ensures Assign(s, user, now).Refused?
  {
  }

  /** Unassigning always yields a pending, unassigned, unstamped order, even from completed or cancelled;
      after an unassign the order is available again and an eligible user can take it. */
  lemma UnassignThenAssign(s: OrderState, user: Principal, now: Time, later: Time)
    ensures Unassign(s, now) == OrderState(None, AppOrders.Pending, false, None)
    ensures AvailableForAssignment(Unassign(s, now).handler, Unassign(s, now).status)
    ensures CanBeAssignedTo(user) ==> Assign(Unassign(s, now), user, later).Done?
  {
  }

  /** An assignable order is exactly one that is pending without a handler; a successful assignment makes it
      unavailable. */
  lemma AssignmentConsumesAvailability(s: OrderState, user: Principal, now: Time)
    requires Assign(s, user, now).Done?
    ensures !AvailableForAssignment(Assign(s, user, now).state.handler, Assign(s, user, now).state.status)
  {
  }

  /** Whoever `assign_to_staff_orders_handler` accepts also passes the handler check of `clean`. */
  lemma AssignedHandlerIsClean(s: OrderState, user: Principal, now: Time)
    ensures Assign(s, user, now).Done? ==> CleanHandler(Some(user))
    ensures !CleanHandler(Some(user)) ==> Assign(s, user, now) == Refused(NotAHandler)
  {
  }

  /** An `Order` row of the custom back office with its lines. */
  class Order {
    var creator: Option<UserId>
    var handler: Option<UserId>
    var status: Status
    var isAssigned: bool
    var assignedAt: Option<Time>
    var items: seq<OrderItem>

    constructor (creator: Option<UserId>)
      ensures this.creator == creator && State() == OrderState(None, AppOrders.Pending, false, None) && items == []
    {
      this.creator := creator;
      handler := None;
      status := AppOrders.Pending;
      isAssigned := false;
      assignedAt := None;
      items := [];
    }

    function State(): OrderState
      reads this
    {
      OrderState(handler, status, isAssigned, assignedAt)
    }

    predicate IsAvailableForAssignment()
      reads this
    {
      AvailableForAssignment(handler, status)
    }

    method Save(now: Time)
      modifies this`isAssigned, this`assignedAt
      ensures State() == Saved(old(State()), now)
    {
      isAssigned := handler.Some?;
      if handler.Some? && assignedAt.None? {
        assignedAt := Some(now);
      }
      if handler.None? && assignedAt.Some? {
        assignedAt := None;
      }
    }

    method AssignToStaffOrdersHandler(user: Principal, now: Time) returns (error: Option<AssignError>)
      modifies this`handler, this`status, this`isAssigned, this`assignedAt
      ensures Assign(old(State()), user, now) == if error.Some? then Refused(error.value) else Done(State())
      ensures error.Some? ==> State() == old(State())
    {
      if !CanBeAssignedTo(user) {
        return Some(NotAHandler);
      }
      if handler.Some? {
        return Some(AlreadyAssigned);
      }
      handler := Some(user.id);
      status := AppOrders.InProgress;
      assignedAt := Some(now);
      Save(now);
      error := None;
    }

    method UnassignOrder(now: Time)
      modifies this`handler, this`status, this`isAssigned, this`assignedAt
      ensures State() == Unassign(old(State()), now)
    {
      handler := None;
      status := AppOrders.Pending;
      assignedAt := None;
      Save(now);
    }

    function GetTotalItems(): nat
      reads this
    {
      SumQuantities(items)
    }

    method GetTotalPrice() returns (total: int)
      ensures total == SumLineTotals(items)
    {
      total := 0;
      for i := 0 to |items|
        invariant total == SumLineTotals(items[..i])
      {
        assert items[..i + 1][..i] == items[..i];
        total := total + LineTotal(items[i]);
      }
      assert items[..|items|] == items;
    }
  }
}
