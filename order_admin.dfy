/** The dashboard admin of the shop app's orders (api/dashboard/orders/admin.py): which inline fields are
    editable, the completion summary shown in the order list, which orders a user may see, who becomes the
    creator of an order added in the admin, and the guarded single and bulk deletion of order lines.
    The two tables the admin works on (orders and order lines) are maps from primary keys to rows. */
module OrderAdmin {
  import opened Common
  import Text
  import AppOrders

  type OrderId = string
  type ItemId = nat

  // ---------------------------------------------------------------------------------------------------
  // Field selectors. `orderAssigned` stands for the `obj` argument: `None` on an add page, otherwise the
  // `is_assigned` column of the order the page is about.

  /** `OrderItemInline.get_fields` */
  function InlineFields(orderAssigned: Option<bool>): seq<string>
  {
    if orderAssigned.None? || !orderAssigned.value then ["item", "quantity", "price_at_time", "total_price"]
    else ["item", "quantity", "price_at_time", "total_price", "is_completed"]
  }

  /** `OrderItemInline.get_readonly_fields`: the class's read-only fields, plus the completion flag while the
      order is new or unassigned. */
  function InlineReadonlyFields(orderAssigned: Option<bool>): seq<string>
  {
    ["price_at_time", "total_price"] + (if orderAssigned.None? || !orderAssigned.value then ["is_completed"] else [])
  }

  /** `OrderItemInline.get_min_num` */
  function InlineMinNum(orderAssigned: Option<bool>): nat
  {
    if orderAssigned.None? then 1 else 0
  }

  /** In the inline, the completion flag can be edited exactly on an existing assigned order; prices are never
      editable; and a new order must be created with at least one line. */
  lemma InlineCompletionEditableOnlyWhenAssigned(orderAssigned: Option<bool>)
    ensures ("is_completed" in InlineFields(orderAssigned) && "is_completed" !in InlineReadonlyFields(orderAssigned))
            <==> orderAssigned == Some(true)
    ensures "is_completed" in InlineReadonlyFields(orderAssigned) <==> orderAssigned != Some(true)
    ensures "price_at_time" in InlineReadonlyFields(orderAssigned) && "total_price" in InlineReadonlyFields(orderAssigned)
    ensures InlineMinNum(orderAssigned) == 1 <==> orderAssigned.None?
  {
    var fields := InlineFields(orderAssigned);
    var ro := InlineReadonlyFields(orderAssigned);
    if orderAssigned == Some(true) {
      assert fields[4] == "is_completed";
      assert ro == ["price_at_time", "total_price"];
    } else {
      assert ro[2] == "is_completed";
    }
  }

  /** `OrderItemAdmin.get_readonly_fields`; here `orderAssigned` is `None` on the add page and otherwise the
      `is_assigned` column of the line's order. */
  function ItemReadonlyFields(orderAssigned: Option<bool>): seq<string>
  {
    ["price_at_time", "total_price"]
    + (if orderAssigned.None? || !orderAssigned.value then ["is_completed"] else [])
    + (if orderAssigned.Some? then ["order", "item"] else [])
  }

  /** On the line admin the completion flag is read-only unless the line exists and its order is assigned,
      and an existing line can never be moved to another order or stock item. */
  lemma ItemReadonlyCases(orderAssigned: Option<bool>)
    ensures "is_completed" in ItemReadonlyFields(orderAssigned) <==> orderAssigned != Some(true)
    ensures "order" in ItemReadonlyFields(orderAssigned) <==> orderAssigned.Some?
    ensures "item" in ItemReadonlyFields(orderAssigned) <==> orderAssigned.Some?
    ensures "price_at_time" in ItemReadonlyFields(orderAssigned) && "total_price" in ItemReadonlyFields(orderAssigned)
  {
    var ro := ItemReadonlyFields(orderAssigned);
    match orderAssigned {
      case None =>
        assert ro == ["price_at_time", "total_price", "is_completed"];
      case Some(true) =>
        assert ro == ["price_at_time", "total_price", "order", "item"];
      case Some(false) =>
        assert ro == ["price_at_time", "total_price", "is_completed", "order", "item"];
    }
  }

  // ---------------------------------------------------------------------------------------------------
  // Completion summary of the order list.

  /** `obj.items.filter(is_completed=True).count()` */
  function CompletedCount(items: seq<AppOrders.OrderItem>): nat
  {
    if items == [] then 0
    else CompletedCount(items[..|items| - 1]) + (if items[|items| - 1].isCompleted then 1 else 0)
  }

  /** The completed count never exceeds the line count, and reaches it exactly when no line is open; so for a
      non-empty order it agrees with `are_all_items_completed`. */
  lemma {:induction false} CompletedCountBounds(items: seq<AppOrders.OrderItem>)
    ensures CompletedCount(items) <= |items|
    ensures CompletedCount(items) == |items| <==> forall i :: 0 <= i < |items| ==> items[i].isCompleted
    ensures AppOrders.AllItemsCompleted(items) <==> items != [] && CompletedCount(items) == |items|
  {
    if items != [] {
      var init := items[..|items| - 1];
      CompletedCountBounds(init);
      assert forall i :: 0 <= i < |init| ==> init[i] == items[i];
    }
  }

  const ITEMS_COMPLETED := " items completed"

  /** `OrderAdmin.completion_status` */
  function CompletionStatus(items: seq<AppOrders.OrderItem>): string
  {
    if |items| == 0 then "No items"
    else Text.NatToString(CompletedCount(items)) + "/" + Text.NatToString(|items|) + ITEMS_COMPLETED
  }

  /** The number of leading digits of a text. */
  function LeadingDigits(s: string): (n: nat)
    ensures n <= |s|
  {
    if s == [] || !Text.IsDigit(s[0]) then 0 else 1 + LeadingDigits(s[1..])
  }

  /** In "digits/rest" the digits are exactly the text before the slash. */
  lemma {:induction false} LeadingDigitsBeforeSlash(a: string, b: string, c: string)
    requires Text.AllDigits(a)
    ensures LeadingDigits(a + "/" + b + c) == |a|
  {
    if a != [] {
      LeadingDigitsBeforeSlash(a[1..], b, c);
      assert (a + "/" + b + c)[1..] == a[1..] + "/" + b + c;
    }
  }

  /** A text "a/b" followed by a fixed ending, with `a` made of digits, determines `a` and `b`. */
  lemma SplitAtSlash(a1: string, b1: string, a2: string, b2: string, c: string)
    requires Text.AllDigits(a1) && Text.AllDigits(a2)
    requires a1 + "/" + b1 + c == a2 + "/" + b2 + c
    ensures a1 == a2 && b1 == b2
  {
    var s := a1 + "/" + b1 + c;
    LeadingDigitsBeforeSlash(a1, b1, c);
    LeadingDigitsBeforeSlash(a2, b2, c);
    assert a1 == s[..|a1|];
    assert a2 == s[..|a2|];
    assert b1 == s[|a1| + 1..|s| - |c|];
    assert b2 == s[|a2| + 1..|s| - |c|];
  }

  /** The two numbers of a "c/t items completed" text can be read back from it. */
  lemma FractionTextInjective(c1: nat, t1: nat, c2: nat, t2: nat)
    requires Text.NatToString(c1) + "/" + Text.NatToString(t1) + ITEMS_COMPLETED
          == Text.NatToString(c2) + "/" + Text.NatToString(t2) + ITEMS_COMPLETED
    ensures c1 == c2 && t1 == t2
  {
    SplitAtSlash(Text.NatToString(c1), Text.NatToString(t1), Text.NatToString(c2), Text.NatToString(t2), ITEMS_COMPLETED);
    Text.NatToStringInjective(c1, c2);
    Text.NatToStringInjective(t1, t2);
  }

  /** An order with lines never shows "No items": its text starts with a digit. */
  lemma StatusWithLinesStartsWithDigit(items: seq<AppOrders.OrderItem>)
    requires items != []
    ensures Text.IsDigit(CompletionStatus(items)[0]) && CompletionStatus(items) != "No items"
  {
    assert CompletionStatus(items)[0] == Text.NatToString(CompletedCount(items))[0];
    assert "No items"[0] == 'N';
  }

  /** "No items" is shown exactly for an order without lines; otherwise the text determines both the number
      of completed lines and the number of lines, the first never above the second. */
  lemma CompletionStatusFaithful(items: seq<AppOrders.OrderItem>, others: seq<AppOrders.OrderItem>)
    ensures CompletionStatus(items) == "No items" <==> items == []
    ensures CompletionStatus(items) == CompletionStatus(others) ==>
      |items| == |others| && CompletedCount(items) == CompletedCount(others)
    ensures CompletedCount(items) <= |items|
  {
    CompletedCountBounds(items);
    if items != [] {
      StatusWithLinesStartsWithDigit(items);
    }
    if others != [] {
      StatusWithLinesStartsWithDigit(others);
    }
    if CompletionStatus(items) == CompletionStatus(others) && items != [] && others != [] {
      FractionTextInjective(CompletedCount(items), |items|, CompletedCount(others), |others|);
    }
  }

  // ---------------------------------------------------------------------------------------------------
  // Visibility and creator. The back-office admin of the custom order app applies the same rules with a
  // different scoped group, so both take the group as a parameter.

  /** The rows `get_queryset` returns: all orders, those handled by one user, or none. */
  datatype Scope = AllOrders | HandledBy(user: UserId) | NoOrders

  /** `OrderAdmin.get_queryset`, with the group whose members see only the orders they handle. */
  function QuerysetScope(user: Principal, scopedGroup: string): Scope
  {
    if user.isSuperuser then AllOrders
    else if InGroup(user, ORDERS_MANAGER) then AllOrders
    else if InGroup(user, scopedGroup) then HandledBy(user.id)
    else NoOrders
  }

  /** Whether an order with the given handler is in the user's queryset. */
  predicate Visible(user: Principal, scopedGroup: string, handler: Option<UserId>)
  {
    match QuerysetScope(user, scopedGroup)
    case AllOrders => true
    case HandledBy(u) => handler == Some(u)
    case NoOrders => false
  }

  /** Superusers and managers see every order; a member of the scoped group only those it handles; anyone
      else none. In particular an order without a handler is visible only to superusers and managers. */
  lemma VisibilityByRole(user: Principal, scopedGroup: string, handler: Option<UserId>)
    ensures user.isSuperuser || InGroup(user, ORDERS_MANAGER) ==> Visible(user, scopedGroup, handler)
    ensures !user.isSuperuser && !InGroup(user, ORDERS_MANAGER) ==>
      (Visible(user, scopedGroup, handler) <==> InGroup(user, scopedGroup) && handler == Some(user.id))
    ensures handler.None? ==> (Visible(user, scopedGroup, handler) <==> user.isSuperuser || InGroup(user, ORDERS_MANAGER))
  {
  }

  /** The handler check of `Order.clean` and this admin's list agree: a handler `clean` accepts sees the
      orders it handles; outside the manager group the converse holds too, so a user `clean` refuses and who is
      no manager sees none of the orders assigned to it. */
  lemma CleanHandlerSeesOwnOrders(user: Principal)
    ensures AppOrders.ValidHandler(Some(user)) ==> Visible(user, ORDERS_OPERATOR, Some(user.id))
    ensures !InGroup(user, ORDERS_MANAGER) ==>
      (AppOrders.ValidHandler(Some(user)) <==> Visible(user, ORDERS_OPERATOR, Some(user.id)))
    ensures AppOrders.ValidHandler(None)
  {
  }

  /** Joining the manager group never hides an order. */
  lemma ManagerSeesMore(user: Principal, scopedGroup: string, handler: Option<UserId>)
    ensures Visible(user, scopedGroup, handler) ==>
      Visible(user.(groups := user.groups + {ORDERS_MANAGER}), scopedGroup, handler)
  {
  }

  /** `save_model`: on the add page an order without a creator gets the requesting user. */
  function CreatorOnSave(change: bool, creator: Option<UserId>, requester: UserId): Option<UserId>
  {
    if !change && creator.None? then Some(requester) else creator
  }

  /** An added order always ends up with a creator; a creator already set, or any change of an existing
      order, is never touched. */
  lemma CreatorRule(change: bool, creator: Option<UserId>, requester: UserId)
    ensures !change ==> CreatorOnSave(change, creator, requester).Some?
    ensures change || creator.Some? ==> CreatorOnSave(change, creator, requester) == creator
    ensures CreatorOnSave(change, creator, requester) != creator ==> !change && creator.None?
  {
  }

  // ---------------------------------------------------------------------------------------------------
  // The order and order-line tables.

  /** A row of the order-line table: the order it belongs to and the line itself. */
  datatype ItemRow = ItemRow(order: OrderId, line: AppOrders.OrderItem)

  type Orders = map<OrderId, AppOrders.OrderState>
  type Items = map<ItemId, ItemRow>

  /** Every line belongs to a stored order (the foreign key). */
  predicate Linked(orders: Orders, items: Items)
  {
    forall k :: k in items ==> items[k].order in orders
  }

  /** `order.items`: the keys of the lines of order `o`. */
  function LinesOf(items: Items, o: OrderId): set<ItemId>
  {
    set k | k in items && items[k].order == o
  }

  /** `order.are_all_items_completed()` read off the line table. */
  predicate LinesCompleted(items: Items, o: OrderId)
  {
    LinesOf(items, o) != {} && forall k :: k in items && items[k].order == o ==> items[k].line.isCompleted
  }

  /** The orders after `order.save()` on each order of `affected`, against the line table `items`. */
  function Resaved(orders: Orders, affected: set<OrderId>, items: Items, now: Time): (r: Orders)
    ensures r.Keys == orders.Keys
  {
    map o | o in orders :: if o in affected then AppOrders.Saved(orders[o], false, LinesCompleted(items, o), now) else orders[o]
  }

  /** Removing one line takes exactly that line out of its order. */
  lemma LinesAfterRemove(items: Items, k: ItemId, o: OrderId)
    ensures LinesOf(items - {k}, o) == LinesOf(items, o) - {k}
  {
  }

  /** `OrderItemAdmin.delete_model`: refused (nothing changes) when the line is the last of its order;
      otherwise the line is deleted and its order re-saved. The flag says whether it was deleted. */
  function DeleteLine(orders: Orders, items: Items, k: ItemId, now: Time): (Orders, Items, bool)
    requires k in items
  {
    var o := items[k].order;
    if |LinesOf(items, o)| == 1 then (orders, items, false)
    else var rest := items - {k}; (Resaved(orders, {o}, rest, now), rest, true)
  }

  /** A single delete never leaves an order without lines, and it goes through exactly when the order has
      another line. */
  lemma DeleteLineKeepsOrdersNonEmpty(orders: Orders, items: Items, k: ItemId, now: Time)
    requires k in items
    ensures DeleteLine(orders, items, k, now).2 <==> |LinesOf(items, items[k].order)| >= 2
    ensures forall o :: LinesOf(items, o) != {} ==> LinesOf(DeleteLine(orders, items, k, now).1, o) != {}
  {
    var ko := items[k].order;
    assert k in LinesOf(items, ko);
    forall o | LinesOf(items, o) != {}
      ensures LinesOf(DeleteLine(orders, items, k, now).1, o) != {}
    {
      if |LinesOf(items, ko)| != 1 {
        LinesAfterRemove(items, k, o);
        if o == ko {
          assert |LinesOf(items, o) - {k}| == |LinesOf(items, o)| - 1;
        } else {
          assert k !in LinesOf(items, o);
        }
      }
    }
  }

  /** The set of selected line keys. */
  function Selection(selected: seq<ItemId>): set<ItemId>
  {
    set k | k in selected
  }

  predicate AllStored(items: Items, selected: seq<ItemId>)
  {
    forall i :: 0 <= i < |selected| ==> selected[i] in items
  }

  /** A queryset holds each row once. */
  predicate Distinct(selected: seq<ItemId>)
  {
    forall i, j :: 0 <= i < j < |selected| ==> selected[i] != selected[j]
  }

  /** `items_to_delete` of order `o`: how many selected lines belong to it. */
  function SelectedCount(items: Items, selected: seq<ItemId>, o: OrderId): nat
    requires AllStored(items, selected)
  {
    if selected == [] then 0
    else SelectedCount(items, selected[..|selected| - 1], o) + (if items[selected[|selected| - 1]].order == o then 1 else 0)
  }

  /** The keys of `orders_to_check`, in the order a dictionary keeps them: each order the first time one of
      its lines is selected. */
  function FirstSeen(items: Items, selected: seq<ItemId>): seq<OrderId>
    requires AllStored(items, selected)
  {
    if selected == [] then []
    else
      var prev := FirstSeen(items, selected[..|selected| - 1]);
      var o := items[selected[|selected| - 1]].order;
      if o in prev then prev else prev + [o]
  }

  /** `problem_orders`: the orders among `keys` whose selected count equals their line count. */
  function Flagged(items: Items, selected: seq<ItemId>, keys: seq<OrderId>): seq<OrderId>
    requires AllStored(items, selected)
  {
    if keys == [] then []
    else
      var o := keys[|keys| - 1];
      Flagged(items, selected, keys[..|keys| - 1]) + (if |LinesOf(items, o)| == SelectedCount(items, selected, o) then [o] else [])
  }

  /** The set of orders a bulk delete re-saves (`orders_to_update`). */
  function Affected(items: Items, selected: seq<ItemId>): set<OrderId>
    requires AllStored(items, selected)
  {
    set i | 0 <= i < |selected| :: items[selected[i]].order
  }

  /** The lines left after the selected ones are deleted. */
  function Remove(items: Items, selected: seq<ItemId>): Items
  {
    map k | k in items && k !in selected :: items[k]
  }

  lemma AllStoredPrefix(items: Items, selected: seq<ItemId>, n: nat)
    requires AllStored(items, selected) && n <= |selected|
    ensures AllStored(items, selected[..n])
  {
  }

  /** An order is among the first-seen keys exactly when some selected line belongs to it, and each key
      appears once. */
  lemma {:induction false} FirstSeenMembers(items: Items, selected: seq<ItemId>, o: OrderId)
    requires AllStored(items, selected)
    ensures o in FirstSeen(items, selected) <==> SelectedCount(items, selected, o) > 0
    ensures forall i, j :: 0 <= i < j < |FirstSeen(items, selected)| ==> FirstSeen(items, selected)[i] != FirstSeen(items, selected)[j]
  {
    if selected != [] {
      FirstSeenMembers(items, selected[..|selected| - 1], o);
    }
  }

  /** The first-seen keys are the orders `orders_to_update` collects. */
  lemma FirstSeenIsAffected(items: Items, selected: seq<ItemId>)
    requires AllStored(items, selected)
    ensures (set o | o in FirstSeen(items, selected)) == Affected(items, selected)
  {
    forall o
      ensures o in FirstSeen(items, selected) <==> o in Affected(items, selected)
    {
      FirstSeenMembers(items, selected, o);
      SelectedCountPositive(items, selected, o);
    }
  }

  /** An order has selected lines exactly when one of the selected lines belongs to it. */
  lemma {:induction false} SelectedCountPositive(items: Items, selected: seq<ItemId>, o: OrderId)
    requires AllStored(items, selected)
    ensures SelectedCount(items, selected, o) > 0 <==> o in Affected(items, selected)
  {
    if selected != [] {
      var init := selected[..|selected| - 1];
      SelectedCountPositive(items, init, o);
      assert Affected(items, selected) == Affected(items, init) + {items[selected[|selected| - 1]].order} by {
        assert forall j :: 0 <= j < |init| ==> init[j] == selected[j];
      }
    }
  }

  /** For a selection without repeats, the selected count of an order is the number of its lines that are
      selected. */
  lemma {:induction false} SelectedCountIsCardinality(items: Items, selected: seq<ItemId>, o: OrderId)
    requires AllStored(items, selected) && Distinct(selected)
    ensures SelectedCount(items, selected, o) == |LinesOf(items, o) * Selection(selected)|
  {
    if selected == [] {
      assert Selection(selected) == {};
    } else {
      var init := selected[..|selected| - 1];
      var last := selected[|selected| - 1];
      AllStoredPrefix(items, selected, |selected| - 1);
      DistinctLast(selected);
      SelectedCountIsCardinality(items, init, o);
      SelectionLast(selected);
      assert last in items;
      var lines := LinesOf(items, o);
      assert last in lines <==> items[last].order == o;
      MeetOneMore(lines, Selection(init), last);
    }
  }

  /** The selection of a non-empty sequence is that of all but its last element, plus the last. */
  lemma SelectionLast(selected: seq<ItemId>)
    requires selected != []
    ensures Selection(selected) == Selection(selected[..|selected| - 1]) + {selected[|selected| - 1]}
  {
    assert selected == selected[..|selected| - 1] + [selected[|selected| - 1]];
  }

  /** Adding an element outside `s` to `s` adds it to the meet with `l` exactly when it is in `l`. */
  lemma MeetOneMore<T>(l: set<T>, s: set<T>, x: T)
    requires x !in s
    ensures x in l ==> |l * (s + {x})| == |l * s| + 1
    ensures x !in l ==> l * (s + {x}) == l * s
  {
    if x in l {
      assert l * (s + {x}) == (l * s) + {x};
    }
  }

  /** Without repeats, the last selected line is not among the earlier ones, which have no repeats either. */
  lemma DistinctLast(selected: seq<ItemId>)
    requires selected != [] && Distinct(selected)
    ensures Distinct(selected[..|selected| - 1])
    ensures selected[|selected| - 1] !in Selection(selected[..|selected| - 1])
  {
  }

  lemma {:induction false} FlaggedMembers(items: Items, selected: seq<ItemId>, keys: seq<OrderId>, o: OrderId)
    requires AllStored(items, selected)
    ensures o in Flagged(items, selected, keys) <==> o in keys && |LinesOf(items, o)| == SelectedCount(items, selected, o)
  {
    if keys != [] {
      FlaggedMembers(items, selected, keys[..|keys| - 1], o);
      assert keys == keys[..|keys| - 1] + [keys[|keys| - 1]];
    }
  }

  /** A subset is no larger than its superset. */
  lemma {:induction false} SubsetNoLarger<T>(a: set<T>, b: set<T>)
    requires a <= b
    ensures |a| <= |b|
  {
    if a != {} {
      var x :| x in a;
      SubsetNoLarger(a - {x}, b - {x});
    }
  }

  /** A subset as large as its superset is the superset. */
  lemma SubsetOfSameSize<T>(a: set<T>, b: set<T>)
    requires a <= b && |a| == |b|
    ensures a == b
  {
    if a != b {
      var x :| x in b && x !in a;
      SubsetNoLarger(a, b - {x});
    }
  }

  /** The orders a bulk delete refuses, in the order they are reported. */
  function ProblemOrders(items: Items, selected: seq<ItemId>): seq<OrderId>
    requires AllStored(items, selected)
  {
    Flagged(items, selected, FirstSeen(items, selected))
  }

  /** The refusal lists exactly the orders the deletion would leave without lines (and that had some). */
  lemma ProblemOrdersExact(items: Items, selected: seq<ItemId>, o: OrderId)
    requires AllStored(items, selected) && Distinct(selected)
    ensures o in ProblemOrders(items, selected) <==> LinesOf(items, o) != {} && LinesOf(Remove(items, selected), o) == {}
  {
    FirstSeenMembers(items, selected, o);
    FlaggedMembers(items, selected, FirstSeen(items, selected), o);
    SelectedCountIsCardinality(items, selected, o);
    var lines := LinesOf(items, o);
    var hit := lines * Selection(selected);
    assert LinesOf(Remove(items, selected), o) == lines - Selection(selected);
    if |lines| == |hit| {
      SubsetOfSameSize(hit, lines);
    }
    if lines != {} && lines - Selection(selected) == {} {
      assert hit == lines;
    }
  }

  /** A bulk delete that is not refused leaves every order that had lines with at least one. */
  lemma BulkDeleteKeepsOrdersNonEmpty(items: Items, selected: seq<ItemId>)
    requires AllStored(items, selected) && Distinct(selected)
    requires ProblemOrders(items, selected) == []
    ensures forall o :: LinesOf(items, o) != {} ==> LinesOf(Remove(items, selected), o) != {}
  {
    forall o | LinesOf(items, o) != {}
      ensures LinesOf(Remove(items, selected), o) != {}
    {
      ProblemOrdersExact(items, selected, o);
    }
  }

  /** `OrderItemAdmin.save_model` announces an automatic completion when an edit of a line turns its order
      from any other status to completed. */
  predicate AnnouncesCompletion(change: bool, oldStatus: AppOrders.Status, newStatus: AppOrders.Status)
  {
    change && oldStatus != AppOrders.Completed && newStatus == AppOrders.Completed
  }

  /** The announcement appears exactly when an edit completes the last open line of an order that was
      neither completed nor cancelled. */
  lemma AnnouncementMeansJustCompleted(change: bool, s: AppOrders.OrderState, allCompleted: bool, now: Time)
    ensures AnnouncesCompletion(change, s.status, AppOrders.Saved(s, false, allCompleted, now).status)
        <==> change && allCompleted && !AppOrders.Terminal(s.status)
  {
  }

  /** The tables after `save_formset` stores its changed and new lines for order `o`: each line is stored
      with its price snapshot, and each store re-saves the order (`OrderItem.save` ends with
      `self.order.save()`). Only order `o` is touched. */
  function StoreLines(orders: Orders, items: Items, o: OrderId, instances: seq<(ItemId, AppOrders.OrderItem)>, now: Time)
    : (r: (Orders, Items))
    requires o in orders
    ensures r.0.Keys == orders.Keys
    ensures forall p :: p in orders && p != o ==> r.0[p] == orders[p]
  {
    if instances == [] then (orders, items)
    else
      var (orders', items') := StoreLines(orders, items, o, instances[..|instances| - 1], now);
      var (k, line) := instances[|instances| - 1];
      var items'' := items'[k := ItemRow(o, AppOrders.Snapshot(line))];
      (orders'[o := AppOrders.Saved(orders'[o], false, LinesCompleted(items'', o), now)], items'')
  }

  /** After `save_formset` the order is settled: its assignment columns agree with the handler, a further
      save changes nothing, and it is completed whenever all its lines are and it was not cancelled. */
  lemma FormsetLeavesOrderSettled(s: AppOrders.OrderState, items: Items, o: OrderId, now: Time, later: Time)
    ensures var r := AppOrders.Saved(s, false, LinesCompleted(items, o), now);
      (r.assignment.isAssigned <==> r.assignment.handler.Some?)
      && AppOrders.Saved(r, false, LinesCompleted(items, o), later) == r
      && (LinesCompleted(items, o) && s.status != AppOrders.Cancelled ==> r.status == AppOrders.Completed)
  {
    AppOrders.SavedExistingOrder(s, LinesCompleted(items, o), now, later);
  }

  /** What the first loop of `delete_queryset` has built so far: `orders_to_check` (each order's line count and
      number of selected lines), its keys in insertion order, and `orders_to_update`. */
  datatype Counting = Counting(toCheck: map<OrderId, (nat, nat)>, keys: seq<OrderId>, toUpdate: set<OrderId>)

  /** One iteration of the loop, for a selected line of order `o`. */
  function CountOne(items: Items, c: Counting, o: OrderId): Counting
  {
    var t := if o in c.toCheck then c.toCheck else c.toCheck[o := (|LinesOf(items, o)|, 0)];
    Counting(t[o := (t[o].0, t[o].1 + 1)], if o in c.toCheck then c.keys else c.keys + [o], c.toUpdate + {o})
  }

  /** The loop's result after the selected lines `selected`. */
  function Counted(items: Items, selected: seq<ItemId>): Counting
    requires AllStored(items, selected)
  {
    if selected == [] then Counting(map[], [], {})
    else CountOne(items, Counted(items, selected[..|selected| - 1]), items[selected[|selected| - 1]].order)
  }

  /** The loop keys the counts by first-seen order, counts every order's lines and selected lines, and
      collects the orders to re-save. */
  lemma CountedRules(items: Items, selected: seq<ItemId>)
    requires AllStored(items, selected)
    ensures var c := Counted(items, selected);
      c.keys == FirstSeen(items, selected)
      && c.toCheck.Keys == (set o | o in c.keys)
      && (forall o :: o in c.toCheck ==> c.toCheck[o] == (|LinesOf(items, o)|, SelectedCount(items, selected, o)))
      && c.toUpdate == Affected(items, selected)
  {
    CountedKeys(items, selected);
    CountedCounts(items, selected);
    CountedToUpdate(items, selected);
  }

  lemma {:induction false} CountedKeys(items: Items, selected: seq<ItemId>)
    requires AllStored(items, selected)
    ensures Counted(items, selected).keys == FirstSeen(items, selected)
    ensures Counted(items, selected).toCheck.Keys == (set o | o in Counted(items, selected).keys)
  {
    if selected != [] {
      var init := selected[..|selected| - 1];
      AllStoredPrefix(items, selected, |selected| - 1);
      CountedKeys(items, init);
      var before := Counted(items, init);
      var o := items[selected[|selected| - 1]].order;
      if o !in before.toCheck {
        KeySetAppend(before.keys, o);
      }
    }
  }

  lemma {:induction false} CountedCounts(items: Items, selected: seq<ItemId>)
    requires AllStored(items, selected)
    ensures var c := Counted(items, selected);
      forall o :: o in c.toCheck ==> c.toCheck[o] == (|LinesOf(items, o)|, SelectedCount(items, selected, o))
  {
    if selected != [] {
      var init := selected[..|selected| - 1];
      AllStoredPrefix(items, selected, |selected| - 1);
      CountedKeys(items, init);
      CountedCounts(items, init);
      var before := Counted(items, init);
      var after := Counted(items, selected);
      var o := items[selected[|selected| - 1]].order;
      forall p | p in after.toCheck
        ensures after.toCheck[p] == (|LinesOf(items, p)|, SelectedCount(items, selected, p))
      {
        assert SelectedCount(items, selected, p) == SelectedCount(items, init, p) + (if p == o then 1 else 0);
        if p != o {
          assert after.toCheck[p] == before.toCheck[p];
        } else if o !in before.toCheck {
          FirstSeenMembers(items, init, o);
          assert after.toCheck[o] == (|LinesOf(items, o)|, 1);
        } else {
          assert after.toCheck[o] == (before.toCheck[o].0, before.toCheck[o].1 + 1);
        }
      }
    }
  }

  lemma {:induction false} CountedToUpdate(items: Items, selected: seq<ItemId>)
    requires AllStored(items, selected)
    ensures Counted(items, selected).toUpdate == Affected(items, selected)
  {
    if selected != [] {
      var init := selected[..|selected| - 1];
      AllStoredPrefix(items, selected, |selected| - 1);
      CountedToUpdate(items, init);
      assert Affected(items, selected) == Affected(items, init) + {items[selected[|selected| - 1]].order} by {
        assert forall j :: 0 <= j < |init| ==> init[j] == selected[j];
      }
    }
  }

  /** The first loop of `delete_queryset`: `orders_to_check` (each order's line count and number of selected
      lines, keyed in first-seen order) and `orders_to_update`. */
  method CountSelection(items: Items, selected: seq<ItemId>)
    returns (toCheck: map<OrderId, (nat, nat)>, keys: seq<OrderId>, toUpdate: set<OrderId>)
    requires AllStored(items, selected)
    ensures keys == FirstSeen(items, selected)
    ensures toCheck.Keys == set o | o in keys
    ensures forall o :: o in toCheck ==> toCheck[o] == (|LinesOf(items, o)|, SelectedCount(items, selected, o))
    ensures toUpdate == Affected(items, selected)
  {
    toCheck, keys, toUpdate := map[], [], {};
    for i := 0 to |selected|
      invariant AllStored(items, selected[..i])
      invariant Counting(toCheck, keys, toUpdate) == Counted(items, selected[..i])
    {
      assert selected[..i + 1][..i] == selected[..i];
      var o := items[selected[i]].order;
      toUpdate := toUpdate + {o};
      if o !in toCheck {
        toCheck := toCheck[o := (|LinesOf(items, o)|, 0)];
        keys := keys + [o];
      }
      toCheck := toCheck[o := (toCheck[o].0, toCheck[o].1 + 1)];
    }
    assert selected[..|selected|] == selected;
    CountedRules(items, selected);
  }

  lemma KeySetAppend(keys: seq<OrderId>, o: OrderId)
    ensures (set p | p in keys + [o]) == (set p | p in keys) + {o}
  {
  }

  /** The second loop of `delete_queryset`: the orders whose line count equals their selected count. */
  method CollectProblems(items: Items, selected: seq<ItemId>, toCheck: map<OrderId, (nat, nat)>, keys: seq<OrderId>)
    returns (problems: seq<OrderId>)
    requires AllStored(items, selected)
    requires forall o :: o in keys ==> o in toCheck && toCheck[o] == (|LinesOf(items, o)|, SelectedCount(items, selected, o))
    ensures problems == Flagged(items, selected, keys)
  {
    problems := [];
    for j := 0 to |keys|
      invariant problems == Flagged(items, selected, keys[..j])
    {
      assert keys[..j + 1][..j] == keys[..j];
      if toCheck[keys[j]].0 == toCheck[keys[j]].1 {
        problems := problems + [keys[j]];
      }
    }
    assert keys[..|keys|] == keys;
  }

  /** The two tables. */
  class OrderDatabase {
    var orders: Orders
    var items: Items

    constructor ()
      ensures orders == map[] && items == map[]
    {
      orders := map[];
      items := map[];
    }

    predicate Valid()
      reads this
    {
      Linked(orders, items)
    }

    /** `OrderItemAdmin.delete_model` */
    method DeleteModel(k: ItemId, now: Time) returns (deleted: bool)
      requires Valid() && k in items
      modifies this
      ensures Valid()
      ensures (orders, items, deleted) == DeleteLine(old(orders), old(items), k, now)
    {
      var o := items[k].order;
      if |LinesOf(items, o)| == 1 {
        return false;
      }
      items := items - {k};
      orders := orders[o := AppOrders.Saved(orders[o], false, LinesCompleted(items, o), now)];
      assert orders == Resaved(old(orders), {o}, items, now);
      deleted := true;
    }

    /** `OrderItemAdmin.delete_queryset`: counts the selected lines per order, collects the orders it would
        empty, and either refuses (returning them, nothing changed) or deletes the selection and re-saves
        every order that lost a line. */
    method DeleteQueryset(selected: seq<ItemId>, now: Time) returns (problems: seq<OrderId>)
      requires Valid() && AllStored(items, selected)
      modifies this
      ensures Valid()
      ensures problems == ProblemOrders(old(items), selected)
      ensures problems != [] ==> orders == old(orders) && items == old(items)
      ensures problems == [] ==> (items == Remove(old(items), selected)
                                  && orders == Resaved(old(orders), Affected(old(items), selected), items, now))
    {
      var toCheck, keys, toUpdate := CountSelection(items, selected);
      problems := CollectProblems(items, selected, toCheck, keys);
      if problems != [] {
        return;
      }
      items := Remove(items, selected);
      FirstSeenIsAffected(old(items), selected);
      ResaveOrders(keys, now);
    }

    /** `OrderItemAdmin.save_model`: the line is stored with its price snapshot, its order re-saved, and the
        result says whether the "automatically marked as completed" message is shown. The order's status is
        read before the save only on the change page. An existing line keeps its order, which
        the change page shows read-only. */
    method SaveLine(k: ItemId, line: AppOrders.OrderItem, o: OrderId, change: bool, now: Time) returns (announce: bool)
      requires Valid() && o in orders
      requires k in items ==> items[k].order == o
      modifies this
      ensures Valid()
      ensures items == old(items)[k := ItemRow(o, AppOrders.Snapshot(line))]
      ensures orders == old(orders)[o := AppOrders.Saved(old(orders)[o], false, LinesCompleted(items, o), now)]
      ensures announce == AnnouncesCompletion(change, old(orders)[o].status, orders[o].status)
    {
      var oldStatus: Option<AppOrders.Status> := if change then Some(orders[o].status) else None;
      items := items[k := ItemRow(o, AppOrders.Snapshot(line))];
      orders := orders[o := AppOrders.Saved(orders[o], false, LinesCompleted(items, o), now)];
      announce := oldStatus.Some? && oldStatus.value != AppOrders.Completed && orders[o].status == AppOrders.Completed;
    }

    /** `OrderAdmin.save_formset` for order `o`: the changed and new lines are stored, the lines marked for
        deletion deleted (a plain delete, which does not re-save the order), and the order saved once more. */
    method SaveFormset(o: OrderId, instances: seq<(ItemId, AppOrders.OrderItem)>, deletedObjects: seq<ItemId>, now: Time)
      requires Valid() && o in orders
      modifies this
      ensures Valid()
      ensures items == Remove(StoreLines(old(orders), old(items), o, instances, now).1, deletedObjects)
      ensures var stored := StoreLines(old(orders), old(items), o, instances, now).0;
        orders == stored[o := AppOrders.Saved(stored[o], false, LinesCompleted(items, o), now)]
    {
      StoreFormsetLines(o, instances, now);
      DeleteObjects(deletedObjects);
      orders := orders[o := AppOrders.Saved(orders[o], false, LinesCompleted(items, o), now)];
    }

    /** The first loop of `save_formset`: each changed or new line is stored with its price snapshot, and
        each store re-saves order `o`. */
    method StoreFormsetLines(o: OrderId, instances: seq<(ItemId, AppOrders.OrderItem)>, now: Time)
      requires Valid() && o in orders
      modifies this
      ensures Valid() && o in orders
      ensures (orders, items) == StoreLines(old(orders), old(items), o, instances, now)
    {
      for i := 0 to |instances|
        invariant o in orders && Linked(orders, items)
        invariant (orders, items) == StoreLines(old(orders), old(items), o, instances[..i], now)
      {
        assert instances[..i + 1][..i] == instances[..i];
        var (k, line) := instances[i];
        items := items[k := ItemRow(o, AppOrders.Snapshot(line))];
        orders := orders[o := AppOrders.Saved(orders[o], false, LinesCompleted(items, o), now)];
      }
      assert instances[..|instances|] == instances;
    }

    /** `for obj in formset.deleted_objects: obj.delete()`: the lines are removed without re-saving their
        order. */
    method DeleteObjects(deletedObjects: seq<ItemId>)
      requires Valid()
      modifies this`items
      ensures Valid()
      ensures items == Remove(old(items), deletedObjects)
    {
      for i := 0 to |deletedObjects|
        invariant Linked(orders, items)
        invariant items == Remove(old(items), deletedObjects[..i])
      {
        assert forall k :: k in deletedObjects[..i + 1] <==> k in deletedObjects[..i] || k == deletedObjects[i];
        items := items - {deletedObjects[i]};
      }
      assert deletedObjects[..|deletedObjects|] == deletedObjects;
    }

    /** `for order in orders_to_update: order.save()` */
    method ResaveOrders(keys: seq<OrderId>, now: Time)
      requires Valid() && forall o :: o in keys ==> o in orders
      modifies this`orders
      ensures Valid()
      ensures orders == Resaved(old(orders), (set o | o in keys), items, now)
    {
      var done: set<OrderId> := {};
      for j := 0 to |keys|
        invariant orders.Keys == old(orders).Keys
        invariant done == set o | o in keys[..j]
        invariant orders == Resaved(old(orders), done, items, now)
      {
        var o := keys[j];
        ResavedAddOne(old(orders), done, o, items, now);
        orders := orders[o := AppOrders.Saved(orders[o], false, LinesCompleted(items, o), now)];
        assert keys[..j + 1] == keys[..j] + [o];
        done := done + {o};
      }
      assert keys[..|keys|] == keys;
    }
  }

  /** Re-saving one more order: a second save of the same order changes nothing. */
  lemma ResavedAddOne(orders: Orders, done: set<OrderId>, o: OrderId, items: Items, now: Time)
    requires o in orders
    ensures var cur := Resaved(orders, done, items, now);
      cur[o := AppOrders.Saved(cur[o], false, LinesCompleted(items, o), now)] == Resaved(orders, done + {o}, items, now)
  {
    if o in done {
      AppOrders.SavedExistingOrder(orders[o], LinesCompleted(items, o), now, now);
    }
  }
}
