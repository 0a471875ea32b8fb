/** The back-office admin of the custom order app (backend/custom/orders/admin.py): the same visibility and
    creator rules as the dashboard admin, with ORDERS_HANDLER as the group that sees only its own orders,
    and permissions that reserve changes and deletions to managers and additions to superusers. */
module CustomOrderAdmin {
  import opened Common
  import OrderAdmin

  /** `OrderAdmin.get_queryset` */
  function QuerysetScope(user: Principal): OrderAdmin.Scope
  {
    OrderAdmin.QuerysetScope(user, ORDERS_HANDLER)
  }

  /** `has_change_permission`; the order itself plays no part. */
  predicate HasChangePermission(user: Principal)
  {
    user.isSuperuser || InGroup(user, ORDERS_MANAGER)
  }

  /** `has_delete_permission` delegates to the change permission. */
  predicate HasDeletePermission(user: Principal)
  {
    HasChangePermission(user)
  }

  /** `has_add_permission` */
  predicate HasAddPermission(user: Principal)
  {
    user.isSuperuser
  }

  /** Handlers see exactly the orders they handle, and only superusers and managers see the others. */
  lemma HandlerVisibility(user: Principal, handler: Option<UserId>)
    ensures !user.isSuperuser && !InGroup(user, ORDERS_MANAGER) ==>
      (OrderAdmin.Visible(user, ORDERS_HANDLER, handler) <==> InGroup(user, ORDERS_HANDLER) && handler == Some(user.id))
    ensures QuerysetScope(user) == OrderAdmin.AllOrders <==> user.isSuperuser || InGroup(user, ORDERS_MANAGER)
  {
    OrderAdmin.VisibilityByRole(user, ORDERS_HANDLER, handler);
  }

  /** Changing and deleting go together and need the manager role (or superuser); a handler who is not a
      manager can do neither, even on its own orders; whoever may add may also change; and whoever may change
      sees every order. */
  lemma PermissionsByRole(user: Principal)
    ensures HasDeletePermission(user) <==> HasChangePermission(user)
    ensures InGroup(user, ORDERS_HANDLER) && !InGroup(user, ORDERS_MANAGER) && !user.isSuperuser ==>
      !HasChangePermission(user) && !HasDeletePermission(user) && !HasAddPermission(user)
    ensures HasAddPermission(user) ==> HasChangePermission(user)
    ensures HasChangePermission(user) <==> QuerysetScope(user) == OrderAdmin.AllOrders
  {
  }

  /** `save_model` sets the creator as the dashboard admin does: an order added here always has a creator
      afterwards, and a creator already set, or any edit of an existing order, is left alone. */
  lemma CreatorOnAdd(change: bool, creator: Option<UserId>, requester: UserId)
    ensures !change ==> OrderAdmin.CreatorOnSave(change, creator, requester).Some?
    ensures change || creator.Some? ==> OrderAdmin.CreatorOnSave(change, creator, requester) == creator
  {
    OrderAdmin.CreatorRule(change, creator, requester);
  }
}
