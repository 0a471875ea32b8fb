/** Shared vocabulary: nullable values, users as seen by the permission checks, timestamps. */
module Common {

  /** A nullable value (a Python `None` or a nullable database column). */
  datatype Option<+T> = None | Some(value: T)

  /** Primary key of a user row. */
  type UserId = nat

  /** A point in time as returned by `timezone.now()`; the clock is a parameter of every operation that reads it. */
  type Time = int

  /** A user as the permission checks see it: its key, the superuser flag and the names of its groups. */
  datatype Principal = Principal(id: UserId, isSuperuser: bool, groups: set<string>)

  /** `user.groups.filter(name=g).exists()` */
  predicate InGroup(user: Principal, g: string)
  {
    g in user.groups
  }

  /** Python truthiness of a nullable integer column: `None` and `0` are false. */
  predicate Truthy(x: Option<int>)
  {
    x.Some? && x.value != 0
  }

  // Group names used by the order and article permission checks.
  const ORDERS_MANAGER := "ORDERS_MANAGER"
  const ORDERS_OPERATOR := "ORDERS_OPERATOR"
  const ORDERS_HANDLER := "ORDERS_HANDLER"
  const ARTICLES_MANAGER := "ARTICLES_MANAGER"
  const ARTICLES_OPERATOR := "ARTICLES_OPERATOR"
}
