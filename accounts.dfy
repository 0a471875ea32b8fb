/** Users and groups (backend/core/accounts/models.py and signals.py): a user is staff exactly when it belongs
    to at least one group, kept so by a receiver of the group relation's change signal. The user table is a map
    from keys to rows; a `UserInstance` is a user object held in memory, whose `is_staff` may differ from its
    row. */
module Accounts {
  import opened Common

  /** A `Group` (a proxy of Django's group) and its `GroupDescription`. */
  datatype Group = Group(name: string)
  datatype GroupDescription = GroupDescription(group: Group, description: Option<string>)

  /** `Group.__str__` */
  function GroupStr(g: Group): string
  {
    g.name
  }

  /** `GroupDescription.__str__` */
  function DescriptionStr(d: GroupDescription): string
  {
    d.group.name
  }

  /** A group and its description print the same way: as the group's name. */
  lemma StringForms(d: GroupDescription)
    ensures DescriptionStr(d) == GroupStr(d.group) == d.group.name
  {
  }

  /** A row of the user table: the columns the staff rule reads or writes, and the user's groups. */
  datatype UserRow = UserRow(username: string, isSuperuser: bool, isStaff: bool, groups: set<string>)

  /** What `update_staff_status` writes: `is_staff` becomes whether the user has any group. */
  function StaffStatusUpdated(row: UserRow): UserRow
  {
    row.(isStaff := row.groups != {})
  }

  /** After the update the user is staff exactly when it has a group, superuser or not; only `is_staff`
      changes; and updating twice is updating once. */
  lemma StaffStatusRules(row: UserRow)
    ensures StaffStatusUpdated(row).isStaff <==> row.groups != {}
    ensures StaffStatusUpdated(row).(isStaff := row.isStaff) == row
    ensures StaffStatusUpdated(StaffStatusUpdated(row)) == StaffStatusUpdated(row)
    ensures row.isSuperuser && row.groups == {} ==> !StaffStatusUpdated(row).isStaff
  {
  }

  /** The `action` of the relation's change signal. */
  datatype M2MAction = PreAdd | PostAdd | PreRemove | PostRemove | PreClear | PostClear

  /** `update_user_staff_status`, as its effect on the table: the three post-actions recompute the staff flag
      of the user's row, every other action leaves the table alone. */
  function Dispatched(rows: map<UserId, UserRow>, pk: UserId, action: M2MAction): map<UserId, UserRow>
    requires pk in rows
  {
    if action in {PostAdd, PostRemove, PostClear} then rows[pk := StaffStatusUpdated(rows[pk])] else rows
  }

  /** A change of a user's groups through the relation: add or remove some groups, or clear them all. */
  datatype GroupChange = Add(added: set<string>) | Remove(removed: set<string>) | Clear

  function GroupsAfter(groups: set<string>, change: GroupChange): set<string>
  {
    match change
    case Add(added) => groups + added
    case Remove(removed) => groups - removed
    case Clear => {}
  }

  /** The pre- and post-actions each change takes place between. */
  function PreAction(change: GroupChange): M2MAction
  {
    match change
    case Add(_) => PreAdd
    case Remove(_) => PreRemove
    case Clear => PreClear
  }

  function PostAction(change: GroupChange): M2MAction
  {
    match change
    case Add(_) => PostAdd
    case Remove(_) => PostRemove
    case Clear => PostClear
  }

  /** The pre-actions change nothing, the post-actions leave the user staff exactly when it has a group, and
      other users' rows are never touched. So after any completed add, remove or clear of a user's groups the
      user is staff exactly when its new group set is non-empty. */
  lemma DispatchRules(rows: map<UserId, UserRow>, pk: UserId, change: GroupChange)
    requires pk in rows
    ensures Dispatched(rows, pk, PreAction(change)) == rows
    ensures Dispatched(rows, pk, PostAction(change)).Keys == rows.Keys
    ensures Dispatched(rows, pk, PostAction(change))[pk].isStaff <==> rows[pk].groups != {}
    ensures forall k :: k in rows && k != pk ==> Dispatched(rows, pk, PostAction(change))[k] == rows[k]
    ensures var changed := rows[pk := rows[pk].(groups := GroupsAfter(rows[pk].groups, change))];
      (Dispatched(changed, pk, PostAction(change))[pk].isStaff <==> GroupsAfter(rows[pk].groups, change) != {})
  {
  }

  /** A user object in memory. */
  class UserInstance {
    const pk: UserId
    var isStaff: bool

    constructor (pk: UserId, isStaff: bool)
      ensures this.pk == pk && this.isStaff == isStaff
    {
      this.pk := pk;
      this.isStaff := isStaff;
    }
  }

  /** The user table. */
  class UserTable {
    var rows: map<UserId, UserRow>

    constructor ()
      ensures rows == map[]
    {
      rows := map[];
    }

    /** `User.update_staff_status` on an object whose row exists: the object's flag and the row's
        `is_staff` column are both set from the row's groups. */
    method UpdateStaffStatus(user: UserInstance)
      requires user.pk in rows
      modifies this, user
      ensures rows == old(rows)[user.pk := StaffStatusUpdated(old(rows)[user.pk])]
      ensures user.isStaff == (old(rows)[user.pk].groups != {})
    {
      user.isStaff := rows[user.pk].groups != {};
      rows := rows[user.pk := rows[user.pk].(isStaff := user.isStaff)];
    }

    /** `update_user_staff_status`: on `post_add` the signal's own object is updated; on `post_remove` and
        `post_clear` a freshly loaded object is, so the signal's object keeps its old flag in memory while its
        row is updated; any other action does nothing. */
    method OnGroupsChanged(instance: UserInstance, action: M2MAction)
      requires instance.pk in rows
      modifies this, instance
      ensures rows == Dispatched(old(rows), instance.pk, action)
      ensures instance.isStaff == if action == PostAdd then old(rows)[instance.pk].groups != {} else old(instance.isStaff)
    {
      if action == PostAdd {
        UpdateStaffStatus(instance);
      } else if action == PostRemove || action == PostClear {
        var user := new UserInstance(instance.pk, rows[instance.pk].isStaff);
        UpdateStaffStatus(user);
      }
    }

    /** `user.groups.add(...)`, `.remove(...)` or `.clear()`: the pre-action signal, the change of the
        relation, then the post-action signal. Afterwards the row is staff exactly when the user has a group,
        and no other row has changed. */
    method ChangeGroups(instance: UserInstance, change: GroupChange)
      requires instance.pk in rows
      modifies this, instance
      ensures instance.pk in rows && rows.Keys == old(rows).Keys
      ensures rows[instance.pk].groups == GroupsAfter(old(rows)[instance.pk].groups, change)
      ensures rows[instance.pk].isStaff <==> rows[instance.pk].groups != {}
      ensures rows[instance.pk] == StaffStatusUpdated(old(rows)[instance.pk].(groups := GroupsAfter(old(rows)[instance.pk].groups, change)))
      ensures forall k :: k in old(rows) && k != instance.pk ==> rows[k] == old(rows)[k]
    {
      OnGroupsChanged(instance, PreAction(change));
      var row := rows[instance.pk];
      rows := rows[instance.pk := row.(groups := GroupsAfter(row.groups, change))];
      OnGroupsChanged(instance, PostAction(change));
    }
  }
}
