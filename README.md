# bigpen inventory and order core, in Dafny

This project models the business core of the bigpen Django shop and back office: the stock ledger of a stock
item, the two order aggregates (the shop app's order with line completion and the custom order with explicit
staff assignment), the admin guards around orders and their lines, the stock status filter and badges, the
"at most one flagged row" rules of the contact addresses, unused-choice filtering, role-gated article
permissions and author selection, the staff flag kept in step with group membership, the group-permission
set-up commands, and the `<title>` template tag.

Every source file of the core has its own module:

| file | module | source |
|---|---|---|
| common.dfy | `Common` | shared types: `Option`, `Principal` (id, superuser flag, group names), role names |
| text.dfy | `Text` | string helpers: prefix, suffix, strip, join, upper-case, character removal |
| stock_ledger.dfy | `StockLedger` | app/stock/models.py |
| app_orders.dfy | `AppOrders` | app/orders/models.py |
| custom_orders.dfy | `CustomOrders` | backend/custom/orders/models.py |
| order_item_formset.dfy | `OrderItemFormset` | admin/dashboard/orders/forms.py |
| order_admin.dfy | `OrderAdmin` | api/dashboard/orders/admin.py |
| custom_order_admin.dfy | `CustomOrderAdmin` | backend/custom/orders/admin.py |
| stock_admin.dfy | `StockAdmin` | dashboard/stock/admin.py |
| addresses.dfy | `Addresses` | backend/core/addresses/models.py |
| unique_choices.dfy | `UniqueChoices` | backend/core/globals/mixins.py |
| articles.dfy | `Articles` | backend/core/articles/models.py |
| article_admin.dfy | `HomeArticleAdmin` | admin/home/articles/admin.py |
| core_article_admin.dfy | `CoreArticleAdmin` | backend/core/articles/admin.py |
| accounts.dfy | `Accounts` | backend/core/accounts/models.py and signals.py |
| setup_groups.dfy | `SetupGroups` | api/home/accounts/management/commands/setup_groups.py |
| base_tags.dfy | `BaseTags` | olyv/base/templatetags/base_tags.py |

Conventions. A database table is a `map` from keys to rows or a `seq` of rows; an object the source updates
in place (a stock item, an order, a user object, the permission store of a set-up command) is a `class` whose
methods are proved equal to a specification function on values, and the properties are lemmas about those
functions. Roles are a set of group names plus the superuser flag. Prices are whole numbers of the smallest
currency unit, and a nullable column is an `Option`. `timezone.now()`, the environment, the static URL
prefix, the installed apps and the set of known management commands are parameters. Python truthiness is
written out (`None`, `0` and `""` are false).

The stock ledger operations `reserve_stock`, `release_stock` and `consume_stock` are modelled on their own:
no code of the core calls them, so nothing here says that adding, deleting or completing an order line
reserves, releases or consumes stock.

## Behaviour of the code worth knowing

The model follows the code as written, including these points:

- Adding or deleting an order line neither reserves nor releases stock; a line's save only captures its price
  and saves its order (app/orders/models.py:183-191).
- The custom order refuses an assignment whenever a handler is set, even the same user, and sets the status to
  in progress directly rather than by a recompute (backend/custom/orders/models.py:94-108).
- Unassigning a custom order is allowed from any status, completed and cancelled included, and always leaves
  it pending (backend/custom/orders/models.py:110-115).
- The shop app's order recomputes its status only when its primary key was set before the save. The key is a
  UUID with a generated default, so in practice every save recomputes; the model keeps the test as written and
  gives every new order its key on construction (app/orders/models.py:13-19, 114-121).

Other behaviour of the code that the lemmas make visible:

- `HomeArticleAdmin.GuardsAgreeWithPermissions`: a superuser who is also an article operator is confined to
  their own articles by the permission checks, while the save and delete guards let them through.
- `Accounts.UserTable.OnGroupsChanged`: after `post_remove` or `post_clear` the receiver updates a freshly
  loaded copy of the user, so the object that sent the signal keeps its old `is_staff` in memory while the row
  is updated.
- `StockAdmin`: the list filter classifies by total quantity while the status badge classifies by available
  quantity, so the two can disagree for an item with reservations.
- `HomeArticleAdmin.SaveModelOutcome`: adding an article always makes the requester its author, overwriting
  any author the article already had.
- `OrderItemFormset.GuardSeesOnlyNewLines`: form validation copies each submitted `is_completed` onto the
  line's instance before the formset's `clean` runs, so the "assigned first" and "only the handler" checks of
  the formset (admin/dashboard/orders/forms.py:29-43) can only be set off by a new line created already
  completed. What keeps an existing line from being completed on an unassigned order is the inline showing
  `is_completed` read-only there (api/dashboard/orders/admin.py:17-33).

## Model

| member | source | states |
|---|---|---|
| StockLedger.Available | app/stock/models.py:113-116 | the available quantity is zero exactly when the reservations cover the total, never exceeds the total, and with the reservations makes up the total on a consistent ledger |
| StockLedger.Reserve | app/stock/models.py:142-148 | a reservation is granted exactly when it fits in the available quantity; a granted one adds to the reserved column only, a refused one changes nothing |
| StockLedger.Release | app/stock/models.py:150-153 | releasing lowers the reserved column by exactly the amount when more is reserved, to zero otherwise, and leaves the total alone |
| StockLedger.Consume | app/stock/models.py:155-162 | consuming succeeds exactly when the total covers the amount, then lowers the total by it and the reserved column by the amount or by all of it when less is reserved; a refusal changes nothing |
| StockLedger.ReservePreservesConsistency | app/stock/models.py:142-148 | a reservation never leaves more reserved than owned, and lowers availability by exactly what it granted |
| StockLedger.ReleaseUndoesReserve | app/stock/models.py:142-153 | releasing what was just reserved restores the ledger |
| StockLedger.ReleaseComposes | app/stock/models.py:150-153 | two releases equal one release of the sum; releasing from nothing reserved changes nothing |
| StockLedger.ReleasePreservesConsistency | app/stock/models.py:150-153 | a release keeps the ledger consistent and never lowers availability |
| StockLedger.ConsumePreservesConsistency | app/stock/models.py:155-162 | consuming keeps the ledger consistent |
| StockLedger.ConsumeReservedKeepsAvailability | app/stock/models.py:155-162 | consuming reserved stock succeeds and leaves the quantity available to others unchanged |
| StockLedger.ReserveAllNeverOversells | app/stock/models.py:142-148 | over any series of reservations the granted total never exceeds the starting availability, and consistency is kept |
| StockLedger.CurrentPrice | app/stock/models.py:128-133 | there is a price exactly when both the original price and the discount are set, and it is the original price less the discount |
| StockLedger.OrderBoundsZeroMeansUnset | app/stock/models.py:109-111 | the order bounds are rejected exactly when a non-zero maximum lies below the minimum; a missing or zero maximum accepts any minimum |
| StockLedger.StockItem.constructor | app/stock/models.py:62-104 | a new item starts with the column defaults: no stock, threshold 5, minimum order 1, no maximum, discount 0 |
| StockLedger.StockItem.ReserveStock | app/stock/models.py:142-148 | the item's columns and the returned flag are those of `Reserve` |
| StockLedger.StockItem.ReleaseStock | app/stock/models.py:150-153 | the item's columns become those of `Release` |
| StockLedger.StockItem.ConsumeStock | app/stock/models.py:155-162 | the item's columns and the returned flag are those of `Consume` |
| AppOrders.AllItemsCompletedCases | app/orders/models.py:86-90 | an order without lines is never complete; one open line makes it incomplete; completing the last open line makes it complete |
| AppOrders.RecomputedStatus | app/orders/models.py:92-99 | cancelled and completed orders keep their status; otherwise all lines completed gives completed, else in progress when assigned and pending when not |
| AppOrders.RecomputeIdempotentAndSticky | app/orders/models.py:92-99 | recomputing twice equals recomputing once, and a completed order stays completed even if a line reopens |
| AppOrders.SyncAssignment | app/orders/models.py:102-111 | after saving, the order is assigned exactly when it has a handler and stamped exactly when assigned; an existing stamp is kept and a missing one is the save time |
| AppOrders.SyncAssignmentIdempotent | app/orders/models.py:102-111 | a second save at a later time changes no assignment column, so the first assignment time survives |
| AppOrders.Saved | app/orders/models.py:101-121 | a save synchronises the assignment and, for an order that already existed, recomputes the status from the new assignment and the lines; a new order keeps its status |
| AppOrders.SavedExistingOrder | app/orders/models.py:101-121 | a saved existing order is consistent, cancelled and completed are kept, all lines done means completed, and saving again changes nothing |
| AppOrders.Snapshot | app/orders/models.py:183-188 | a line's price is captured from the item's current price only when it has no non-zero price yet and the item has a non-zero price; nothing else changes |
| AppOrders.SnapshotFreezesLineTotal | app/orders/models.py:183-197 | once captured, a line's total ignores later price changes of the item; a line saved without a usable price keeps following the item; the capture is idempotent |
| AppOrders.TotalsAdditive | app/orders/models.py:123-132 | the item count and the order total are sums over the lines, additive over any split of them |
| AppOrders.TotalsAfterReplace | app/orders/models.py:123-132 | changing one line changes both totals by exactly that line's difference |
| AppOrders.ShortId | app/orders/models.py:134-137 | the short id is the first eight characters of the id, upper-cased |
| AppOrders.ShortIdOfUuid | app/orders/models.py:134-137 | for a canonical UUID the short id is eight upper-case hexadecimal digits |
| AppOrders.Order.constructor | app/orders/models.py:14-68 | a new order has its generated key, the given creator, no handler, pending status, no assignment and no lines |
| AppOrders.Order.AreAllItemsCompleted | app/orders/models.py:86-90 | the loop answers true exactly when the order has lines and none is open |
| AppOrders.Order.UpdateStatusBasedOnItems | app/orders/models.py:92-99 | the new status is the recomputed status; nothing else changes |
| AppOrders.Order.Save | app/orders/models.py:101-121 | the order's columns become those of `Saved`, with the key kept or assigned |
| AppOrders.Order.SaveItem | app/orders/models.py:183-191 | the line is stored with its price captured, at its position or appended, and the order is then saved |
| AppOrders.Order.GetTotalPrice | app/orders/models.py:127-132 | the loop's total is the sum of the line totals |
| CustomOrders.Snapshot | backend/custom/orders/models.py:166-170 | a line's price is captured from the item's current price only when it has no non-zero price yet and the item has one; quantity and item are unchanged |
| CustomOrders.LineTotalAgreesWithShopApp | backend/custom/orders/models.py:166-176 | a line's total, before and after the capture, is the one the shop app's order computes for the same line |
| CustomOrders.Saved | backend/custom/orders/models.py:83-92 | after saving, the order is assigned exactly when it has a handler and stamped exactly when assigned; an existing stamp is kept and a missing one becomes the current time; handler and status are untouched |
| CustomOrders.AssignOutcome | backend/custom/orders/models.py:94-121 | an assignment is refused exactly when the user may not handle orders (checked first) or the order already has a handler; otherwise the order is assigned to the user, in progress, stamped now |
| CustomOrders.NoReassignmentToSameUser | backend/custom/orders/models.py:102-103 | an order already handled by a user cannot be assigned to that same user again |
| CustomOrders.UnassignThenAssign | backend/custom/orders/models.py:59-62 | unassigning gives a pending, unassigned, unstamped order from any status; it is then available, and any eligible user can take it |
| CustomOrders.AssignmentConsumesAvailability | backend/custom/orders/models.py:59-62 | after a successful assignment the order is no longer available for assignment |
| CustomOrders.AssignedHandlerIsClean | backend/custom/orders/models.py:69-81 | a user accepted by the assignment also passes the handler check of `clean`, and one refused by `clean` is refused as not a handler |
| CustomOrders.Order.constructor | backend/custom/orders/models.py:24-56 | a new order has the given creator, no handler, pending status, no assignment and no lines |
| CustomOrders.Order.Save | backend/custom/orders/models.py:83-92 | the order's columns become those of `Saved` |
| CustomOrders.Order.AssignToStaffOrdersHandler | backend/custom/orders/models.py:94-108 | the error returned and the new columns are those of `Assign`; a refusal changes nothing |
| CustomOrders.Order.UnassignOrder | backend/custom/orders/models.py:110-115 | the order's columns become those of `Unassign` |
| CustomOrders.Order.GetTotalPrice | backend/custom/orders/models.py:127-132 | the loop's total is the sum of the line totals |
| OrderItemFormset.LiveCountZero | admin/dashboard/orders/forms.py:13-17 | the count of forms with data and no DELETE mark is zero exactly when every form is empty or marked DELETE |
| OrderItemFormset.Clean | admin/dashboard/orders/forms.py:6-43 | the two loops reach the formset's decision: skipped after earlier errors, refused without a counted line, refused when a counted line is submitted completed while its instance does not read completed, on an unassigned order or by anyone but the handler; passed otherwise |
| OrderItemFormset.DecisionCases | admin/dashboard/orders/forms.py:19-43 | each refusal happens exactly under its condition: no counted line; a counted line submitted completed while its instance does not read completed, on an unassigned existing order; such a line on an assigned order submitted by anyone but the handler |
| OrderItemFormset.UncompletingNeverBlocked | admin/dashboard/orders/forms.py:29-35 | a formset with no line submitted completed over an instance that does not read completed is never refused by the completion rules |
| OrderItemFormset.DeletedFormIgnored | admin/dashboard/orders/forms.py:16-28 | adding a form marked DELETE changes neither the count nor the completion checks |
| OrderItemFormset.HandlerMayComplete | admin/dashboard/orders/forms.py:35-43 | on an assigned order with a counted line the handler's formset passes, whatever it completes |
| OrderItemFormset.GuardSeesOnlyNewLines | admin/dashboard/orders/forms.py:29-43 | once validation has copied the submitted values onto the instances, the completion guard is set off exactly by a counted new line submitted completed; with every line already stored, `clean` refuses at most for want of a counted line |
| OrderAdmin.InlineCompletionEditableOnlyWhenAssigned | api/dashboard/orders/admin.py:17-33 | in the order page's line inline, the completion flag is shown and editable exactly on an existing assigned order; prices are always read-only; a new order needs at least one line |
| OrderAdmin.ItemReadonlyCases | api/dashboard/orders/admin.py:237-247 | on the line page the completion flag is read-only unless the line's order is assigned; the order and stock item are read-only exactly for an existing line; prices always are |
| OrderAdmin.CompletedCountBounds | api/dashboard/orders/admin.py:94-95 | the completed count never exceeds the line count and reaches it exactly when no line is open, which with a line present is the order's own "all items completed" |
| OrderAdmin.StatusWithLinesStartsWithDigit | api/dashboard/orders/admin.py:92-98 | an order with lines shows a summary starting with a digit, never "No items" |
| OrderAdmin.FractionTextInjective | api/dashboard/orders/admin.py:98 | two "completed/total items completed" texts are equal only when both numbers are |
| OrderAdmin.CompletionStatusFaithful | api/dashboard/orders/admin.py:92-98 | "No items" is shown exactly for an order without lines; otherwise the text determines the line count and the completed count |
| OrderAdmin.VisibilityByRole | api/dashboard/orders/admin.py:173-189 | superusers and managers see every order; a member of the operator group sees exactly the orders it handles; anyone else sees none; an unhandled order is seen only by superusers and managers |
| OrderAdmin.ManagerSeesMore | api/dashboard/orders/admin.py:173-189 | joining the manager group never hides an order |
| OrderAdmin.CleanHandlerSeesOwnOrders | app/orders/models.py:74-84 | a handler that passes the handler check of `Order.clean` (superuser or ORDERS_OPERATOR member) sees in this admin the orders it handles; for a user outside ORDERS_MANAGER the check passes exactly when it does; no handler always passes |
| OrderAdmin.CreatorRule | api/dashboard/orders/admin.py:148-155 | an order added in the admin always gets a creator, the requester when none was given; an existing creator, or any change of an existing order, keeps the creator |
| OrderAdmin.LinesAfterRemove | api/dashboard/orders/admin.py:287 | deleting one line removes exactly that line from its order's lines |
| OrderAdmin.DeleteLineKeepsOrdersNonEmpty | api/dashboard/orders/admin.py:274-290 | a single delete goes through exactly when the line's order has another line, and it never leaves any order without lines |
| OrderAdmin.FirstSeenMembers | api/dashboard/orders/admin.py:298-307 | the keys of the per-order counts are the orders with a selected line, each once |
| OrderAdmin.FirstSeenIsAffected | api/dashboard/orders/admin.py:295-307 | the orders counted are exactly the orders collected for re-saving |
| OrderAdmin.SelectedCountPositive | api/dashboard/orders/admin.py:298-307 | an order has a positive selected count exactly when a selected line belongs to it |
| OrderAdmin.SelectedCountIsCardinality | api/dashboard/orders/admin.py:298-307 | for a selection without repeats, an order's selected count is the number of its lines that are selected |
| OrderAdmin.FlaggedMembers | api/dashboard/orders/admin.py:310-313 | an order is reported exactly when it is counted and all its lines are selected |
| OrderAdmin.ProblemOrdersExact | api/dashboard/orders/admin.py:292-321 | a bulk delete reports exactly the orders it would leave without lines |
| OrderAdmin.BulkDeleteKeepsOrdersNonEmpty | api/dashboard/orders/admin.py:315-324 | a bulk delete that is not refused leaves every order that had lines with at least one |
| OrderAdmin.AnnouncementMeansJustCompleted | api/dashboard/orders/admin.py:254-272 | the completion message appears exactly when an edit completes the last open line of an order that was neither completed nor cancelled |
| OrderAdmin.StoreLines | api/dashboard/orders/admin.py:159-163 | storing the changed lines of one order re-saves that order only and keeps the set of orders |
| OrderAdmin.FormsetLeavesOrderSettled | api/dashboard/orders/admin.py:169-171 | after the formset the order's assignment agrees with its handler, a further save changes nothing, and it is completed when all its lines are and it was not cancelled |
| OrderAdmin.CountSelection | api/dashboard/orders/admin.py:294-307 | the first loop yields each selected order's line count and selected count, keyed in first-seen order, and the set of orders to re-save |
| OrderAdmin.CountedRules | api/dashboard/orders/admin.py:294-307 | the counting loop's state after any prefix of the selection: its keys are the orders with a selected line in first-seen order, each holding the order's line count and selected count, and the orders to re-save are exactly the affected ones |
| OrderAdmin.CollectProblems | api/dashboard/orders/admin.py:310-313 | the second loop yields exactly the counted orders whose selected count equals their line count, in key order |
| OrderAdmin.OrderDatabase.constructor | api/dashboard/orders/admin.py:192-193 | the tables start empty |
| OrderAdmin.OrderDatabase.DeleteModel | api/dashboard/orders/admin.py:274-290 | the tables and the result become those of the single-delete rule, and every line still belongs to a stored order |
| OrderAdmin.OrderDatabase.DeleteQueryset | api/dashboard/orders/admin.py:292-328 | the reported orders are the problem orders; with any, nothing changes; otherwise the selection is deleted and every affected order re-saved |
| OrderAdmin.OrderDatabase.SaveLine | api/dashboard/orders/admin.py:254-272 | an existing line keeps its order (shown read-only on the change page); the line is stored with its price captured, its order re-saved, and the message shown exactly by the announcement rule |
| OrderAdmin.OrderDatabase.SaveFormset | api/dashboard/orders/admin.py:157-171 | the changed lines are stored one by one, each re-saving the order; the deleted lines are removed; the order is saved once more |
| OrderAdmin.OrderDatabase.StoreFormsetLines | api/dashboard/orders/admin.py:159-163 | each changed line is stored in turn and re-saves the order, giving the tables of the line-storing rule; every line still belongs to a stored order |
| OrderAdmin.OrderDatabase.DeleteObjects | api/dashboard/orders/admin.py:165-167 | the lines marked for deletion are removed and every other line stays as it was |
| OrderAdmin.OrderDatabase.ResaveOrders | api/dashboard/orders/admin.py:326-328 | the loop re-saves exactly the listed orders |
| CustomOrderAdmin.HandlerVisibility | backend/custom/orders/admin.py:34-48 | a user who is neither superuser nor manager sees exactly the orders it handles as an ORDERS_HANDLER member, else none; only superusers and managers see every order |
| CustomOrderAdmin.PermissionsByRole | backend/custom/orders/admin.py:50-62 | deleting is allowed exactly when changing is; a handler without the manager role can neither change, delete nor add; whoever may add may change; whoever may change sees every order |
| CustomOrderAdmin.CreatorOnAdd | backend/custom/orders/admin.py:29-32 | an order added here always has a creator afterwards; an existing creator, or any edit of an existing order, is kept |
| StockAdmin.SelectMembers | dashboard/stock/admin.py:64-75 | a filtered list holds exactly the items that match the selected value, each at most as often as in the list, and is never longer than it |
| StockAdmin.UnknownValueKeepsAll | dashboard/stock/admin.py:75 | no selected value, or one other than the three listed, leaves the list as it is |
| StockAdmin.FilterPartition | dashboard/stock/admin.py:67-74 | every item matches exactly one of "in_stock", "low_stock" and "out_of_stock" |
| StockAdmin.FilterSizesAddUp | dashboard/stock/admin.py:57-75 | the three filtered lists together have exactly as many items as the whole list |
| StockAdmin.StockStatusByAvailability | dashboard/stock/admin.py:214-229 | the badge says out of stock exactly when nothing is available; otherwise it shows the available quantity, at most the threshold for low stock and above it for in stock |
| StockAdmin.BadgeMatchesFilterWithoutReservations | dashboard/stock/admin.py:64-75 | with nothing reserved the badge and the filter agree on all three values; with reservations an item can be filtered as in stock while its badge says out of stock |
| StockAdmin.AvailableQuantityDisplayShape | dashboard/stock/admin.py:249-263 | the text starts with the available quantity, ends with the total, and has a reserved part exactly when something is reserved |
| Addresses.ClearOthersLeavesOnlyPk | backend/core/addresses/models.py:124-132 | the bulk update leaves no row but the saved one with the flag, keeps every key, and leaves rows without the flag untouched |
| Addresses.IconMappingCoversChoices | backend/core/addresses/models.py:27-57 | every platform the name field accepts has an icon class, and every icon class is a Bootstrap class with a name after "bi bi-" |
| Addresses.SocialSaveRules | backend/core/addresses/models.py:68-87 | a saved link for an accepted platform always renders an icon; an unmapped name keeps its icon; saving twice is saving once; the icon markup is empty exactly when the icon is |
| Addresses.SocialTable.constructor | backend/core/addresses/models.py:17-66 | the table starts empty |
| Addresses.SocialTable.Save | backend/core/addresses/models.py:68-72 | the stored row is the row with its icon set from the mapping |
| Addresses.ClearPrimaryPhones | backend/core/addresses/models.py:124-127 | clearing the other primary numbers keeps the table's rules, leaves only the saved number primary, and changes nothing but that flag |
| Addresses.ClearWhatsappPhones | backend/core/addresses/models.py:129-132 | clearing the other WhatsApp numbers keeps the table's rules, leaves only the saved number for WhatsApp, and changes nothing but that flag |
| Addresses.StorePhoneKeepsRules | backend/core/addresses/models.py:134 | storing a normalised row whose flags no other row holds keeps the table's rules |
| Addresses.PhoneSaveKeepsRules | backend/core/addresses/models.py:113-134 | saving keeps at most one primary and one WhatsApp number and no flag on an inactive number; the saved number is the only primary (WhatsApp) one when it is; other rows keep their data and can only lose flags |
| Addresses.PhoneTable.constructor | backend/core/addresses/models.py:90-111 | the table starts empty, which satisfies its rules |
| Addresses.PhoneTable.Save | backend/core/addresses/models.py:113-134 | the table becomes the saved table and keeps its rules |
| Addresses.WhatsappLinkShape | backend/core/addresses/models.py:159-165 | there is a link exactly for a WhatsApp number that is present; it starts with the wa.me prefix and holds no '+' or space after it; a number without them appears unchanged |
| Addresses.EmailSaveKeepsRules | backend/core/addresses/models.py:186-199 | saving keeps at most one primary address and none inactive; the saved address is primary exactly when asked and active, and then the only one; other rows can only lose the flag |
| Addresses.EmailTable.constructor | backend/core/addresses/models.py:168-184 | the table starts empty, which satisfies its rules |
| Addresses.EmailTable.Save | backend/core/addresses/models.py:186-199 | the table becomes the saved table and keeps its rules |
| Addresses.PhysicalSaveKeepsRules | backend/core/addresses/models.py:258-271 | saving keeps at most one contact-form address and none inactive; the saved address is used exactly when asked and active, and then the only one; other rows can only lose the flag |
| Addresses.PhysicalTable.constructor | backend/core/addresses/models.py:210-256 | the table starts empty, which satisfies its rules |
| Addresses.PhysicalTable.Save | backend/core/addresses/models.py:258-271 | the table becomes the saved table and keeps its rules |
| Addresses.FullAddressParts | backend/core/addresses/models.py:276-290 | the full address is street, city, then state and postal code when non-empty, then country, joined with ", "; without state and postal code it is the street followed by the short address |
| UniqueChoices.AvailableMembers | backend/core/globals/mixins.py:22-24 | a model choice is offered exactly when its value is not used by a stored row |
| UniqueChoices.AvailableKeepsOrder | backend/core/globals/mixins.py:22-24 | filtering keeps the choices' order: filtering a concatenation concatenates the filtered parts |
| UniqueChoices.NothingUsedKeepsAll | backend/core/globals/mixins.py:22-24 | with no value in use every model choice is offered, in order |
| UniqueChoices.InitialChoicesCases | backend/core/globals/mixins.py:9-26 | the field's choices are untouched for a stored row or an empty attribute name; otherwise the blank choice comes first, every offered value is unused, every unused model choice is offered, and a model without the attribute offers only the blank choice |
| UniqueChoices.UniqueChoiceForm.constructor | backend/core/globals/mixins.py:9-26 | the form's name choices are the initial choices of the case analysis above |
| Articles.AuthorSelection | backend/core/articles/models.py:46-60 | an existing author is never replaced; the `user` argument wins over the request; the request's user becomes the author exactly when it is authenticated; saving twice chooses nothing new |
| Articles.Article.constructor | backend/core/articles/models.py:23-44 | the article has the given title and author |
| Articles.Article.Save | backend/core/articles/models.py:46-60 | the article's author becomes the one the author choice gives |
| Articles.CleanErrorsCases | backend/core/articles/models.py:103-117 | each writer or editor flag is reported exactly when it is set on a non-staff user; a staff user always passes |
| Articles.WriterStaff.constructor | backend/core/articles/models.py:86-101 | a new user row carries the given flags and has not been written |
| Articles.WriterStaff.Clean | backend/core/articles/models.py:103-117 | the errors collected are the reported fields, and are empty exactly for staff or for a user with neither flag |
| Articles.WriterStaff.Save | backend/core/articles/models.py:119-121 | a row passing validation is written and a rejected one is not, so every written row passes validation |
| HomeArticleAdmin.VisibilityByRole | admin/home/articles/admin.py:22-39 | managers see every article; an operator who is not a manager sees only its own, even as a superuser; a superuser with neither role sees all; others see none |
| HomeArticleAdmin.PermissionMatchesVisibility | admin/home/articles/admin.py:41-79 | with the parent permission, changing or deleting a given article is allowed exactly for the articles the user's list shows; without it nothing is; without an article the parent permission decides |
| HomeArticleAdmin.SaveModelCases | admin/home/articles/admin.py:81-99 | a new or authorless article gets the requester as author; an existing author is kept; the save is refused exactly for an operator-only requester editing another author's article |
| HomeArticleAdmin.GuardsAgreeWithPermissions | admin/home/articles/admin.py:41-111 | the save and delete guards never refuse what the permission checks allow, and refuse exactly what they forbid for managers, operator-only users and non-operator superusers; a superuser operator is let through by the guards but not by the permission checks |
| HomeArticleAdmin.ArticleStore.constructor | admin/home/articles/admin.py:10-20 | the store starts empty |
| HomeArticleAdmin.ArticleStore.SaveModel | admin/home/articles/admin.py:81-99 | the save is refused exactly under the save rule and then changes nothing; otherwise the article is stored with the chosen author |
| HomeArticleAdmin.ArticleStore.DeleteModel | admin/home/articles/admin.py:101-111 | the delete is refused exactly for an operator-only requester and an article that is not its own, and then changes nothing; otherwise the article is removed |
| HomeArticleAdmin.CategoryPermissionByRole | admin/home/articles/admin.py:119-147 | categories and tags are managed exactly by superusers and managers; an operator-only user may not; a superuser operator may, though its article list shows only its own |
| CoreArticleAdmin.AdminSaveRules | backend/core/articles/admin.py:20-24 | after the admin save the article always has an author; an existing author is kept; the choice is the one the article's own save makes with the requester as its `user` argument |
| CoreArticleAdmin.VisibilityByRole | backend/core/articles/admin.py:27-31 | superusers list every article; anyone else lists exactly the articles it wrote |
| CoreArticleAdmin.SaveModel | backend/core/articles/admin.py:20-24 | the article's author becomes the one the admin save chooses |
| Accounts.StringForms | backend/core/accounts/models.py:16-17 | a group and its description both print as the group's name |
| Accounts.StaffStatusRules | backend/core/accounts/models.py:52-56 | after the update a user is staff exactly when it has a group, superuser or not; only the staff flag changes; updating twice is updating once |
| Accounts.DispatchRules | backend/core/accounts/signals.py:7-14 | the pre-actions change nothing; a post-action leaves the user staff exactly when it has a group and touches no other user; so after any add, remove or clear the user is staff exactly when its new group set is non-empty |
| Accounts.UserInstance.constructor | backend/core/accounts/models.py:42-50 | the object has the given key and staff flag |
| Accounts.UserTable.constructor | backend/core/accounts/models.py:42-50 | the table starts empty |
| Accounts.UserTable.UpdateStaffStatus | backend/core/accounts/models.py:52-56 | both the object's flag and the row's column become whether the user has a group; nothing else changes |
| Accounts.UserTable.OnGroupsChanged | backend/core/accounts/signals.py:7-14 | the table becomes the dispatched table; the signal's own object is updated on post_add only and keeps its old flag on post_remove and post_clear |
| Accounts.UserTable.ChangeGroups | backend/core/accounts/signals.py:7-14 | after a change of a user's groups with both signals, the row's groups are the new groups, it is staff exactly when they are non-empty, and no other row changes |
| SetupGroups.FilterAppsMembers | api/home/accounts/management/commands/setup_groups.py:85-94 | an app survives a label filter exactly when it is installed and on the requested side of the labels |
| SetupGroups.FilterAppsKeepsOrder | api/home/accounts/management/commands/setup_groups.py:85-94 | the filters keep the installed apps' order: filtering a concatenation concatenates the filtered parts |
| SetupGroups.SelectAppsMembers | api/home/accounts/management/commands/setup_groups.py:81-94 | an app is selected exactly when it is installed, among the `--apps` labels when any are given, and not among the `--exclude` labels |
| SetupGroups.CommandNameInjective | api/home/accounts/management/commands/setup_groups.py:103 | two app labels with the same `setup_<label>_groups` command name are the same label |
| SetupGroups.CallArgsRules | api/home/accounts/management/commands/setup_groups.py:124-129 | a sub-command is called by its own name, with `--reset` exactly in reset mode |
| SetupGroups.RunRules | api/home/accounts/management/commands/setup_groups.py:101-140 | every selected app is either found or not found; a dry run calls nothing; otherwise every found command is called once, in order, and counted as executed or failed (a failure does not stop the loop) |
| SetupGroups.SetupAllApps | api/home/accounts/management/commands/setup_groups.py:63-140 | the loop's found, not-found, executed and failed lists and its calls are those of the run over the selected apps |
| SetupGroups.ConfiguredIdsMembers | api/home/accounts/management/commands/setup_groups.py:386-400 | a permission is configured for a model exactly when some configured codename names it as `<codename>_<model>` and it exists |
| SetupGroups.ProcessRules | api/home/accounts/management/commands/setup_groups.py:386-421 | the group ends with its permissions plus the configured existing ones; `added` is the number it gained; added plus already-present counts every existing configured codename once; missing ones are skipped |
| SetupGroups.ProcessAgainAddsNothing | api/home/accounts/management/commands/setup_groups.py:386-421 | a group already holding its configured permissions gains nothing and counts them all as present |
| SetupGroups.ProcessModelPermissions | api/home/accounts/management/commands/setup_groups.py:386-421 | the loop's permissions and counts are those of processing the codenames in order |
| SetupGroups.ProcessAllRules | api/home/accounts/management/commands/setup_groups.py:335-341 | over all configured models the group gains exactly the expected permissions it lacked and `added` counts them |
| SetupGroups.ProcessAllAgainAddsNothing | api/home/accounts/management/commands/setup_groups.py:335-341 | a group holding every expected permission gains nothing over all models |
| SetupGroups.SetupGroupRules | api/home/accounts/management/commands/setup_groups.py:293-341 | after a reset the group has exactly the configured existing permissions and `removed` counts the others it had; without reset nothing is removed and the configured ones are added; a second pass adds nothing |
| SetupGroups.SetupGroupAgain | api/home/accounts/management/commands/setup_groups.py:293-341 | a group already holding its configured permissions gains nothing and keeps them |
| SetupGroups.SetupPermissions | api/home/accounts/management/commands/setup_groups.py:293-341 | the removal and the grant loop leave the permissions and counts the group set-up defines |
| SetupGroups.RemoveUnexpected | api/home/accounts/management/commands/setup_groups.py:297-333 | in reset mode the group keeps exactly those of its permissions the configuration expects and `removed` is the number of the others; outside reset mode nothing is removed |
| SetupGroups.SetupOneEffect | api/home/accounts/management/commands/setup_groups.py:270-352 | setting up one group creates it if missing, grants its configuration (exactly, in reset mode) and leaves every other group as it was |
| SetupGroups.SetupAllGrants | api/home/accounts/management/commands/setup_groups.py:252-262 | with distinct group keys, after `handle` every configured group holds its configured permissions (exactly, after a reset) and unconfigured groups are untouched |
| SetupGroups.SetupAllAgainAddsNothing | api/home/accounts/management/commands/setup_groups.py:252-262 | from a state where every configured group holds its permissions, `handle` adds nothing and that stays so |
| SetupGroups.SecondRunAddsNothing | api/home/accounts/management/commands/setup_groups.py:232-268 | running the command twice with the same configuration: the second run adds no permission |
| SetupGroups.GroupSetupCommand.constructor | api/home/accounts/management/commands/setup_groups.py:203-218 | the command holds the given configuration, permission catalogue, groups and descriptions |
| SetupGroups.GroupSetupCommand.SetupGroupEntry | api/home/accounts/management/commands/setup_groups.py:270-384 | the groups, descriptions and counts after one entry are those of setting up that group: `get_or_create`, the description stored when non-empty, then the permissions |
| SetupGroups.GroupSetupCommand.Handle | api/home/accounts/management/commands/setup_groups.py:232-268 | an empty configuration changes nothing and yields no totals; otherwise the new groups, descriptions and totals are those of setting up every configured group in order |
| BaseTags.GetEnvRules | olyv/base/templatetags/base_tags.py:42-58 | six asset variables default to their static URL; any other unset variable reads as ""; a set variable reads as its own value; the result is stripped of surrounding whitespace |
| BaseTags.SiteNameIsGetEnv | olyv/base/templatetags/base_tags.py:87 | the site name in the title is what `get_env("SITE_NAME")` reads |
| BaseTags.TitleContentCases | olyv/base/templatetags/base_tags.py:61-90 | a non-empty title argument wins over the context's `page_title`; a page title is followed by the separator and the site name; with none the content is the site name alone |
| BaseTags.TitleEndsWithSiteName | olyv/base/templatetags/base_tags.py:87-90 | whatever the titles, the content ends with the site name |
| BaseTags.TitleTagShape | olyv/base/templatetags/base_tags.py:91 | the output opens with `<title>`, closes with `</title>` and holds exactly the content in between |
| BaseTags.DefaultSeparatorTitle | olyv/base/templatetags/base_tags.py:62-91 | with the default separator (a space, a vertical bar, a space) and a non-empty title argument the tag is `<title>`, then the title, that separator and the site name, then `</title>` |

## Left out

- Concurrency and atomicity: every operation is sequential; the code takes no row locks and opens no transactions, and nothing here claims freedom from lost updates.
- Persistence: the ORM, querysets, `save()` and `update_fields` are replaced by maps and sequences of rows; the many-to-many machinery is reduced to the signal's `action` and the user's group set.
- The reverse side of the group relation (`group.user_set.add(...)`), whose signal carries a group instead of a user, is not modelled.
- Decimal and float arithmetic: `discount_percentage`, the percentage of `completion_progress` and the two-decimal price strings of the stock admin are not modelled; prices are whole numbers of the smallest unit.
- Negative quantities are not modelled: quantities and counts are natural numbers, as the positive-integer columns require.
- Unicode: `upper()` maps only the letters a to z; other cased letters are left as they are.
- AppOrders.Order.GetTotalItems: the item count has no contract of its own; its sum over the lines is stated by `AppOrders.TotalsAdditive`.
- CustomOrders.Order.GetTotalItems: the item count has no contract of its own; it is the sum of the line quantities by definition.
- Messages and display: `messages.*` calls, message and error texts, `__str__` of orders, lines and stock items, image and `format_html` previews, `assigned_staff_info`, `item_count` and the layout selectors `get_fieldsets` and `get_fields` of the order and line admins.
- `full_clean` validators other than `clean()` (field lengths, choices, uniqueness) are not modelled.
- `Articles.WriterStaff.Save`: only the `clean()` part of `full_clean` is modelled.
- Set-up commands: standard output, the colouring of messages, the error message of a failing sub-command, an `IntegrityError` from `get_or_create` with a clashing id or name, and the exception guard around the description are not modelled; `--force-update` is read as `--reset`, which is what the code does with it.
- The per-app `setup_<label>_groups` commands are configuration data; the model takes any configuration as a parameter.
- `get_env`: the environment and `.env` lookup is a map parameter, and `static()` is the static URL prefix followed by the path, without the storage's hashed file names.
- `title`: no HTML escaping is modelled; the tag's output is the plain string.
- `timezone.now()` is a parameter, and the UUID generator of the shop app's order is left out: a new order receives its key as a parameter.
