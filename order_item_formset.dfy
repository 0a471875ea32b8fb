/** The inline formset that edits the lines of an order in the dashboard admin
    (admin/dashboard/orders/forms.py, `OrderItemFormSet.clean`): an order must keep at least one line,
    and a line may be switched to completed only on an assigned order and only by its handler. */
module OrderItemFormset {
  import opened Common

  /** One form of the formset, as `clean` sees it: whether it carries cleaned data, its DELETE box, the
      submitted `is_completed`, whether `form.instance` has a primary key, and `form.instance.is_completed` as
      `clean` reads it. Form validation runs before the formset's `clean` and copies the submitted values onto
      `form.instance`, so for a line that has a key and an editable `is_completed` the last field equals the
      submitted value (see `GuardSeesOnlyNewLines`). */
  datatype FormRow = FormRow(hasData: bool, delete: bool, isCompleted: bool, instanceHasPk: bool, instanceCompleted: bool)

  /** The rest of what `clean` reads: errors already found in the forms, whether the order exists, its
      assignment columns, and the requesting user (absent when the formset was built without a request). */
  datatype OrderContext = OrderContext(hasErrors: bool, orderHasPk: bool, isAssigned: bool,
                                       handler: Option<UserId>, currentUser: Option<UserId>)

  /** `Skipped`: earlier errors stopped the checks; `Passed`: nothing raised; the other three are the
      `ValidationError`s raised, in the order the source raises them. */
  datatype Outcome = Skipped | Passed | NoItems | NotAssigned | NotHandler

  /** A form that is counted: it has data and is not marked for deletion. */
  predicate Live(r: FormRow)
  {
    r.hasData && !r.delete
  }

  /** A counted form that switches `is_completed` from false (or a new line) to true. */
  predicate MarksCompleted(r: FormRow)
  {
    Live(r) && r.isCompleted && !(r.instanceHasPk && r.instanceCompleted)
  }

  /** `valid_forms`: the number of counted forms. */
  function LiveCount(rows: seq<FormRow>): nat
  {
    if rows == [] then 0 else LiveCount(rows[..|rows| - 1]) + (if Live(rows[|rows| - 1]) then 1 else 0)
  }

  predicate AnyMarksCompleted(rows: seq<FormRow>)
  {
    exists i :: 0 <= i < |rows| && MarksCompleted(rows[i])
  }

  /** The decision `clean` takes, stated over the whole formset at once. The handler comparison is an
      equality of nullable users, with no superuser or manager exception. */
  function Decision(ctx: OrderContext, rows: seq<FormRow>): Outcome
  {
    if ctx.hasErrors then Skipped
    else if LiveCount(rows) == 0 then NoItems
    else if ctx.orderHasPk && AnyMarksCompleted(rows) then
      (if !ctx.isAssigned then NotAssigned else if ctx.currentUser != ctx.handler then NotHandler else Passed)
    else Passed
  }

  /** No counted form at all is the same as every form being empty or marked DELETE. */
  lemma {:induction false} LiveCountZero(rows: seq<FormRow>)
    ensures LiveCount(rows) == 0 <==> forall i :: 0 <= i < |rows| ==> !Live(rows[i])
  {
    if rows != [] {
      var init := rows[..|rows| - 1];
      LiveCountZero(init);
      assert forall i :: 0 <= i < |init| ==> init[i] == rows[i];
    }
  }

  /** What the completion guard sees once form validation has copied the submitted values onto the instances:
      a line with a key then shows its submitted `is_completed` as its instance's, so only a new line created
      already completed can trigger the guard; with every line already stored, `clean` refuses at most for
      want of a counted line. */
  lemma GuardSeesOnlyNewLines(ctx: OrderContext, rows: seq<FormRow>)
    requires forall i :: 0 <= i < |rows| && rows[i].instanceHasPk ==> rows[i].instanceCompleted == rows[i].isCompleted
    ensures AnyMarksCompleted(rows) <==>
      exists i :: 0 <= i < |rows| && Live(rows[i]) && rows[i].isCompleted && !rows[i].instanceHasPk
    ensures (forall i :: 0 <= i < |rows| ==> rows[i].instanceHasPk) ==>
      Decision(ctx, rows) == Skipped || Decision(ctx, rows) == Passed || Decision(ctx, rows) == NoItems
  {
    if forall i :: 0 <= i < |rows| ==> rows[i].instanceHasPk {
      assert !AnyMarksCompleted(rows);
    }
  }

  /** `OrderItemFormSet.clean`: the count loop, then the completion loop, raising on the first violation. */
  method Clean(ctx: OrderContext, rows: seq<FormRow>) returns (outcome: Outcome)
    ensures outcome == Decision(ctx, rows)
  {
    if ctx.hasErrors {
      return Skipped;
    }
    var validForms := 0;
    for i := 0 to |rows|
      invariant validForms == LiveCount(rows[..i])
    {
      assert rows[..i + 1][..i] == rows[..i];
      if rows[i].hasData && !rows[i].delete {
        validForms := validForms + 1;
      }
    }
    assert rows[..|rows|] == rows;
    if validForms == 0 {
      return NoItems;
    }
    if ctx.orderHasPk {
      for i := 0 to |rows|
        invariant (exists j :: 0 <= j < i && MarksCompleted(rows[j])) ==> ctx.isAssigned && ctx.currentUser == ctx.handler
      {
        var form := rows[i];
        if form.hasData && !form.delete {
          var isCompleted := form.isCompleted;
          var wasCompleted := if form.instanceHasPk then form.instanceCompleted else false;
          if isCompleted && !wasCompleted {
            if !ctx.isAssigned {
              return NotAssigned;
            }
            if ctx.currentUser != ctx.handler {
              return NotHandler;
            }
          }
        }
      }
    }
    return Passed;
  }

  /** Each rejection, characterised: an order with no counted line is refused; a completion is refused on
      an unassigned order and for anyone but the handler; and only existing orders are checked. */
  lemma DecisionCases(ctx: OrderContext, rows: seq<FormRow>)
    ensures Decision(ctx, rows) == NoItems <==>
      !ctx.hasErrors && forall i :: 0 <= i < |rows| ==> !Live(rows[i])
    ensures Decision(ctx, rows) == NotAssigned <==>
      !ctx.hasErrors && ctx.orderHasPk && AnyMarksCompleted(rows) && !ctx.isAssigned
    ensures Decision(ctx, rows) == NotHandler <==>
      !ctx.hasErrors && ctx.orderHasPk && AnyMarksCompleted(rows) && ctx.isAssigned && ctx.currentUser != ctx.handler
  {
    LiveCountZero(rows);
    if AnyMarksCompleted(rows) {
      var i :| 0 <= i < |rows| && MarksCompleted(rows[i]);
      assert Live(rows[i]);
    }
  }

  /** Un-completing a line, or leaving completions as they are, is never blocked by the completion rules. */
  lemma UncompletingNeverBlocked(ctx: OrderContext, rows: seq<FormRow>)
    requires forall i :: 0 <= i < |rows| ==> !MarksCompleted(rows[i])
    ensures Decision(ctx, rows) in {Skipped, Passed, NoItems}
  {
  }

  /** A form marked DELETE changes neither the count nor the completion checks. */
  lemma DeletedFormIgnored(ctx: OrderContext, rows: seq<FormRow>, r: FormRow)
    requires r.delete
    ensures Decision(ctx, rows + [r]) == Decision(ctx, rows)
  {
    var all := rows + [r];
    assert all[..|all| - 1] == rows;
    assert AnyMarksCompleted(all) ==> AnyMarksCompleted(rows) by {
      if AnyMarksCompleted(all) {
        var i :| 0 <= i < |all| && MarksCompleted(all[i]);
        assert i < |rows| && rows[i] == all[i];
      }
    }
    assert AnyMarksCompleted(rows) ==> AnyMarksCompleted(all) by {
      if AnyMarksCompleted(rows) {
        var i :| 0 <= i < |rows| && MarksCompleted(rows[i]);
        assert all[i] == rows[i];
      }
    }
  }

  /** The handler of an assigned order may complete lines, whoever else is or is not a superuser; a
      request without a user is treated like any other non-handler. */
  lemma HandlerMayComplete(ctx: OrderContext, rows: seq<FormRow>)
    requires !ctx.hasErrors && ctx.isAssigned && ctx.currentUser == ctx.handler
    requires exists i :: 0 <= i < |rows| && Live(rows[i])
    ensures Decision(ctx, rows) == Passed
  {
    LiveCountZero(rows);
  }
}
