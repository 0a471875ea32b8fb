/** The form mixin that offers, for a new row, only the `name` choices no stored row uses yet
    (backend/core/globals/mixins.py, `UniqueChoiceFormMixin`). */
module UniqueChoices {
  import opened Common

  /** A model choice: the stored value and its label. */
  type ModelChoice = (string, string)

  /** A choice offered by the form field; the blank choice has no value. */
  datatype Choice = Choice(value: Option<string>, display: string)

  /** `(None, "")` */
  const BLANK := Choice(None, "")

  /** The list comprehension: the model choices whose value no stored row uses, in their original order. */
  function Available(choices: seq<ModelChoice>, used: set<string>): seq<ModelChoice>
  {
    if choices == [] then []
    else (if choices[0].0 in used then [] else [choices[0]]) + Available(choices[1..], used)
  }

  /** A choice is offered exactly when it is a model choice whose value is unused. */
  lemma {:induction false} AvailableMembers(choices: seq<ModelChoice>, used: set<string>)
    ensures forall c :: c in Available(choices, used) <==> c in choices && c.0 !in used
    ensures |Available(choices, used)| <= |choices|
  {
    if choices != [] {
      AvailableMembers(choices[1..], used);
      assert choices == [choices[0]] + choices[1..];
    }
  }

  /** Filtering keeps the relative order of the choices: filtering a concatenation concatenates the
      filtered parts. */
  lemma {:induction false} AvailableKeepsOrder(a: seq<ModelChoice>, b: seq<ModelChoice>, used: set<string>)
    ensures Available(a + b, used) == Available(a, used) + Available(b, used)
  {
    if a != [] {
      AvailableKeepsOrder(a[1..], b, used);
      assert (a + b)[1..] == a[1..] + b;
    } else {
      assert a + b == b;
    }
  }

  /** With no value in use every choice is offered, in order. */
  lemma {:induction false} NothingUsedKeepsAll(choices: seq<ModelChoice>, used: set<string>)
    requires forall i :: 0 <= i < |choices| ==> choices[i].0 !in used
    ensures Available(choices, used) == choices
  {
    if choices != [] {
      NothingUsedKeepsAll(choices[1..], used);
    }
  }

  /** The field's choices: the blank choice, then the available model choices. */
  function FieldChoices(available: seq<ModelChoice>): (r: seq<Choice>)
  {
    [BLANK] + seq(|available|, i requires 0 <= i < |available| => Choice(Some(available[i].0), available[i].1))
  }

  /** `__init__`: the field keeps its choices for a stored instance or when no choices attribute is named;
      otherwise it offers the blank choice and the model choices (none when the model lacks the attribute)
      that are still unused. */
  function InitialChoices(fieldChoices: seq<Choice>, instanceHasPk: bool, choicesAttr: string,
                          modelChoices: Option<seq<ModelChoice>>, used: set<string>): seq<Choice>
  {
    if instanceHasPk || choicesAttr == "" then fieldChoices
    else FieldChoices(Available(if modelChoices.Some? then modelChoices.value else [], used))
  }

  /** The form's choices, case by case: untouched for a stored instance or an empty attribute name;
      otherwise the blank choice first, followed by exactly the unused model choices. */
  lemma InitialChoicesCases(fieldChoices: seq<Choice>, instanceHasPk: bool, choicesAttr: string,
                            modelChoices: Option<seq<ModelChoice>>, used: set<string>)
    ensures var r := InitialChoices(fieldChoices, instanceHasPk, choicesAttr, modelChoices, used);
      (instanceHasPk || choicesAttr == "" ==> r == fieldChoices)
      && (!instanceHasPk && choicesAttr != "" ==>
            |r| >= 1 && r[0] == BLANK
            && (forall i :: 1 <= i < |r| ==> r[i].value.Some? && r[i].value.value !in used)
            && (forall c :: c in (if modelChoices.Some? then modelChoices.value else []) && c.0 !in used ==>
                  Choice(Some(c.0), c.1) in r)
            && (modelChoices.None? ==> r == [BLANK]))
  {
    if !instanceHasPk && choicesAttr != "" {
      var mc := if modelChoices.Some? then modelChoices.value else [];
      var avail := Available(mc, used);
      AvailableMembers(mc, used);
      var r := FieldChoices(avail);
      forall i | 1 <= i < |r|
        ensures r[i].value.Some? && r[i].value.value !in used
      {
        assert r[i] == Choice(Some(avail[i - 1].0), avail[i - 1].1);
        assert avail[i - 1] in avail;
      }
      forall c | c in mc && c.0 !in used
        ensures Choice(Some(c.0), c.1) in r
      {
        var j :| 0 <= j < |avail| && avail[j] == c;
        assert r[j + 1] == Choice(Some(c.0), c.1);
      }
    }
  }

  /** A form built over a model with unique choice names. */
  class UniqueChoiceForm {
    const instanceHasPk: bool
    const choicesAttr: string
    var nameChoices: seq<Choice>

    constructor (fieldChoices: seq<Choice>, instanceHasPk: bool, choicesAttr: string,
                 modelChoices: Option<seq<ModelChoice>>, used: set<string>)
      ensures this.instanceHasPk == instanceHasPk && this.choicesAttr == choicesAttr
      ensures nameChoices == InitialChoices(fieldChoices, instanceHasPk, choicesAttr, modelChoices, used)
    {
      this.instanceHasPk := instanceHasPk;
      this.choicesAttr := choicesAttr;
      if instanceHasPk || choicesAttr == "" {
        nameChoices := fieldChoices;
      } else {
        var choices := if modelChoices.Some? then modelChoices.value else [];
        nameChoices := FieldChoices(Available(choices, used));
      }
    }
  }
}
