/**
  The add/edit modal for recruiting criteria, `src/components/modal/AddCriteriaModal.tsx`:
  the form values it loads, the two validation schemas (create and edit), the
  extra display-order rule of create mode with its error message, and the
  submit and close handlers.
*/
module AddCriteriaModal {
  import opened Wrappers
  import opened Text
  import opened Js

  /** The form: calling name, name and display order (`None` while the input is empty). */
  datatype CriteriaValues = CriteriaValues(callingName: string, name: string, displayOrder: Option<Number>)

  /** The criterion being edited. */
  datatype EditData = EditData(id: int, callingName: Option<string>, name: string, displayOrder: int)

  /** The values a new criterion starts with: blank names and the next free position. */
  function CreateDefaults(count: nat): CriteriaValues
  {
    CriteriaValues("", "", Some(Int(count + 1)))
  }

  /** Edit mode loads the criterion, a missing calling name as "". */
  function EditValues(e: EditData): CriteriaValues
  {
    CriteriaValues(e.callingName.GetOr(""), e.name, Some(Int(e.displayOrder)))
  }

  /**
    The create schema: a name, and a display order that is a number of at least 1.
    The edit schema checks only the name.
  */
  predicate SchemaValid(v: CriteriaValues, editing: bool)
  {
    v.name != ""
    && (editing || (v.displayOrder.Some? && v.displayOrder.value.Int? && v.displayOrder.value.v >= 1))
  }

  /** `validateDisplayOrder`: a new criterion must come after the existing ones. */
  predicate DisplayOrderFree(value: int, count: nat)
  {
    !(value <= count)
  }

  /** The message naming the first free position. */
  function DisplayOrderMessage(count: nat): string
  {
    "並び順は" + NatToString(count + 1) + "以上である必要があります"
  }

  /**
    A new criterion is passed on exactly when it has a name and an integer display
    order past every existing one; its defaults pass the display-order rule.
  */
  lemma CreateAccepts(v: CriteriaValues, count: nat)
    ensures SchemaValid(v, false) && DisplayOrderFree(v.displayOrder.value.v, count)
      <==> v.name != "" && v.displayOrder.Some? && v.displayOrder.value.Int? && v.displayOrder.value.v > count
    ensures DisplayOrderFree(CreateDefaults(count).displayOrder.value.v, count)
  {
  }

  class CriteriaModal {
    /** `currentCriteriaCount`: how many criteria exist. */
    const count: nat
    const editData: Option<EditData>
    /** The default values captured when the form was created, which `reset()` restores. */
    const defaults: CriteriaValues
    var values: CriteriaValues
    /** The display-order error `validateDisplayOrder` sets; the schema's own messages are not modelled. */
    var displayOrderError: Option<string>
    /** The values handed to `onSubmit`, oldest first. */
    var submitted: seq<CriteriaValues>
    var closeCalls: nat

    /** Creates the form with the create defaults, then runs the loading effect. */
    constructor(count: nat, editData: Option<EditData>)
      ensures this.count == count && this.editData == editData
      ensures defaults == CreateDefaults(count)
      ensures values == (if editData.Some? then EditValues(editData.value) else CreateDefaults(count))
      ensures displayOrderError.None? && submitted == [] && closeCalls == 0
    {
      this.count := count;
      this.editData := editData;
      defaults := CreateDefaults(count);
      values := CreateDefaults(count);
      displayOrderError := None;
      submitted := [];
      closeCalls := 0;
      new;
      LoadValues();
    }

    /** The loading effect: the edited criterion's values, or blank names and the next position. */
    method LoadValues()
      modifies this
      ensures values == (if editData.Some? then EditValues(editData.value) else CreateDefaults(count))
      ensures displayOrderError == old(displayOrderError) && submitted == old(submitted) && closeCalls == old(closeCalls)
    {
      if editData.Some? {
        values := values.(callingName := editData.value.callingName.GetOr(""));
        values := values.(name := editData.value.name);
        values := values.(displayOrder := Some(Int(editData.value.displayOrder)));
      } else {
        values := values.(callingName := "");
        values := values.(name := "");
        values := values.(displayOrder := Some(Int(count + 1)));
      }
    }

    /** Records the display-order error when the value is not past the existing criteria. */
    method ValidateDisplayOrder(value: int) returns (ok: bool)
      modifies this
      ensures ok == DisplayOrderFree(value, count)
      ensures !ok ==> displayOrderError == Some(DisplayOrderMessage(count))
      ensures ok ==> displayOrderError == old(displayOrderError)
      ensures values == old(values) && submitted == old(submitted) && closeCalls == old(closeCalls)
    {
      if value <= count {
        displayOrderError := Some(DisplayOrderMessage(count));
        return false;
      }
      return true;
    }

    /**
      `handleSubmit(handleSubmitForm)`: the resolver's result replaces the errors,
      which clears a display-order error left by an earlier submit; when the schema
      of the mode passes, a new criterion is checked against the existing ones and
      then passed on; an edited one is passed on directly.
    */
    method Submit()
      modifies this
      ensures var passes := SchemaValid(old(values), editData.Some?)
        && (editData.Some? || DisplayOrderFree(old(values).displayOrder.value.v, count));
        submitted == (if passes then old(submitted) + [old(values)] else old(submitted))
      ensures displayOrderError ==
        if editData.None? && SchemaValid(old(values), false) && !DisplayOrderFree(old(values).displayOrder.value.v, count)
        then Some(DisplayOrderMessage(count)) else None
      ensures values == old(values) && closeCalls == old(closeCalls)
    {
      displayOrderError := None;
      if !SchemaValid(values, editData.Some?) {
        return;
      }
      if editData.None? {
        var ok := ValidateDisplayOrder(values.displayOrder.value.v);
        if !ok {
          return;
        }
      }
      submitted := submitted + [values];
    }

    /** Closing resets the form to its defaults (clearing the error) and then reports the close. */
    method HandleClose()
      modifies this
      ensures values == defaults && displayOrderError.None?
      ensures closeCalls == old(closeCalls) + 1 && submitted == old(submitted)
    {
      values := defaults;
      displayOrderError := None;
      closeCalls := closeCalls + 1;
    }

    /** In create mode, every criterion passed on has a name and a display order past the existing ones. */
    predicate SubmittedFree()
      reads this
    {
      editData.None? ==>
        forall i | 0 <= i < |submitted| ::
          submitted[i].name != "" && submitted[i].displayOrder.Some? && submitted[i].displayOrder.value.Int?
          && submitted[i].displayOrder.value.v > count
    }

    /** Submitting keeps that true. */
    method SubmitKeepsOrder()
      requires SubmittedFree()
      modifies this
      ensures SubmittedFree()
    {
      Submit();
    }
  }
}
