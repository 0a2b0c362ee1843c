/**
  The add/edit modal for job features, `src/components/modal/AddEditFeature.tsx`:
  the values it loads, the type input that only accepts 1 to 3, the parent
  select's text in both directions, the validation schema, and the submit and
  close handlers.
*/
module AddEditFeature {
  import opened Wrappers
  import opened Text
  import opened Js
  import opened Types
  import Helper

  /** The form: a name, the parent feature (`null` as `None`) and the type. */
  datatype FeatureValues = FeatureValues(name: string, parentId: Option<Number>, kind: int)

  /** The values `reset()` restores: blank, no parent, and the edited feature's type or 3. */
  function Defaults(editData: Option<FeatureItem>): FeatureValues
  {
    FeatureValues("", None, if editData.Some? then editData.value.kind else 3)
  }

  /** `editData.parent_id || null`: a missing parent and parent 0 both load as no parent. */
  function LoadedParent(parentId: Option<int>): (r: Option<Number>)
  {
    if parentId.Some? && parentId.value != 0 then Some(Int(parentId.value)) else None
  }

  /** The loading effect: the edited feature's values, or the create defaults. */
  function LoadedValues(editData: Option<FeatureItem>): FeatureValues
  {
    match editData
    case Some(e) => FeatureValues(e.name, LoadedParent(e.parentId), e.kind)
    case None => FeatureValues("", None, 3)
  }

  /** `handleTypeChange`: the text is read with `parseInt` and kept only when it is 1, 2 or 3. */
  function TypeAfterInput(current: int, text: string): (r: int)
  {
    var n := ParseInt(text);
    if n.Int? && 1 <= n.v <= 3 then n.v else current
  }

  /**
    A typed type is a value in 1..3 or leaves the old one, so a type in range stays
    in range; each of "1", "2" and "3" selects itself.
  */
  lemma TypeInputSpec(current: int, text: string)
    ensures var r := TypeAfterInput(current, text);
      (1 <= r <= 3 && ParseInt(text) == Int(r)) || r == current
    ensures 1 <= current <= 3 ==> 1 <= TypeAfterInput(current, text) <= 3
    ensures TypeAfterInput(current, "1") == 1 && TypeAfterInput(current, "2") == 2 && TypeAfterInput(current, "3") == 3
  {
    ParseIntDigit('1');
    ParseIntDigit('2');
    ParseIntDigit('3');
  }

  /** `parseInt` of a single non-zero digit. */
  lemma ParseIntDigit(c: char)
    requires '1' <= c <= '9'
    ensures ParseInt([c]) == Int(c as int - '0' as int)
  {
    assert TrimStart([c]) == [c];
    assert [c][1..] == [] && [c][..1] == [c] && [c][..0] == [];
    assert DigitRun([c]) == 1;
    assert DigitsValue([c]) == DigitsValue([]) * 10 + (c as int - '0' as int);
  }

  /** The select's text, `value?.toString() || ''`. */
  function SelectText(p: Option<Number>): string
  {
    match p
    case None => ""
    case Some(n) => NumberToString(n)
  }

  /** The select's change handler: an empty choice is no parent, any other the number it reads as. */
  function ParentOfSelect(text: string): Option<Number>
  {
    if text != "" then Some(ToNumber(text)) else None
  }

  /**
    The select shows the parent it holds: choosing the text it displays gives the
    same parent back, and the displayed text is empty exactly when there is none.
  */
  lemma SelectRoundTrip(p: Option<Number>)
    ensures ParentOfSelect(SelectText(p)) == p
    ensures SelectText(p) == "" <==> p.None?
  {
    if p.Some? {
      Helper.ToNumberOfNumberToString(p.value);
      if p.value.Int? {
        IntToStringChars(p.value.v);
      }
    }
  }

  /** Choosing the option of a non-negative id displays that option's text. */
  lemma SelectOptionRoundTrip(id: nat)
    ensures SelectText(ParentOfSelect(NatToString(id))) == NatToString(id)
  {
    ToNumberOfIntToString(id);
  }

  /** The schema: a name, a parent that is absent or a number, and a type of 1 to 3. */
  predicate SchemaValid(v: FeatureValues)
  {
    v.name != "" && (v.parentId.None? || v.parentId.value.Int?) && 1 <= v.kind <= 3
  }

  /** Loaded values pass the schema exactly when the feature has a name and a type of 1 to 3; a new one needs only a name. */
  lemma LoadedValid(editData: Option<FeatureItem>)
    ensures SchemaValid(LoadedValues(editData)) <==>
      editData.Some? && editData.value.name != "" && 1 <= editData.value.kind <= 3
    ensures LoadedValues(editData).kind == Defaults(editData).kind
  {
  }

  /**
    The modal. While closed it renders nothing, so its input, submit and cancel
    handlers are reachable only while `isOpen`; the loading effect runs either way.
  */
  class FeatureModal {
    const isOpen: bool
    const editData: Option<FeatureItem>
    const defaults: FeatureValues
    var values: FeatureValues
    /** The values handed to `onSubmit`, oldest first. */
    var submitted: seq<FeatureValues>
    var closeCalls: nat

    /** Creates the form with its defaults, then runs the loading effect. */
    constructor(isOpen: bool, editData: Option<FeatureItem>)
      ensures this.isOpen == isOpen && this.editData == editData && defaults == Defaults(editData)
      ensures values == LoadedValues(editData)
      ensures submitted == [] && closeCalls == 0
    {
      this.isOpen := isOpen;
      this.editData := editData;
      defaults := Defaults(editData);
      values := Defaults(editData);
      submitted := [];
      closeCalls := 0;
      new;
      LoadValues();
    }

    /** The loading effect: `setValue` of each field when editing, `reset` to the create values otherwise. */
    method LoadValues()
      modifies this
      ensures values == LoadedValues(editData)
      ensures submitted == old(submitted) && closeCalls == old(closeCalls)
    {
      if editData.Some? {
        values := values.(name := editData.value.name);
        values := values.(parentId := LoadedParent(editData.value.parentId));
        values := values.(kind := editData.value.kind);
      } else {
        values := FeatureValues("", None, 3);
      }
    }

    /** Typing in the type input. */
    method OnTypeInput(text: string)
      requires isOpen
      modifies this
      ensures values == old(values).(kind := TypeAfterInput(old(values).kind, text))
      ensures submitted == old(submitted) && closeCalls == old(closeCalls)
    {
      var n := ParseInt(text);
      if n.Int? && n.v >= 1 && n.v <= 3 {
        values := values.(kind := n.v);
      }
    }

    /** Choosing in the parent select. */
    method OnParentSelect(text: string)
      requires isOpen
      modifies this
      ensures values == old(values).(parentId := ParentOfSelect(text))
      ensures submitted == old(submitted) && closeCalls == old(closeCalls)
    {
      values := values.(parentId := if text != "" then Some(ToNumber(text)) else None);
    }

    method OnNameInput(text: string)
      requires isOpen
      modifies this
      ensures values == old(values).(name := text)
      ensures submitted == old(submitted) && closeCalls == old(closeCalls)
    {
      values := values.(name := text);
    }

    /** `handleSubmit(onSubmit)`: the values are passed on only when the schema passes. */
    method Submit()
      requires isOpen
      modifies this
      ensures submitted == (if SchemaValid(old(values)) then old(submitted) + [old(values)] else old(submitted))
      ensures values == old(values) && closeCalls == old(closeCalls)
    {
      if SchemaValid(values) {
        submitted := submitted + [values];
      }
    }

    /** Closing resets the form to its defaults and then reports the close. */
    method HandleClose()
      requires isOpen
      modifies this
      ensures values == defaults
      ensures closeCalls == old(closeCalls) + 1 && submitted == old(submitted)
    {
      values := defaults;
      closeCalls := closeCalls + 1;
    }

    /** Every feature passed on has a name, a numeric parent or none, and a type of 1 to 3. */
    predicate SubmittedValid()
      reads this
    {
      forall i | 0 <= i < |submitted| :: SchemaValid(submitted[i])
    }

    /** The type stays in 1..3 through typing, and whatever is passed on stays valid through a submit. */
    method InputsKeepRange(text: string)
      requires isOpen && 1 <= values.kind <= 3 && SubmittedValid()
      modifies this
      ensures 1 <= values.kind <= 3 && SubmittedValid()
    {
      OnTypeInput(text);
      TypeInputSpec(old(values).kind, text);
      Submit();
    }
  }
}
