/**
  The checkbox group of `src/components/common/CheckBoxGroup.tsx`: which boxes are
  checked, and what a click hands to `onChangeOptions`. Adding builds a new array;
  removing splices the caller's own `selectedValues` array and passes that same
  array on.
*/
module CheckBoxGroup {
  import opened JsArrays
  import opened Seqs

  /** A box is checked exactly when its option value is among the selected values. */
  predicate Checked(selectedValues: seq<string>, optionValue: string)
  {
    optionValue in selectedValues
  }

  /**
    `handleChangeOption(value)`: returns the array passed to `onChangeOptions`.
    An absent value gives a fresh array with the value appended and leaves the
    caller's array alone; a present value is spliced out of the caller's array,
    which is returned itself.
  */
  method HandleChangeOption(selectedValues: JsArray<string>, value: string) returns (passed: JsArray<string>)
    modifies selectedValues
    ensures passed.items == Toggle(old(selectedValues.items), value)
    ensures value !in old(selectedValues.items) ==>
      fresh(passed) && selectedValues.items == old(selectedValues.items)
    ensures value in old(selectedValues.items) ==> passed == selectedValues
  {
    var index := IndexOf(selectedValues.items, value);
    if index < 0 {
      passed := new JsArray(selectedValues.items + [value]);
    } else {
      selectedValues.SpliceOne(index);
      passed := selectedValues;
    }
  }

  /**
    After a click on a duplicate-free selection, the clicked box flips, every other
    box keeps its state, and the others keep their relative order.
  */
  lemma ClickFlipsOnlyThatBox(selected: seq<string>, value: string, other: string)
    requires NoDuplicates(selected)
    requires other != value
    ensures Checked(Toggle(selected, value), value) <==> !Checked(selected, value)
    ensures Checked(Toggle(selected, value), other) <==> Checked(selected, other)
    ensures Without(Toggle(selected, value), value) == Without(selected, value)
  {
    ToggleFlips(selected, value);
    ToggleKeepsOthers(selected, value);
  }
}
