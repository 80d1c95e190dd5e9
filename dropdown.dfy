/** What the filter dropdowns share: the draft/commit/cancel selection state,
    the parent callbacks a handler invokes, and the lookup of an option's label. */
module Dropdown {
  import opened Wrappers

  /** The parent callbacks a handler invokes: the value handed to the
      `on…Change` callback, and the open state handed to `onToggle`. */
  datatype Emitted<T> = Emitted(change: Option<T>, toggle: Option<bool>)

  /** A dropdown's selection state: the committed value it receives from its
      parent (`selected…` prop) and its own `tempSelected` draft. */
  class Draft<T(==)> {
    var selected: T
    var tempSelected: T

    /** `useState(selected…)`: the draft starts at the committed value. */
    constructor (selected: T)
      ensures this.selected == selected && tempSelected == selected
    {
      this.selected := selected;
      tempSelected := selected;
    }

    /** `handle…Select(value)`: only the draft changes; the parent hears nothing. */
    method Select(value: T)
      modifies this
      ensures tempSelected == value && selected == old(selected)
    {
      tempSelected := value;
    }

    /** `handleApply`: hands the draft to the parent and asks it to close the
        dropdown; the component's own state is left to the parent's answer. */
    method Apply() returns (emitted: Emitted<T>)
      ensures emitted.change == Some(tempSelected)
      ensures emitted.toggle == Some(false)
    {
      emitted := Emitted(Some(tempSelected), Some(false));
    }

    /** `handleCancel`: the draft falls back to the committed value and the
        parent is asked to close the dropdown, with no change of value. */
    method Cancel() returns (emitted: Emitted<T>)
      modifies this
      ensures tempSelected == selected && selected == old(selected)
      ensures emitted.change == None && emitted.toggle == Some(false)
    {
      tempSelected := selected;
      emitted := Emitted(None, Some(false));
    }

    /** A re-render with prop value `prop`; the resync effect copies it into
        the draft only when it differs from the previous prop. */
    method ReceiveProp(prop: T)
      modifies this
      ensures selected == prop
      ensures tempSelected == if prop != old(selected) then prop else old(tempSelected)
    {
      if prop != selected {
        tempSelected := prop;
      }
      selected := prop;
    }
  }

  /** Apply, answered by a parent that adopts the emitted value, commits the
      draft: the committed value and the draft both become the chosen one. */
  method SelectAndApply<T(==)>(d: Draft<T>, value: T) returns (emitted: Emitted<T>)
    modifies d
    ensures emitted == Emitted(Some(value), Some(false))
    ensures d.selected == value && d.tempSelected == value
  {
    d.Select(value);
    emitted := d.Apply();
    d.ReceiveProp(emitted.change.value);
  }

  /** Cancel after any number of selections leaves the committed value as it was
      and the draft equal to it. */
  method SelectAndCancel<T(==)>(d: Draft<T>, values: seq<T>) returns (emitted: Emitted<T>)
    modifies d
    ensures emitted == Emitted(None, Some(false))
    ensures d.selected == old(d.selected) && d.tempSelected == old(d.selected)
  {
    for i := 0 to |values|
      invariant d.selected == old(d.selected)
    {
      d.Select(values[i]);
    }
    emitted := d.Cancel();
  }

  /** `options.find(opt => opt.value === v)`, answering with its label, or
      `fallback` when no option matches. */
  function LabelOf<V(==)>(options: seq<(V, string)>, v: V, fallback: string): (r: string)
    ensures (forall i :: 0 <= i < |options| ==> options[i].0 != v) ==> r == fallback
    ensures |options| > 0 && options[0].0 == v ==> r == options[0].1
  {
    if options == [] then fallback
    else if options[0].0 == v then options[0].1
    else
      assert forall i :: 1 <= i < |options| ==> options[i] == options[1..][i - 1];
      LabelOf(options[1..], v, fallback)
  }

  /** With distinct option values, the label of an option's own value is that
      option's label: the first match is the only one. */
  lemma {:induction false} LabelOfOption<V>(options: seq<(V, string)>, i: nat, fallback: string)
    requires i < |options|
    requires forall j, k :: 0 <= j < k < |options| ==> options[j].0 != options[k].0
    ensures LabelOf(options, options[i].0, fallback) == options[i].1
  {
    if i > 0 {
      assert options[0].0 != options[i].0;
      assert options[1..][i - 1] == options[i];
      LabelOfOption(options[1..], i - 1, fallback);
    }
  }
}
