/** components/ui/tabs.tsx: a tab set that is controlled when its `value` prop is
    given and keeps its own selection otherwise, with triggers and panels that read
    the selection from the enclosing set. */
module Tabs {
  import opened Optional

  /** `value || defaultValue || ""`: an empty string counts as absent. */
  function InitialTab(value: Option<string>, defaultValue: Option<string>): (r: string)
    ensures value.Some? && value.value != "" ==> r == value.value
    ensures (value.None? || value.value == "") && defaultValue.Some? ==> r == defaultValue.value
    ensures (value.None? || value.value == "") && defaultValue.None? ==> r == ""
  {
    if value.Some? && value.value != "" then value.value
    else if defaultValue.Some? then defaultValue.value
    else ""
  }

  class TabSet {
    /** The `value` prop; `None` means uncontrolled. */
    var value: Option<string>
    var selectedTab: string

    /** First render: the state starts from the props. */
    constructor(value: Option<string>, defaultValue: Option<string>)
      ensures this.value == value
      ensures selectedTab == InitialTab(value, defaultValue)
    {
      this.value := value;
      selectedTab := InitialTab(value, defaultValue);
    }

    /** The sync effect, run after mount and whenever the `value` prop changes: a
        defined value is copied into the state. */
    method SyncValue(newValue: Option<string>)
      modifies this
      ensures value == newValue
      ensures newValue.Some? ==> selectedTab == newValue.value
      ensures newValue.None? ==> selectedTab == old(selectedTab)
    {
      value := newValue;
      if newValue.Some? {
        selectedTab := newValue.value;
      }
    }

    /** `handleTabChange`: the state follows only when uncontrolled; `onValueChange` is
        called with the new value whenever it is given. */
    method HandleTabChange(newValue: string, hasOnValueChange: bool) returns (notified: Option<string>)
      modifies this
      ensures value == old(value)
      ensures old(value).None? ==> selectedTab == newValue
      ensures old(value).Some? ==> selectedTab == old(selectedTab)
      ensures notified.Some? <==> hasOnValueChange
      ensures notified.Some? ==> notified.value == newValue
    {
      if value.None? {
        selectedTab := newValue;
      }
      notified := if hasOnValueChange then Some(newValue) else None;
    }
  }

  /** A trigger or panel outside a tab set throws; `context` is the set's selection. */
  datatype TriggerView = TriggerThrows | Trigger(isSelected: bool)

  function TriggerOf(context: Option<string>, value: string): (v: TriggerView)
    ensures v.TriggerThrows? <==> context.None?
    ensures v.Trigger? ==> (v.isSelected <==> context.value == value)
  {
    match context
    case None => TriggerThrows
    case Some(selected) => Trigger(selected == value)
  }

  datatype ContentView = ContentThrows | Hidden | Shown(animated: bool)

  /** A panel renders when it is selected or force-mounted, and animates only when
      selected. */
  function ContentOf(context: Option<string>, value: string, forceMount: bool): (v: ContentView)
    ensures v.ContentThrows? <==> context.None?
    ensures context.Some? ==> (v.Shown? <==> context.value == value || forceMount)
    ensures v.Shown? ==> (v.animated <==> context.value == value)
  {
    match context
    case None => ContentThrows
    case Some(selected) =>
      if selected != value && !forceMount then Hidden else Shown(selected == value)
  }

  /** Under one selection at most one of several distinct trigger values is selected,
      and the trigger whose value is the selection is. */
  lemma AtMostOneTriggerSelected(selected: string, values: seq<string>, i: int, j: int)
    requires 0 <= i < |values| && 0 <= j < |values| && values[i] != values[j]
    ensures !(TriggerOf(Some(selected), values[i]).isSelected && TriggerOf(Some(selected), values[j]).isSelected)
    ensures values[i] == selected ==> TriggerOf(Some(selected), values[i]).isSelected
  {
  }
}
