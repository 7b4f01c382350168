/**
 * The settings form that `ModuleSettingsForm` wraps around a settings
 * component: it keeps option edits locally, reports whether there are unsaved
 * ones, gates the save button and hands the whole batch to `updateOptions`
 * on submit.
 *
 * The props the form receives are outside it: `getSettingCurrentValue` is a
 * function parameter, `isUpdating` a boolean parameter, and the calls the
 * form makes to `setUnsavedOptionFlag`, `clearUnsavedOptionFlag` and
 * `updateOptions` are recorded, in the order the form makes them, in the
 * log `calls`.
 */
module ModuleSettings {
  import opened Options

  /** The control that fired a change event (`event.target`). */
  datatype Target = Target(name: string, kind: string, checked: Value, value: Value)

  /** How the promise returned by `updateOptions` settled. */
  datatype Settlement = Resolved | Rejected

  /** A call the form makes to one of its callback props. */
  datatype Call = SetUnsaved | ClearUnsaved | UpdateOptions(batch: Pending)

  /** The value `onOptionChange` records for a control. */
  function RecordedValue(target: Target): (v: Value)
    ensures target.kind == "checkbox" && Defined(target.checked) ==> v == target.checked
    ensures target.kind == "checkbox" && !Defined(target.checked) ==> v == target.value
    ensures target.kind != "checkbox" ==> v == target.value
  {
    if target.kind == "checkbox" && Defined(target.checked) then target.checked else target.value
  }

  /** The value shown for `name`: the pending one when it is defined, otherwise
      the authoritative one. */
  function Effective(pending: Pending, name: string, current: string -> Value): Value
  {
    if name in pending && Defined(pending[name]) then pending[name] else current(name)
  }

  /** Right after an edit with a defined value, that value is what is shown for
      its name, whatever the authoritative value; other names show what they
      showed before. */
  lemma EditThenRead(pending: Pending, name: string, value: Value, other: string, current: string -> Value)
    ensures Defined(value) ==> Effective(pending[name := value], name, current) == value
    ensures !Defined(value) ==> Effective(pending[name := value], name, current) == current(name)
    ensures other != name ==> Effective(pending[name := value], other, current) == Effective(pending, other, current)
  {
  }

  class SettingsForm {
    /** `state.options`: the pending edits. */
    var options: Pending
    /** Calls made to `setUnsavedOptionFlag`, `clearUnsavedOptionFlag` and
        `updateOptions`, oldest first. */
    var calls: seq<Call>
    /** The edits made since construction or since the last resolved save. */
    ghost var edits: seq<Edit>

    ghost predicate Valid()
      reads this
    {
      options == Replay(edits)
    }

    /** `getInitialState`: no pending options. */
    constructor ()
      ensures Valid()
      ensures options == map[] && edits == []
      ensures calls == []
      ensures !IsDirty()
    {
      options := map[];
      calls := [];
      edits := [];
    }

    /** Records the value of the control that changed under the control's name. */
    method OnOptionChange(target: Target)
      requires Valid()
      modifies this
      ensures Valid()
      ensures options == old(options)[target.name := RecordedValue(target)]
      ensures edits == old(edits) + [Edit(target.name, RecordedValue(target))]
      ensures calls == old(calls) + [SetUnsaved]
    {
      var optionName := target.name;
      var optionValue;
      if target.kind == "checkbox" {
        optionValue := if Defined(target.checked) then target.checked else target.value;
      } else {
        optionValue := target.value;
      }
      var _ := UpdateFormStateOptionValue(optionName, optionValue);
    }

    /** Sets one pending option, leaving every other one as it was, and tells the
        observer there are unsaved options. */
    method UpdateFormStateOptionValue(optionName: string, optionValue: Value) returns (ok: bool)
      requires Valid()
      modifies this
      ensures Valid()
      ensures ok
      ensures optionName in options && options[optionName] == optionValue
      ensures forall n :: n != optionName ==>
        (n in options <==> n in old(options)) && (n in options ==> options[n] == old(options)[n])
      ensures |options| == if optionName in old(options) then |old(options)| else |old(options)| + 1
      ensures options == old(options)[optionName := optionValue]
      ensures edits == old(edits) + [Edit(optionName, optionValue)]
      ensures calls == old(calls) + [SetUnsaved]
    {
      options := options[optionName := optionValue];
      edits := edits + [Edit(optionName, optionValue)];
      assert edits[..|edits| - 1] == old(edits);
      calls := calls + [SetUnsaved];
      ok := true;
    }

    /** Hands the whole pending map to `updateOptions` and tells the observer
        there are no unsaved options, whatever the outcome; the map is emptied
        only when the returned promise resolves. */
    method OnSubmit(settlement: Settlement)
      requires Valid()
      modifies this
      ensures Valid()
      ensures calls == old(calls) + [UpdateOptions(old(options)), ClearUnsaved]
      ensures settlement == Resolved ==> options == map[] && edits == [] && !IsDirty()
      ensures settlement == Rejected ==> options == old(options) && edits == old(edits)
    {
      calls := calls + [UpdateOptions(options)];
      if settlement == Resolved {
        options := map[];
        edits := [];
      }
      calls := calls + [ClearUnsaved];
    }

    /** The value shown for `settingName`. */
    function GetOptionValue(settingName: string, getSettingCurrentValue: string -> Value): (v: Value)
      reads this
      requires Valid()
      ensures settingName in options && Defined(options[settingName]) ==> v == options[settingName]
      ensures settingName !in options ==> v == getSettingCurrentValue(settingName)
      ensures settingName in options && !Defined(options[settingName]) ==> v == getSettingCurrentValue(settingName)
      ensures forall i :: IsLastEdit(edits, settingName, i) ==>
        v == if Defined(edits[i].value) then edits[i].value else getSettingCurrentValue(settingName)
      ensures settingName !in EditedNames(edits) ==> v == getSettingCurrentValue(settingName)
    {
      ReplayKeys(edits);
      ReplayLastEditWins(edits, settingName);
      Effective(options, settingName, getSettingCurrentValue)
    }

    /** Whether the save button is disabled: while a save is in flight, and
        whenever there is nothing to save. */
    function ShouldSaveButtonBeDisabled(isUpdating: bool): (disabled: bool)
      reads this
      requires Valid()
      ensures isUpdating ==> disabled
      ensures !isUpdating ==> (disabled <==> edits == [])
      ensures !disabled <==> !isUpdating && exists n :: n in options
    {
      var shouldItBeEnabled := !IsSavingAnyOption(isUpdating) && IsDirty();
      !shouldItBeEnabled
    }

    /** Whether there are pending options. */
    function IsDirty(): (dirty: bool)
      reads this
      requires Valid()
      ensures dirty <==> exists n :: n in options
      ensures dirty <==> edits != []
    {
      ReplayKeys(edits);
      |options.Keys| != 0
    }

    /** Whether a save is in flight, as the `isUpdating` prop says. */
    function IsSavingAnyOption(isUpdating: bool): (saving: bool)
      ensures saving == isUpdating
    {
      isUpdating
    }
  }
}
