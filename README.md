# Jetpack module settings form, modelled in Dafny

This project models the settings form built by `ModuleSettingsForm` in Jetpack's
admin client. The form wraps a settings component. It keeps edited option values in a
local map (`state.options`, option name to pending value) until they are saved.
Through the wrapped component it offers these operations:

- `onOptionChange` turns a change event into a value.
- `updateFormStateOptionValue` records that value under the option's name.
- `getOptionValue` shows the pending value, or else the authoritative one.
- `isDirty` says whether anything is pending.
- `shouldSaveButtonBeDisabled` gates the save button.
- `onSubmit` sends the whole map to `updateOptions` and empties it once the save resolves.

Two modules:

- `Options` (`options.dfy`) defines the values the form handles. A value is a
  boolean, a string or JavaScript's `undefined`. The module also defines the pending
  map and `Replay`, the map that a sequence of edits builds. Lemmas about `Replay` say
  which names the map holds and which value each holds.
- `ModuleSettings` (`settings_form.dfy`) defines the change-event target, the value
  `onOptionChange` picks from it, and the class `SettingsForm`. The class has the map
  as a field, methods for the three state-changing operations and functions for the
  four queries. A ghost field `edits` holds the edits made since the form was built
  or since the last resolved save. The invariant `Valid()` says that the map is
  `Replay(edits)`. This gives the queries their meaning in terms of that history:
  - the form is dirty exactly when an edit has been made since the last resolved save;
  - the value shown for a name is the one its last edit gave, unless that value is `undefined`.

The props the form receives from outside are modelled as follows:

- `getSettingCurrentValue` is a function parameter.
- `isUpdating` is a boolean parameter.
- The calls to `setUnsavedOptionFlag`, `updateOptions` (with the map handed to it)
  and `clearUnsavedOptionFlag` are appended to one log, `calls`, in the order the
  form makes them.
- How the promise that `updateOptions` returns settles is the `Settlement` argument of
  `OnSubmit`: `Resolved` or `Rejected`.

Two behaviours of the code are kept as written:

- A key holding `undefined` counts for `isDirty`, because `Object.keys` lists it. But
  `getOptionValue` skips such a key and shows the authoritative value, because of its
  `typeof` test.
- `clearUnsavedOptionFlag` is called on every submit, even when the save is rejected
  and the map keeps its edits. After a rejected save the observer has been told there
  is nothing unsaved, yet `IsDirty()` still holds.

`OnSubmit`'s `Settlement` is the settlement of the promise returned by `updateOptions`,
not the result of the REST call. The thunk `updateSettings` in
`_inc/client/state/settings/actions.js:94-112` catches REST failures, so its promise
resolves even when the save fails. If `updateOptions` is bound to that thunk, a failed
save therefore also empties the map. That wiring lives in `connect-module-options`,
and `connect-module-options` is not part of this model.

## Model

| member | source | states |
|---|---|---|
| `ModuleSettings.SettingsForm.constructor` | _inc/client/components/module-settings/module-settings-form.jsx:13-17 | a new form has an empty pending map and no edit history, and is not dirty |
| `ModuleSettings.RecordedValue` | _inc/client/components/module-settings/module-settings-form.jsx:21-28 | a checkbox with a defined `checked` records `checked`; a checkbox whose `checked` is undefined records `value`; any other control records `value` |
| `ModuleSettings.SettingsForm.OnOptionChange` | _inc/client/components/module-settings/module-settings-form.jsx:18-31 | records the value picked by `RecordedValue` under the control's `name`, appends that edit to the history, and logs exactly one `setUnsavedOptionFlag` call |
| `ModuleSettings.SettingsForm.UpdateFormStateOptionValue` | _inc/client/components/module-settings/module-settings-form.jsx:32-40 | always returns true; the edited name then holds the new value; every other name keeps its presence and value; the map grows by one only if the name was new; exactly one `setUnsavedOptionFlag` call is logged; the invariant is kept |
| `ModuleSettings.SettingsForm.OnSubmit` | _inc/client/components/module-settings/module-settings-form.jsx:41-48 | logs `updateOptions` with exactly the pending map, then `clearUnsavedOptionFlag`, whatever the outcome; when the promise resolves, the map and the history become empty and the form is no longer dirty; when it rejects, both are unchanged |
| `ModuleSettings.SettingsForm.GetOptionValue` | _inc/client/components/module-settings/module-settings-form.jsx:54-59 | a defined pending value wins over the authoritative one; an absent pending value, or one that is `undefined`, falls back to it; in terms of history, shows the last edit's value for the name, or the authoritative value if the name was never edited or its last edit was undefined |
| `ModuleSettings.EditThenRead` | _inc/client/components/module-settings/module-settings-form.jsx:32-37 | right after an edit with a defined value, that value is shown for its name whatever the authoritative value; an undefined edit shows the authoritative value; other names show what they showed before |
| `ModuleSettings.SettingsForm.ShouldSaveButtonBeDisabled` | _inc/client/components/module-settings/module-settings-form.jsx:61-66 | always disabled while an update is in flight; otherwise disabled exactly when no edit was made since the last resolved save; enabled exactly when not updating and some option is pending |
| `ModuleSettings.SettingsForm.IsDirty` | _inc/client/components/module-settings/module-settings-form.jsx:67-69 | dirty exactly when the pending map has a key, and exactly when an edit was made since construction or the last resolved save |
| `ModuleSettings.SettingsForm.IsSavingAnyOption` | _inc/client/components/module-settings/module-settings-form.jsx:70-73 | reports what the `isUpdating` prop reports |
| `Options.ReplayKeys` | _inc/client/components/module-settings/module-settings-form.jsx:32-37 | the map that successive spread-and-set edits build holds exactly the names that were edited |
| `Options.ReplayLastEditWins` | _inc/client/components/module-settings/module-settings-form.jsx:32-37 | in that map, each edited name holds the value of its last edit |

## Left out

- Rendering, prop spreading and the `connectModuleOptions` wrapper (module-settings-form.jsx:74-87) are React plumbing. The props they supply are parameters or logs here.
- `event.preventDefault()` in `onSubmit` touches the browser event only.
- ModuleSettings.SettingsForm.GetOptionValue: option names are taken to be distinct from the members `state.options` inherits from `Object.prototype` (`constructor`, `toString`, `hasOwnProperty`, ...). For such a name with no pending edit, the code's `typeof` test (module-settings-form.jsx:56-58) sees the inherited member and returns it; the contract promises the authoritative value instead.
- ModuleSettings.SettingsForm.UpdateFormStateOptionValue: each edit is modelled as committed before the next one starts, which is what one `onOptionChange` per change event produces. React's `setState` (module-settings-form.jsx:37) is deferred and batched within one event handler, so two calls made by the wrapped component in the same handler both spread the same stale `state.options` (line 34) and only the last edit survives. The model keeps both, so it does not capture that batching.
- Promise timing: a submit is one step that takes the settlement as an argument. Edits made while a save is in flight are therefore not modelled. In the code, a resolution that arrives after such edits empties the map and discards them too.
- `connect-module-options` is not part of this model, so neither is the binding of `updateOptions`, `getSettingCurrentValue`, `isUpdating` and the flag callbacks to the Redux store.
- The Redux thunks in `_inc/client/state/settings/actions.js` (fetch and update requests, notices) are asynchronous I/O around a REST client that is not shown.
- The PHP tests in `tests/php/_inc/lib/test_class.rest-api-endpoints.php` exercise REST permission callbacks whose implementation is not shown. They depend on WordPress capabilities and options storage.
- JavaScript values other than booleans, strings and `undefined` (numbers, `null`, objects) are not modelled as option values.
