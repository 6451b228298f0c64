# Form-state engine of duxui, modelled in Dafny

This project models the form engine of `components/Form/Form.jsx`. It has three parts.

- **Root container (`Form`).** It holds a live value map (`values`) and a committed map (`resultData`, exposed as `data`). It also holds a rule registry (`validateSchemas`) and the last validation verdict (`validateErrors`).
  - Quick mode (the `quick` prop, true by default) commits every change of `values` to `data` and calls `onChange`, but only when the two maps differ. The prop can change between renders, and switching into quick mode commits at once.
  - Non-quick mode commits only on a successful `submit`.
  - `reset` restores the default values.
- **Field binder (`Form.Item`).** It registers its field's rules, reports field renames, and routes each new value to `setValue(field, v)`, or to `setValues(v)` when it edits several fields.
- **Scoping adapters (`Form.Array`, `Form.Object`, `Form.ArrayAction`).**
  - The array and object sub-forms copy the current value of a nested array or object, assign into the copy and hand the whole copy to `onChange`.
  - `Form.ArrayAction` calls its `action` prop on a spread copy of the array sub-form's values. It hands whatever `action` returns to `ArrayForm.setValues`, which passes it to `onChange` unchanged.

Files:

- `wrappers.dfy`: the `Option` datatype.
- `values.dfy`: JavaScript values as a datatype.
  - Array holes are `None` slots.
  - `OwnProps` gives what the object spread `{...v}` copies.
  - `Spread` gives what the array spread `[...v]` yields: holes read as `undefined`, and a value that is not iterable throws.
- `adapters.dfy`: the adapters as pure functions, with lemmas about repeated and reordered writes.
- `form_spec.dfy`: the container's state machine on values.
  - There is one step function per operation.
  - Event traces (`Run`) apply the quick-mode commit after every event that writes the live map or changes the `quick` prop.
  - Lemmas state what holds of every trace.
- `form.dfy`: class `Form`. Each method is proved to take exactly the `FormSpec` step for its operation.
- `form_item.dfy`: class `FieldBinder`, the routing function, and lemmas for writes made through a sub-form.

The validation library (`b-validate`) is a `Validator`. This is a function from the rule registry and the values to a verdict, given to the form when it is created. A verdict of `None` stands for the `null` error argument and passes. Any error object fails, including an empty one, because the code tests `!errors`.

In non-quick mode `reset` changes only `values`. It neither calls `onChange` nor touches `data` (Form.jsx:148-154). So in that mode only a successful `submit` notifies the host, as `NonQuickSilentWithoutSubmit` states.

## Model

| member | source | states |
|---|---|---|
| `Values.OwnProps` | components/Form/Form.jsx:394-396 | The object spread copies an object's fields, an array's assigned slots and a string's characters under their index keys, and nothing from any other value |
| `Values.Spread` | components/Form/Form.jsx:371-375 | The array spread yields an array's slots with holes read as undefined or a string's characters, never leaves holes, and throws for every other value |
| `Adapters.ArraySetValue` | components/Form/Form.jsx:341-345 | The result is an array in which slot `index` holds the new value. Every other slot of an array value is kept, with holes read as undefined. A non-array counts as `[]`. The length is max(old length, index+1), and slots between the old end and `index` are holes |
| `Adapters.ArrayRepeatedWrite` | components/Form/Form.jsx:341-345 | Repeating a slot write is idempotent only up to holes: the second write fills the holes the first one left |
| `Adapters.ArrayLastWriteWins` | components/Form/Form.jsx:341-345 | Of two writes to the same slot the later value wins, and the other slots equal those of the single later write, up to holes |
| `Adapters.ArrayWritesCommuteUpToHoles` | components/Form/Form.jsx:341-345 | Writes to two different slots give the same array in either order once holes are read as undefined |
| `Adapters.ArrayWriteExamples` | components/Form/Form.jsx:341-345 | `[10, 20]` with slot 0 set to 99 gives `[99, 20]`; undefined with slot 1 set to 5 gives a hole followed by 5 |
| `Adapters.ObjectSetValue` | components/Form/Form.jsx:402-406 | The result is an object that holds the new value under `field` and keeps every other own property of the current value when `typeof` calls it an object. Otherwise it holds only `field` |
| `Adapters.ObjectSetValues` | components/Form/Form.jsx:394-396 | The result is an object whose keys are the union of both values' own properties. The partial's properties win, and the current value's other properties are kept |
| `Adapters.ObjectSetValuesIdempotent` | components/Form/Form.jsx:394-396 | Merging the same partial twice gives the same result as merging it once |
| `Adapters.ObjectSetValueIsOneFieldMerge` | components/Form/Form.jsx:394-406 | For every current value except a string, setting one field equals merging a one-field object |
| `Adapters.ObjectWritersDifferOnStrings` | components/Form/Form.jsx:394-406 | For every non-empty string and every field other than "0", the two writers differ. setValue gives only the written field. setValues also copies the string's first character under "0" |
| `Adapters.ArrayValues` | components/Form/Form.jsx:349-350 | An array sub-form exposes its value when it is truthy and `[]` otherwise |
| `Adapters.ArrayActionClick` | components/Form/Form.jsx:371-375 | Nothing is emitted exactly when the action is not a function. A non-iterable truthy value throws. Otherwise the action's result on the spread copy is emitted whole. That copy is the array with holes read as undefined, a non-empty string's characters, or `[]` for a falsy value |
| `Adapters.ArrayActionIdentityCopies` | components/Form/Form.jsx:371-375 | The identity action re-emits the array, in order, with its holes filled |
| `FormSpec.Initial` | components/Form/Form.jsx:46-73 | On mount the live map, the committed map and the defaults are one map. That map is the literal prop, or `{}` for a producer, whose result stays pending. Nothing is registered, no verdict is stored, and nothing has been sent to the host |
| `FormSpec.SetValueStep` | components/Form/Form.jsx:95-100 | The key holds the new value, every other key keeps its value, the key set grows by that key only, and no other part of the state changes |
| `FormSpec.SetValuesStep` | components/Form/Form.jsx:102-104 | Shallow merge: the partial's keys win, keys outside the partial keep their values, and no other part of the state changes |
| `FormSpec.SetValuesIdempotent` | components/Form/Form.jsx:102-104 | Applying the same partial twice gives the same state as applying it once |
| `FormSpec.CommitStep` | components/Form/Form.jsx:83-93 | In quick mode, when the live map differs from the committed one, the live map is committed and exactly one onChange with it is appended. Otherwise nothing changes. After the step, in quick mode, the committed map equals the live map |
| `FormSpec.CommitIdempotent` | components/Form/Form.jsx:83-93 | A second commit with no write in between changes nothing and notifies nobody |
| `FormSpec.AddItemStep` | components/Form/Form.jsx:134-136 | The field's rule list is overwritten; no other entry changes or disappears |
| `FormSpec.ReRegistrationReplaces` | components/Form/Form.jsx:134-136 | Registering a field twice leaves exactly the registry the second registration alone would leave |
| `FormSpec.ValidateStep` | components/Form/Form.jsx:116-129 | validateErrors always becomes the validator's verdict on the registry and the latest values. The call succeeds exactly when that verdict is null. Nothing else changes |
| `FormSpec.SubmitStep` | components/Form/Form.jsx:138-146 | On a failed validation only validateErrors changes: no onSubmit, no onChange, and the committed map is unchanged. On success onSubmit(values) fires once. In non-quick mode, and only there, it is followed by onChange(values) and `data := values` |
| `FormSpec.ResetStep` | components/Form/Form.jsx:148-154 | The live map becomes the defaults. In quick mode the committed map does too, and onChange(defaults) is appended once, even when nothing changed. In non-quick mode nothing else changes |
| `FormSpec.CommitAfterResetIsNoop` | components/Form/Form.jsx:148-154 | In quick mode the commit that follows a reset does nothing |
| `FormSpec.ArriveStep` | components/Form/Form.jsx:57-67 | A producer's result replaces the live map wholesale, not merged. A rejected or absent result changes nothing |
| `FormSpec.RunKeepsConfiguration` | components/Form/Form.jsx:40-52 | No sequence of events changes the memoised defaults. Only a new `quick` prop changes the mode |
| `FormSpec.SwitchingModeCommits` | components/Form/Form.jsx:83-93 | A new `quick` prop sets the mode. Switching into quick mode commits the live map at once, notifying the host when it differs from the committed map. Switching out of quick mode changes nothing else |
| `FormSpec.QuickKeepsDataInSync` | components/Form/Form.jsx:83-93 | After every sequence of events, including mode switches, a form in quick mode has a committed map equal to its live map |
| `FormSpec.MountInvariants` | components/Form/Form.jsx:54-93 | From mount, after every sequence of events, a form in quick mode has a committed map equal to its live map, and the host's last onChange payload, if any, is the committed map |
| `FormSpec.QuickWriteNotifiesOnlyOnChange` | components/Form/Form.jsx:83-100 | In quick mode, a setValue that changes the stored value notifies exactly once with the new live map. A setValue of the value already stored changes nothing and notifies nobody |
| `FormSpec.HostStaysInSync` | components/Form/Form.jsx:83-154 | In both modes, after any sequence of events, the host's most recent onChange payload equals the committed map |
| `FormSpec.NonQuickSilentWithoutSubmit` | components/Form/Form.jsx:138-154 | In non-quick mode, events without a submit and without a switch into quick mode (writes and resets included) keep the mode, call neither onChange nor onSubmit, and leave the committed map unchanged |
| `FormSpec.ResetRestoresDefaults` | components/Form/Form.jsx:148-154 | After any history, reset restores the live map to the defaults, and, when the form is then in quick mode, the committed map too |
| `FormSpec.ProducerFormResetsToEmpty` | components/Form/Form.jsx:46-52 | A form whose defaults come from a producer resets to `{}`, not to what the producer yielded |
| `FormSpec.PendingUntilArrival` | components/Form/Form.jsx:57-67 | The producer's result stays pending, unchanged, until it is applied |
| `FormSpec.ArrivalDiscardsEarlierWrites` | components/Form/Form.jsx:57-67 | When the producer's result arrives, the live map is exactly that result; writes made before it arrived are lost |
| `FormSpec.LastWriteWins` | components/Form/Form.jsx:95-104 | Without resets or arriving defaults, each key holds the value of its last setValue or setValues write. A key that no write touched keeps its old value, or stays absent |
| `FormSpec.RegistrationLastWins` | components/Form/Form.jsx:134-136 | After any sequence of events, a field registered in it holds the rules of its last registration. Any other field keeps its old entry or stays unregistered |
| `FormSpec.RegistrationsPersist` | components/Form/Form.jsx:106-136 | There is no unregistration: every registered field stays registered |
| `FormContainer.Form.constructor` | components/Form/Form.jsx:34-73 | The new form's state is the mount state `Initial` for its mode and defaults |
| `FormContainer.Form.SetValue` | components/Form/Form.jsx:95-100 | Takes the setValue step: the key holds the value, and neither data nor the notifications change |
| `FormContainer.Form.SetValues` | components/Form/Form.jsx:102-104 | Takes the setValues step: every property of the partial is stored |
| `FormContainer.Form.Commit` | components/Form/Form.jsx:83-93 | Takes the commit step: in quick mode data equals values afterwards, and at most one notification is added |
| `FormContainer.Form.AddItem` | components/Form/Form.jsx:134-136 | Takes the registration step |
| `FormContainer.Form.Validate` | components/Form/Form.jsx:116-129 | Takes the validation step. validateErrors is the validator's verdict on the old registry and values, and the result is true exactly when that verdict is null |
| `FormContainer.Form.Submit` | components/Form/Form.jsx:138-146 | Takes the submit step. On failure data and the notifications are unchanged |
| `FormContainer.Form.Reset` | components/Form/Form.jsx:148-154 | Takes the reset step: values equals the defaults afterwards |
| `FormContainer.Form.ApplyProducedDefaults` | components/Form/Form.jsx:57-67 | Takes the arrival step for the producer's result |
| `FormContainer.Form.SetQuick` | components/Form/Form.jsx:40 | A render with a new `quick` prop changes the mode and nothing else |
| `FormContainer.Form.Dispatch` | components/Form/Form.jsx:83-104 | Handles one event, as `Handle` specifies. The commit effect follows when the event wrote the live map or changed the mode |
| `FieldBinding.Route` | components/Form/Form.jsx:243-247 | A multi-field binder's value goes whole to setValues; otherwise the value goes to setValue of the bound field. Either way the live map is written |
| `FieldBinding.RoutedWriteReadsBack` | components/Form/Form.jsx:223-247 | After a single-field binder writes, the value it reads back is the value it wrote. In quick mode the committed map holds that value too |
| `FieldBinding.RoutedMultiWriteMerges` | components/Form/Form.jsx:243-247 | After a multi-field binder writes, every property of the written value is in the live map |
| `FieldBinding.ObjectScopedWrite` | components/Form/Form.jsx:386-406 | A write of `inner` through an object sub-form bound to `outer` stores the value under `outer.inner`. It keeps the other properties of `outer` and every other root field |
| `FieldBinding.ArrayScopedWrite` | components/Form/Form.jsx:321-345 | A write of slot `index` through an array sub-form bound to `outer` stores the value in that slot. It keeps the other slots (holes read as undefined) and every other root field |
| `FieldBinding.SubFormBatchLosesEarlierWrite` | components/Form/Form.jsx:395-406 | Two writes to different new fields through one object sub-form, both based on the same render, keep only the second field. With a render between them, both fields are kept |
| `FieldBinding.FieldBinder.constructor` | components/Form/Form.jsx:203 | A new binder has no previous field and has reported nothing |
| `FieldBinding.FieldBinder.Render` | components/Form/Form.jsx:205-217 | On the first render and on every field rename, the binder registers its rules (only when there are any) and reports (new field, previous field) once. A render with the same field does neither, even if the rules changed |
| `FieldBinding.FieldBinder.Change` | components/Form/Form.jsx:241-248 | The change handler hands the routed write to the root form, followed by the commit effect |

## Left out

- Rendering is not modelled. This covers JSX, labels, error text, the `Form.Submit` and `Form.Reset` buttons, `cloneElement` prop injection and the React contexts. Sub-forms forward `labelProps`, `direction`, `disabled` and `validateErrors` unchanged; that forwarding is plumbing.
- The child's own trigger handler and value prop are never used. Form.jsx:242 and 250 look them up on the React element itself (`_child[trigger]`, `_child[triggerPropName]`), not on its props, so both lookups give `undefined`. The child's handler is never called, and the bound value always comes from the form. Line 249 reads `_child.props.field`, so `.props` was evidently meant at 242 and 250 too. The model routes every change to the form and reads the value from the form, as the code does.
- `renderItem` enumeration in `Form.Array` is not modelled. Neither is the pass-through `ArrayForm.setValues` (Form.jsx:333-335), except as the last step of `ArrayActionClick`.
- The internals of `b-validate` are not modelled: the validator is a parameter of the form.
- React scheduling is reduced to discrete, synchronous steps. Several writes inside one event handler are batched by React into one render and one commit. The model commits after each event; `LastWriteWins` gives the map such a batch leaves at the root.
- Batching also loses writes made through a sub-form. `ArrayForm.setValue` and `ObjectForm.setValue` read `valueRef.current` (Form.jsx:339-342, 400-403), and `ObjectForm.setValues` reads the closed-over `value` (Form.jsx:395). Both hold the last render's value. So, of two writes through the same sub-form in one handler, only the later one survives. The model has no notion of a handler: a caller passes the value to write into. `SubFormBatchLosesEarlierWrite` shows the loss when both writes use one render's value.
- Overlapping `submit` and `validate` calls, and promise timing, are not modelled.
- `FormSpec.CommitStep`: change detection compares `JSON.stringify` output (Form.jsx:86), not the maps themselves. The model compares maps structurally, and the two disagree in three ways:
  - Two maps that differ only in an `undefined` entry notify in the model but not in the code, because `JSON.stringify` drops such entries.
  - Arrays that differ only in holes, `undefined` slots or `null` slots notify in the model but not in the code, because `JSON.stringify` prints all three as `null`. One example: rewriting a slot through `Form.Array` when the array has holes. The copy fills the holes, so the model notifies, but the code prints the same JSON and sends nothing.
  - Two maps with the same entries in a different key order notify in the code but not in the model. Dafny maps have no key order.
  - So `QuickKeepsDataInSync`, `QuickWriteNotifiesOnlyOnChange` and `MountInvariants` hold for the code only up to JSON equality of the committed and live maps.
- `deepCopy` is the identity on Dafny values. The in-place mutation of the previous state object in `setValue` (Form.jsx:97) is not visible, since maps are values.
- JavaScript numbers are integers here: NaN and fractions are not modelled. Array indices are natural numbers: string keys and indices past 2^32-2 are not modelled.
- `onChange` and `onSubmit` are optional (`?.`). The model records each call the form makes, whether or not a handler is attached.
- `onGetField` is not part of the value the root form provides to its descendants. `FieldBinder.reported` records the calls a provider would receive.
- `FieldBinding.FieldBinder.Change` is stated only for a binder directly under the root form. Writes through sub-forms are stated as compositions, in `ObjectScopedWrite` and `ArrayScopedWrite`.
- A defaults producer that throws synchronously, or that yields something other than an object, is not modelled.
- `ObjectForm.setValue` reads the latest value through a ref, while `setValues` uses the value its callback closed over. The two differ only for a callback held across renders. The adapter functions take the value to write into as a parameter, so this difference is not captured.
- Object spread of symbol keys, inherited or accessor properties is not modelled. Strings are spread per Dafny character, not per UTF-16 code unit or code point.
- An `ArrayAction` outside any `Form.Array` has no `setValues` to call and throws; this is not modelled.
- `components/Menu/index.jsx`, `components/DropDown/index.jsx`, `components/DropDown/index.rn.jsx`, `example/js/1749.82c6ff94.js`, `components/Card/index.d.ts` and `components/Image/index.d.ts` are not part of this model. They hold UI coordination, platform measurement, a bundled demo and type declarations.
