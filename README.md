# Open-invoice form: a Dafny model

This project models the state machine of the open-invoice form component
(`OpenInvoice`). The form holds up to four fieldsets: company details,
personal details, billing address and delivery address. It may also hold a
consent checkbox. Each fieldset is configured at mount as shown, editable,
read-only or hidden. The consent checkbox exists when a non-empty label is
configured.

The form keeps three maps keyed by fieldset name:

- `data`, the reported data;
- `valid`, the reported validity flags;
- `errors`, the error flags.

It also keeps a `status` string. Four handlers update these maps:

- a fieldset reports a new state;
- the "separate delivery address" box is toggled;
- the consent box is toggled;
- `showValidation` is called.

After every change the form derives one payload `{data, isValid}` and hands
it to `onChange`. `isValid` is the conjunction of the flags of the fieldsets
that take part and, when a consent label is configured, the consent
checkbox's flag. `data` holds only the entries of the fieldsets that take
part.

Everything is in `open_invoice.dfy`, module `OpenInvoice`:

- `Derive` is the derivation, written as a pure function. It pairs
  `FoldValid`, the validity conjunction, with `AppliedData`, the filtered data.
- `Applies` is a key-by-key reference definition of which flags matter. The
  lemmas relate `Derive` to it.
- `Component` is a class holding the maps. Its methods are the handlers.
  Each handler appends the payload it causes to the `emitted` log, which
  stands for the calls to `onChange`. `Valid()` is the invariant the
  handlers keep.

Four points where the behaviour of `OpenInvoice.tsx` is easy to misread; the
model follows the code:

- `valid` starts as an empty map. So with a consent label configured, the
  first payload's `isValid` is false because the consent flag is missing. The
  initial `data.consentCheckbox = false` plays no part in it.
- `errors` starts as an empty map. So `errors.consentCheckbox` is absent
  until the consent box is touched or `showValidation` runs.
- A fieldset that is shown but has never reported still has its key in the
  payload. The value is the caller's initial entry for it, or `undefined`
  when there is none.
- `showValidation` calls the delivery address's own `showValidation` when
  that fieldset is shown and its handle is attached. It does not look at
  the "separate delivery address" toggle.

## Model

| member | source | states |
|---|---|---|
| OpenInvoice.InitialData | packages/lib/src/components/internal/OpenInvoice/OpenInvoice.tsx:21-24 | the initial data is the caller's data on every key but the consent box, which is `false` when a non-empty consent label is configured and untouched otherwise |
| OpenInvoice.IsValidIff | packages/lib/src/components/internal/OpenInvoice/OpenInvoice.tsx:39-45 | the payload is valid iff every key that takes part has a true flag. The keys that take part are: each non-hidden fieldset among company, personal and billing; the delivery address when shown and toggled on; the consent box when it has a label |
| OpenInvoice.PayloadKeys | packages/lib/src/components/internal/OpenInvoice/OpenInvoice.tsx:42-51 | the payload's data has exactly the fieldset keys that take part, each with the stored value, and never `consentCheckbox` or `separateDeliveryAddress` |
| OpenInvoice.AppliedDataDependsOnApplicable | packages/lib/src/components/internal/OpenInvoice/OpenInvoice.tsx:46-51 | the payload's data is fixed by whether the delivery address is included and by the stored entries of the fieldsets that take part; nothing else is read |
| OpenInvoice.InapplicableFlagIgnored | packages/lib/src/components/internal/OpenInvoice/OpenInvoice.tsx:39-43 | changing the flag of a hidden or toggled-off fieldset never changes the payload |
| OpenInvoice.ApplicableFlagFalseInvalidates | packages/lib/src/components/internal/OpenInvoice/OpenInvoice.tsx:39-45 | setting the flag of any key that takes part to false makes the payload invalid |
| OpenInvoice.InapplicableDataIgnored | packages/lib/src/components/internal/OpenInvoice/OpenInvoice.tsx:46-51 | the stored data of a fieldset that does not take part never reaches the payload |
| OpenInvoice.FieldsetReportReachesPayload | packages/lib/src/components/internal/OpenInvoice/OpenInvoice.tsx:56-59 | after a report from a fieldset that takes part, the payload carries exactly the reported data under that key |
| OpenInvoice.ToggleOnAddsDeliveryAddress | packages/lib/src/components/internal/OpenInvoice/OpenInvoice.tsx:42-50 | with the delivery address shown, toggling on adds exactly `deliveryAddress` to the payload keys and makes its flag one more conjunct of `isValid` |
| OpenInvoice.ToggleIgnoredWhenHidden | packages/lib/src/components/internal/OpenInvoice/OpenInvoice.tsx:42 | with the delivery address hidden, the toggle never changes the payload |
| OpenInvoice.ToggleOnOffRestores | packages/lib/src/components/internal/OpenInvoice/OpenInvoice.tsx:61-63 | toggling on and then off, starting from off, restores the payload: key set, values and `isValid` |
| OpenInvoice.ConsentNotInPayload | packages/lib/src/components/internal/OpenInvoice/OpenInvoice.tsx:65-70 | the consent handler never changes the payload's data |
| OpenInvoice.ConsentGatesValidity | packages/lib/src/components/internal/OpenInvoice/OpenInvoice.tsx:65-70 | with a consent label, after the consent handler the payload is valid iff the box is ticked and every other key that takes part is valid |
| OpenInvoice.ExampleBillingInvalid | packages/lib/src/components/internal/OpenInvoice/OpenInvoice.tsx:39-51 | company and delivery hidden, no consent label, personal valid and billing invalid: the payload is invalid and carries exactly the personal-details and billing-address keys |
| OpenInvoice.InitialPayload | packages/lib/src/components/internal/OpenInvoice/OpenInvoice.tsx:21-45 | the first payload is valid iff nothing takes part; with a consent label it is invalid |
| OpenInvoice.ValidationTargets | packages/lib/src/components/internal/OpenInvoice/OpenInvoice.tsx:73-76 | the fan-out calls a fieldset iff it is shown and its handle is attached; the calls come in the order company, personal, billing, delivery, each at most once |
| OpenInvoice.Fanout | packages/lib/src/components/internal/OpenInvoice/OpenInvoice.tsx:73-76 | the guarded calls, one per fieldset in the given order, call a fieldset iff it is in the order, shown and attached; they keep the order |
| OpenInvoice.ValidationReachesPayloadFieldsets | packages/lib/src/components/internal/OpenInvoice/OpenInvoice.tsx:73-76 | when exactly the rendered fieldsets are attached, `showValidation` reaches exactly the fieldsets whose data the payload carries |
| OpenInvoice.ValidationErrors | packages/lib/src/components/internal/OpenInvoice/OpenInvoice.tsx:78-80 | the errors set by `showValidation` hold only the consent key, present iff the box has a label, true iff the box is not ticked |
| OpenInvoice.Component.constructor | packages/lib/src/components/internal/OpenInvoice/OpenInvoice.tsx:21-27 | mount: initial data, empty `valid` and `errors`, status `ready`, one payload emitted, invariant established |
| OpenInvoice.Component.Emit | packages/lib/src/components/internal/OpenInvoice/OpenInvoice.tsx:38-54 | the effect appends the derivation of the current `data` and `valid` to the `onChange` log |
| OpenInvoice.Component.HandleFieldset | packages/lib/src/components/internal/OpenInvoice/OpenInvoice.tsx:56-59 | sets `data[key]` and `valid[key]` to the report; all other keys, `errors` and `status` unchanged; invariant kept |
| OpenInvoice.Component.HandleSeparateDeliveryAddress | packages/lib/src/components/internal/OpenInvoice/OpenInvoice.tsx:61-63 | changes only `data.separateDeliveryAddress`; invariant kept |
| OpenInvoice.Component.HandleConsentCheckbox | packages/lib/src/components/internal/OpenInvoice/OpenInvoice.tsx:65-70 | sets the consent data to the box state, the consent flag to the state and the consent error to its negation, and nothing else; invariant kept |
| OpenInvoice.Component.ShowValidation | packages/lib/src/components/internal/OpenInvoice/OpenInvoice.tsx:72-81 | returns the fan-out calls; replaces `errors` wholesale from the current consent state; leaves `data` and `valid` alone; re-emits the previous payload, since the payload never depends on `errors` |
| OpenInvoice.Component.SetStatus | packages/lib/src/components/internal/OpenInvoice/OpenInvoice.tsx:29-31 | stores the new status, emits nothing, keeps the invariant |

## Left out

- Rendering is not modelled: the markup, CSS class names, the translated labels and the pay-button renderer.
- The nested fieldset components are not part of this model. Each one is an opaque source of `(data, isValid)` reports. What their own `showValidation` does is left out; the model only records which ones are called.
- Hook scheduling is left out. The derivation runs once after each handler, so batching of several state setters into one render is not modelled.
- Only the six keys the form itself uses are modelled. Extra keys in the caller's initial data are not.
- Stored values are abstracted to `undefined`, a boolean or a record of fields. The caller's initial data cannot hold `null`, strings or numbers. The logic only copies stored values or reads their truthiness.
- Visibility values other than the four named are not modelled. Only "hidden or not" matters to the logic.
- The gift-card input component is not part of this model.
