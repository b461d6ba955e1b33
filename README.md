# VendorVerse: suggestion, selection and finalize, modelled in Dafny

VendorVerse matches a client's interests against a vendor's capabilities.
The form sends both descriptions to a suggestion action and shows the
returned services in a dialog with one checkbox per service. The user
checks some services and finalizes them. This project models the three
places where that behaviour lives:

- `vendor_form.dfy` (module `VendorFormComponent`): the form component as a
  class `VendorForm`. Its fields are the last action result, `dialogOpen`,
  `selectedServices`, `isFinalizing` and the two text areas. Its methods are
  the effect that reacts to a new result, the checkbox handler, Cancel, and
  the finalize handler. The finalize handler is split at the awaited call
  into `BeginFinalize` and `EndFinalize`, so the raised flag is visible in
  between. The finalize outcome and the suggestion result are parameters.
- `selection.dfy` (module `Selection`): the pure list update inside the
  checkbox handler. Checking appends; unchecking filters out every copy.
- `suggestions_route.dfy` (module `SuggestionsRoute`): the suggestions
  endpoint. It validates the request, picks which field error to report,
  and shapes the random result. The random ordering is a parameter that must
  be a permutation of the eight mock services. The prefix length is a second
  parameter, `pick` in [0, 5).
- `finalize_route.dfy` (module `FinalizeRoute`): the finalize endpoint. It
  validates `services` and builds the success message. The message carries
  the count in decimal, and `ReportedCount` reads that count back.
- `wrappers.dfy`: `Option`, which stands for a property that may be `undefined`.

Facts about the code that the model keeps:

- Field length is measured on the raw text, with no trimming. Ten spaces pass.
- A successful suggestion reply holds between 3 and 7 services (`floor(r * 5) + 3`).
- A successful finalize closes the dialog and resets the form. It leaves
  `selectedServices` as it was; only the next suggestion result empties it.
- Checking a title that is already selected appends a second copy. Any
  title can be checked, whether or not it is among the suggestions.
- Any `services` array in the action result opens the dialog, even an empty
  one, because an empty array is truthy in JavaScript.
- A completed form submission empties the two text areas: the form's
  function action resets its uncontrolled fields when it completes
  (React 19 `useActionState` with `<form action>`).
- The finalize handler has no `try`/`finally`. If the awaited call rejects,
  the line that clears `isFinalizing` never runs, and the Finalize button
  stays disabled.
- In the suggestions endpoint, a JSON body that is not an object yields
  status 400 with `{ error: undefined }`. The schema then reports only a
  form-level error, so there is no field message to pick.
- In the finalize endpoint, a body of `null` yields status 500, because the
  destructuring throws. Any other non-object body yields 400, because it has
  no `services` key. The 400 reply has a `message` key and no `success` key.

## Model

| member | source | states |
|---|---|---|
| `Selection.Checked` | src/components/vendor-form.tsx:71-72 | checking puts the title at the end, keeps all earlier entries in order, and adds exactly one copy of it |
| `Selection.Unchecked` | src/components/vendor-form.tsx:71-72 | unchecking leaves no copy of the title, keeps every other title that was present, and shortens the list by exactly the number of copies removed |
| `Selection.Toggled` | src/components/vendor-form.tsx:72 | after the handler's update the title is present iff the box was checked, and every other title is present iff it was before |
| `Selection.UncheckedConcat` | src/components/vendor-form.tsx:72 | the filter distributes over concatenation, so the remaining entries keep their original relative order |
| `Selection.UncheckedSingleton` | src/components/vendor-form.tsx:72 | a single entry survives unchecking exactly when it differs from the title |
| `Selection.UncheckedCounts` | src/components/vendor-form.tsx:72 | after unchecking, the title occurs zero times and every other title occurs as often as before |
| `Selection.UncheckedAbsent` | src/components/vendor-form.tsx:72 | unchecking a title that is not selected leaves the selection unchanged |
| `Selection.UncheckedTwice` | src/components/vendor-form.tsx:72 | unchecking twice is the same as unchecking once |
| `Selection.CheckThenUncheck` | src/components/vendor-form.tsx:72 | unchecking right after a check removes the new entry and every older copy of that title |
| `Selection.CheckTwiceDuplicates` | src/components/vendor-form.tsx:72 | checking twice adds two copies, and a single uncheck removes all of them |
| `Selection.CheckCheckUncheck` | src/components/vendor-form.tsx:72 | check a, check b, uncheck a gives the old selection without a, followed by b; from an empty selection that is exactly [b] |
| `VendorFormComponent.VendorForm.constructor` | src/components/vendor-form.tsx:48-54 | the form starts with no result, the dialog closed, nothing selected, no finalize in flight and empty text areas |
| `VendorFormComponent.VendorForm.IsChecked` | src/components/vendor-form.tsx:155 | a box is shown checked iff its title occurs in the selection at least once |
| `VendorFormComponent.VendorForm.FinalizeEnabled` | src/components/vendor-form.tsx:167 | the Finalize button is enabled iff no finalize call is in flight and some box is checked |
| `VendorFormComponent.VendorForm.EditFields` | src/components/vendor-form.tsx:115-134 | typing changes only the two text areas |
| `VendorFormComponent.VendorForm.ReceiveState` | src/components/vendor-form.tsx:56-68 | a completed submission empties the text areas; a result with services opens the dialog and empties the selection, so no box is shown checked; a result with only an error changes neither |
| `VendorFormComponent.VendorForm.HandleCheckboxChange` | src/components/vendor-form.tsx:70-74 | the selection becomes the checked/unchecked list; the box then shows the requested state, other boxes keep theirs, and nothing else changes |
| `VendorFormComponent.VendorForm.Cancel` | src/components/vendor-form.tsx:166 | Cancel closes the dialog and leaves the selection and every other field unchanged |
| `VendorFormComponent.VendorForm.BeginFinalize` | src/components/vendor-form.tsx:77-86 | an empty selection makes no call and changes nothing; otherwise the flag is raised and the call carries the current selection. An enabled Finalize button always leads to a call, and the button is disabled while the call is in flight |
| `VendorFormComponent.VendorForm.EndFinalize` | src/components/vendor-form.tsx:86-102 | a resolved call clears the flag whatever it reports; a rejected call leaves the flag as it was; success closes the dialog and empties the text areas; failure or rejection keeps the dialog and the text; the selection is kept in every case |
| `VendorFormComponent.VendorForm.HandleFinalize` | src/components/vendor-form.tsx:76-103 | an empty selection gives no call and no change; otherwise exactly one call with the selection is made, `isFinalizing` ends raised iff the call rejected, and the dialog and form react to the outcome as above |
| `VendorFormComponent.CheckUncheckScenario` | src/components/vendor-form.tsx:56-74 | after a new result, check a, check b, uncheck a leaves exactly [b] selected with the dialog open |
| `VendorFormComponent.FinalizeScenario` | src/components/vendor-form.tsx:70-103 | two boxes on and one off, then finalize: the call carries [b]; the selection is still [b] afterwards; the dialog stays open iff the call did not succeed; the button stays disabled iff the call rejected |
| `VendorFormComponent.EmptyFinalizeScenario` | src/components/vendor-form.tsx:77-84 | finalize with nothing selected makes no call, leaves the dialog open and leaves the flag down |
| `VendorFormComponent.ErrorResultScenario` | src/components/vendor-form.tsx:56-68 | a result carrying only an error keeps the open dialog and the current selection |
| `SuggestionsRoute.FieldError` | src/app/api/suggestions/route.ts:9-12 | a field has no error iff it is a string of at least 10 characters, measured untrimmed; a string that is too short gets that field's own message |
| `SuggestionsRoute.ValidRequest` | src/app/api/suggestions/route.ts:9-12 | a request passes the schema iff its body is an object and the handler finds no field message to report |
| `SuggestionsRoute.ErrorMessage` | src/app/api/suggestions/route.ts:31-32 | the client-interest error wins whenever there is one; otherwise the vendor-capability error is reported; there is no message iff both fields are valid |
| `SuggestionsRoute.Suggestions` | src/app/api/suggestions/route.ts:38-41 | the slice has 3 to 7 services, all of them mock services, with no service and no title twice |
| `SuggestionsRoute.Post` | src/app/api/suggestions/route.ts:25-45 | status 200 iff both fields are valid, and then the reply holds 3 to 7 distinct mock services; every other reply is an error; validation failures get 400 with the chosen message; a body that is not an object gets 400 with no message; 500 with the generic message iff the body does not parse |
| `SuggestionsRoute.MockTitlesDistinct` | src/app/api/suggestions/route.ts:14-23 | the mock list has eight services with pairwise different titles |
| `SuggestionsRoute.PermutationDistinctTitles` | src/app/api/suggestions/route.ts:38 | a reordering of a list with unique titles has the same length, only its elements, and still unique titles |
| `SuggestionsRoute.ShuffleFacts` | src/app/api/suggestions/route.ts:14-23 | any shuffle of the mock list has eight mock services with pairwise different titles |
| `SuggestionsRoute.BothTooShort` | src/app/api/suggestions/route.ts:30-33 | when both strings are too short, the reply is 400 with the client-interest message |
| `SuggestionsRoute.UntrimmedLength` | src/app/api/suggestions/route.ts:10-11 | ten spaces in each field are accepted, since there is no trimming |
| `SuggestionsRoute.EverySizeReachable` | src/app/api/suggestions/route.ts:39 | every size from 3 to 7 is produced by some value of the random pick |
| `FinalizeRoute.Decimal` | src/app/api/finalize/route.ts:16 | the rendered count is a non-empty string of decimal digits with no leading zero |
| `FinalizeRoute.ParseDecimalOfDecimal` | src/app/api/finalize/route.ts:16 | reading the rendered count back gives the count |
| `FinalizeRoute.SuccessMessageReportsCount` | src/app/api/finalize/route.ts:16 | the count can be read back from the prefix, the rendered count and the suffix put together |
| `FinalizeRoute.SuccessMessage` | src/app/api/finalize/route.ts:16 | the success message reports exactly the count it was built for |
| `FinalizeRoute.Accepted` | src/app/api/finalize/route.ts:7 | a parsed non-null body is rejected iff `services` is missing, not an array, or an empty array |
| `FinalizeRoute.Post` | src/app/api/finalize/route.ts:3-21 | 200 with `success: true` iff `services` is a non-empty array, and then the message reports the array's length and there is no `error` key; a missing, non-array or empty value gets 400 with "No services provided." and no `success` key; an unparsable or null body gets 500 with the generic error |
| `FinalizeRoute.DuplicatesCounted` | src/app/api/finalize/route.ts:16 | the same title sent twice is reported as 2 services |

## Left out

- Toasts, the dialog and checkbox markup, icons and button labels are not modelled.
- The dialog's own dismissal (`onOpenChange`, src/components/vendor-form.tsx:141) closes the dialog the same way `Cancel` does. It is not modelled separately.
- Form submission and the suggestion and finalize server actions (`@/app/actions`) are not part of this model. Their results are method parameters. The submit button's pending state and the text areas' `required` attribute are left out for the same reason.
- The reason a finalize call rejects is not modelled, and neither is the unhandled rejection that follows; `Rejected` only records that the handler stopped at the `await`.
- The async/await and React state scheduling are not modelled. Each handler is one atomic step. The finalize handler is split into two steps at the awaited call. Checkbox changes between those two steps are possible, but other interleavings are not modelled.
- `setTimeout` delays and `console.log` are timing and I/O only.
- `Math.random` and the random-comparator sort are replaced by parameters: a permutation of the mock list, and an integer pick in [0, 5). The model does not represent floating-point values.
- The schema library is reduced to what the endpoint uses. A missing key gets "Required". A value that is not a string gets "Expected string, received " followed by the JSON type name, which is carried by the `NonString` field. Extra keys are ignored.
- String lengths are counted in Unicode code points (Dafny characters), whereas JavaScript counts UTF-16 code units. Text outside the Basic Multilingual Plane is therefore measured differently: five emoji are 10 code units to the schema but 5 characters to `ValidField`.
- Elements of the finalize `services` array are modelled as strings. The endpoint never inspects them; it only counts them.
- src/app/page.tsx, src/services/api.ts and src/lib/axios.ts hold only layout and a thin HTTP client. They are not part of this model.
