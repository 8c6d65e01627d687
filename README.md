# Emergency-alert client: a Dafny model of its page logic

This project models the stateful logic of the emergency-alert web client's
pages. That logic is the alert list, the selection and the alarm of the live
monitor; the selection and filter of account activation; the four-field
filter of the records viewer; and the form editors, validators and
request/response state machines of the account and user pages. The JSX,
styling and network transport are gone. Every backend or parser outcome
becomes an input of the method that receives it: `Option<…>` for "data or
failure", `bool` for "accepted or refused", and a function `nat -> bool` for
the per-row outcomes of a bulk upload.

Layout: one module per page, plus four shared modules.

- `Wrappers`: `Option`.
- `Seqs`: `Array.prototype.filter` as `Filter`, with its multiset,
  sub-sequence and no-duplicates facts.
- `Text`: JavaScript white space as `\s` and `trim()` see it, case
  conversion, `includes`, `split(",")`/`join` and `split(" - ")[0]`.
- `UserForms`: a user form as a map from field to text, the role label, and
  the role-entry parse.

Each page's React state is a class whose fields are that state. Its handlers
are methods whose `ensures` clauses give the whole new state. The pure
`filter`/`map`/`includes` expressions are functions, and lemmas state their
meaning.

The monitor behaves as the code is written. It is not an idealised
reconciler. A pushed alert is appended even when its id is already listed
(`DuplicatePushKeepsBoth`). A poll replaces the whole list, so a poll from a
snapshot older than a pushed alert drops that alert while the alarm keeps
sounding (`PollDropsPushedAlert`). Statuses stay free text: only `"C"`
exactly is dropped, and only a trimmed, upper-cased `"N"` is highlighted.
Removal on Complete happens only after the backend accepts. The Complete
button sits inside the alert's clickable row, so the same click also
selects the alert, stops the alarm and stamps its handled time
(`ClickComplete`).

## Model

| member | source | states |
|---|---|---|
| `Seqs.Filter` | src/pages/MonitorEmergency.js:81 | `filter` keeps exactly the passing elements, each as often as in the input, in input order (a sub-sequence) |
| `Seqs.FilterKeepsAll` | src/pages/ViewRecords.js:77-90 | a filter every element passes returns its input unchanged |
| `Seqs.FilterKeepsNoDup` | src/pages/ActivateClient.js:23 | filtering a duplicate-free list keeps it duplicate-free |
| `Text.TrimStart` | src/pages/MonitorEmergency.js:174 | the result is the suffix from the first non-white-space character; everything removed is white space |
| `Text.TrimEnd` | src/pages/MonitorEmergency.js:174 | the result is the prefix up to the last non-white-space character; everything removed is white space |
| `Text.ToLower` | src/pages/ViewRecords.js:84-87 | `toLowerCase`: same length, each ASCII upper-case letter lowered and every other character kept |
| `Text.ToUpper` | src/pages/MonitorEmergency.js:174 | `toUpperCase`: same length, each ASCII lower-case letter raised and every other character kept |
| `Text.UpperIsN` | src/pages/MonitorEmergency.js:174 | only "N" and "n" upper-case to "N" |
| `Text.IncludesIff` | src/pages/ViewRecords.js:84-87 | `includes` holds iff the needle occurs at some index of the string |
| `Text.Split` | src/pages/CreateRecordMass.js:64 | `split(",")` yields one more part than there are commas, no part holds a comma, and joining the parts gives the string back |
| `Text.SplitJoin` | src/pages/CreateRecordMass.js:64 | splitting a join of comma-free parts gives the parts back (the other direction of the round trip) |
| `Text.BeforeFirst` | src/pages/CreateUser.js:215 | `split(sep)[0]` is a prefix with no occurrence of `sep` starting inside it, and `sep` follows it unless it is the whole string |
| `Text.BeforeFirstOfPrefix` | src/pages/EditUser.js:139 | text before a separator whose first character the text lacks is exactly what `split(sep)[0]` returns |
| `MonitorEmergency.OpenAlerts` | src/pages/MonitorEmergency.js:80-82 | a poll keeps the entries whose status is not exactly "C", in response order and with their multiplicity; no "C" entry remains |
| `MonitorEmergency.OpenAlertsIdempotent` | src/pages/MonitorEmergency.js:81 | filtering an already filtered poll result changes nothing |
| `MonitorEmergency.StampHandled` | src/pages/MonitorEmergency.js:98-102 | every entry with the id gets `timestamp_handled` and nothing else changes; other entries, ids and the length are unchanged |
| `MonitorEmergency.WithoutAlert` | src/pages/MonitorEmergency.js:114 | no entry with the id remains; every other entry stays, in order, as often as before |
| `MonitorEmergency.CompleteAfterStamp` | src/pages/MonitorEmergency.js:98-114 | completing an alert after stamping it leaves the same list as completing it directly |
| `MonitorEmergency.HighlightedIsPaddedN` | src/pages/MonitorEmergency.js:174 | a status that trims and upper-cases to "N" is a single n or N padded only by white space |
| `MonitorEmergency.PaddedNIsHighlighted` | src/pages/MonitorEmergency.js:174 | a single n or N padded only by white space trims and upper-cases to "N" |
| `MonitorEmergency.HighlightIff` | src/pages/MonitorEmergency.js:174-175 | a row is highlighted iff its status is a single n or N padded only by white space (both directions) |
| `MonitorEmergency.AlarmSound.constructor` | src/pages/MonitorEmergency.js:9 | a new sound is paused at position 0 and not looping |
| `MonitorEmergency.AlarmSound.Play` | src/pages/MonitorEmergency.js:124 | `play()` unpauses; `loop` and the position are kept |
| `MonitorEmergency.AlarmSound.Pause` | src/pages/MonitorEmergency.js:129 | `pause()` pauses; `loop` and the position are kept |
| `MonitorEmergency.Monitor.constructor` | src/pages/MonitorEmergency.js:6-9 | the list is empty, nothing is selected, and the alarm is silent |
| `MonitorEmergency.Monitor.PlayAlertSound` | src/pages/MonitorEmergency.js:122-125 | sets loop on and playing; the position is kept |
| `MonitorEmergency.Monitor.StopAlertSound` | src/pages/MonitorEmergency.js:128-131 | paused with position 0; loop is kept |
| `MonitorEmergency.Monitor.OnSocketMessage` | src/pages/MonitorEmergency.js:52-60 | a parsed alert is appended at the end, earlier entries are unchanged, and the alarm loops; an unparsable message changes neither the list nor the alarm |
| `MonitorEmergency.Monitor.FetchUnhandledAlerts` | src/pages/MonitorEmergency.js:78-86 | a successful poll sets the list to `OpenAlerts` of the response; a failed one leaves it unchanged; the selection is kept |
| `MonitorEmergency.Monitor.HandleAlertClick` | src/pages/MonitorEmergency.js:89-106 | always selects the alert and stops the alarm; stamps the list only when the backend acknowledged |
| `MonitorEmergency.Monitor.OnHandledTimeSaved` | src/pages/MonitorEmergency.js:97-102 | once the handled time is saved, the list becomes `StampHandled` of the list at that moment; the selection is kept |
| `MonitorEmergency.Monitor.HandleCompleteAlert` | src/pages/MonitorEmergency.js:109-119 | the handler alone: on acknowledgement removes the id and clears the selection; otherwise it changes nothing |
| `MonitorEmergency.StampAfterComplete` | src/pages/MonitorEmergency.js:98-114 | stamping a list the alert was already removed from changes nothing |
| `MonitorEmergency.ClickComplete` | src/pages/MonitorEmergency.js:89-119 | a click on Complete also runs the row's click handler (lines 177 and 194): the alarm stops in every case; a successful completion leaves the alert removed and nothing selected whichever response comes first; a failed one leaves the alert selected, stamped iff its handled time was saved |
| `MonitorEmergency.Monitor.Teardown` | src/pages/MonitorEmergency.js:70-74 | leaving the page stops the alarm |
| `MonitorEmergency.DuplicatePushKeepsBoth` | src/pages/MonitorEmergency.js:54-55 | the same alert pushed twice is listed twice; no de-duplication |
| `MonitorEmergency.PollDropsPushedAlert` | src/pages/MonitorEmergency.js:55-82 | a poll that lacks a pushed alert removes it, and the alarm keeps sounding |
| `ActivateClient.Toggle` | src/pages/ActivateClient.js:20-26 | a selected number is removed with the rest kept in order; an unselected number is appended at the end |
| `ActivateClient.ToggleKeepsNoDup` | src/pages/ActivateClient.js:21-25 | row clicks keep a duplicate-free selection duplicate-free |
| `ActivateClient.ToggleTwice` | src/pages/ActivateClient.js:21-25 | two clicks on a row restore the selected set, and restore the very sequence when the row was unselected |
| `ActivateClient.FilteredRecords` | src/pages/ActivateClient.js:62-64 | a record is shown iff it has an account name whose lower case includes the lower-cased filter; records without a name never are; load order is kept, and every matching record is kept as often as it was loaded |
| `ActivateClient.EmptyFilterShowsNamed` | src/pages/ActivateClient.js:62-64 | with an empty filter, exactly the records that have an account name are shown |
| `ActivateClient.AccountNumbers` | src/pages/ActivateClient.js:29 | one account number per record, in record order |
| `ActivateClient.SelectAllIsFiltered` | src/pages/ActivateClient.js:28-31 | select-all picks a number iff some shown record carries it |
| `ActivateClient.ActivationPayload` | src/pages/ActivateClient.js:40-42 | one entry per selected number, in selection order, each tagged with the current user |
| `ActivateClient.ActivationPage.constructor` | src/pages/ActivateClient.js:6-9 | no records, no selection, an empty filter |
| `ActivateClient.ActivationPage.FetchRecords` | src/pages/ActivateClient.js:15-18 | a successful load replaces the records; a failed one changes nothing |
| `ActivateClient.ActivationPage.HandleRowClick` | src/pages/ActivateClient.js:20-26 | the selection becomes `Toggle` of the old one |
| `ActivateClient.ActivationPage.HandleSelectAll` | src/pages/ActivateClient.js:28-31 | the selection becomes the shown records' numbers, in shown order |
| `ActivateClient.ActivationPage.HandleDeselectAll` | src/pages/ActivateClient.js:33-35 | the selection becomes empty |
| `ActivateClient.ActivationPage.SetFilterOrg` | src/pages/ActivateClient.js:83-88 | typing and Clear set the filter and nothing else |
| `ActivateClient.ActivationPage.HandleActivate` | src/pages/ActivateClient.js:37-50 | an empty selection does nothing; otherwise the payload, tagged with the user stored at that render, is sent; only a successful request reloads and clears the selection |
| `ActivateClient.ActivationPage.HandleDeactivate` | src/pages/ActivateClient.js:52-60 | the same guard; the selection is sent as one list with the user; cleared only after success |
| `ViewRecords.Digits` | src/pages/ViewRecords.js:78-79 | `toString` of a natural number: decimal digits only, whose value is the number, with no leading zero |
| `ViewRecords.AsText` | src/pages/ViewRecords.js:78-79 | `(v \|\| '').toString()` is "" exactly for an absent field, "" and 0; a non-empty string is kept unchanged; any other number is its decimal digits, with "-" when negative |
| `ViewRecords.WithFilter` | src/pages/ViewRecords.js:93-98 | changing one filter field leaves the other three unchanged |
| `ViewRecords.FilterAlerts` | src/pages/ViewRecords.js:76-91 | a record is kept iff each of its four lower-cased fields includes the lower-cased filter; the result is an order-preserving sub-list |
| `ViewRecords.EmptyFiltersShowAll` | src/pages/ViewRecords.js:84-88 | with all four filters empty the filtered list equals the loaded list |
| `ViewRecords.MissingFieldPassesOnlyEmpty` | src/pages/ViewRecords.js:78-81 | a field that reads as "" passes iff its filter is empty |
| `ViewRecords.BlankRecordMatchesOnlyNoFilters` | src/pages/ViewRecords.js:78-88 | a record lacking all four fields passes iff no filter is set |
| `ViewRecords.FilterAlertsIdempotent` | src/pages/ViewRecords.js:77-90 | re-filtering the filtered list with the same filters changes nothing |
| `ViewRecords.LoadedRows` | src/pages/ViewRecords.js:41-66 | an array body loads its items; a non-ok status, a non-array body or a failure loads nothing |
| `ViewRecords.RecordsView.constructor` | src/pages/ViewRecords.js:16-24 | empty lists, loading, and no filters |
| `ViewRecords.RecordsView.View` | src/pages/ViewRecords.js:116-127 | the loading text shows iff loading; the no-data view iff loading has ended with no alerts; otherwise the table of the filtered list |
| `ViewRecords.RecordsView.FetchHandledAlerts` | src/pages/ViewRecords.js:36-70 | both lists become `LoadedRows` of the response; loading ends on every outcome; the filters are kept |
| `ViewRecords.RecordsView.ApplyFilters` | src/pages/ViewRecords.js:76-91 | the filtered list becomes `FilterAlerts` of the loaded list and the filters |
| `ViewRecords.RecordsView.HandleFilterChange` | src/pages/ViewRecords.js:93-98 | the named filter takes the typed value; the lists are unchanged |
| `ViewRecords.RecordsView.HandleStatusChange` | src/pages/ViewRecords.js:100-105 | the status filter takes the chosen item's text |
| `ViewRecords.RecordsView.HandleClearFilters` | src/pages/ViewRecords.js:107-114 | all four filters become "" |
| `ViewRecords.ClearShowsAll` | src/pages/ViewRecords.js:107-114 | Clear followed by the filter effect shows every loaded record |
| `CreateRecordManual.WithField` | src/pages/CreateRecordManual.js:38-40 | a field edit changes only the named field |
| `CreateRecordManual.RemoveAt` | src/pages/CreateRecordManual.js:33-35 | removing an in-range index deletes exactly that entry and keeps the rest in order; any other index changes nothing |
| `CreateRecordManual.AddThenRemove` | src/pages/CreateRecordManual.js:21-35 | removing the entry Add just appended gives the list back |
| `CreateRecordManual.HasEmptyPhone` | src/pages/CreateRecordManual.js:46 | `some((num) => !num)` holds iff some entry is "" |
| `CreateRecordManual.RefusedIff` | src/pages/CreateRecordManual.js:46 | submission is refused iff one of the five fields is empty or some phone entry is |
| `CreateRecordManual.EmptyPhoneListPasses` | src/pages/CreateRecordManual.js:46-50 | a filled form with no phone numbers passes, despite the message text |
| `CreateRecordManual.ManualRecordPage.constructor` | src/pages/CreateRecordManual.js:10-18 | empty fields, one blank phone entry, no message |
| `CreateRecordManual.ManualRecordPage.AddPhoneNumber` | src/pages/CreateRecordManual.js:21-23 | appends one "", so the length grows by one |
| `CreateRecordManual.ManualRecordPage.UpdatePhoneNumber` | src/pages/CreateRecordManual.js:26-30 | only the entry at the index changes, to the value; the length is unchanged |
| `CreateRecordManual.ManualRecordPage.RemovePhoneNumber` | src/pages/CreateRecordManual.js:33-35 | the list becomes `RemoveAt` of the old list |
| `CreateRecordManual.ManualRecordPage.HandleInputChange` | src/pages/CreateRecordManual.js:38-40 | the form becomes `WithField` of the old form |
| `CreateRecordManual.ManualRecordPage.HandleSubmit` | src/pages/CreateRecordManual.js:43-76 | no request iff validation fails; otherwise the form and phones are sent; the message reflects the outcome; the form is never reset |
| `UserForms.Set` | src/pages/CreateUser.js:53-55 | the named field takes the value and every other field keeps its text |
| `UserForms.BlankForm` | src/pages/CreateUser.js:16-28 | a form with exactly the listed fields, each "" |
| `UserForms.RoleLabel` | src/pages/DeleteUser.js:106 | "1" is Admin, "2" is User, anything else is Viewer |
| `UserForms.ParseRoleOption` | src/pages/EditUser.js:138-139 | parsing the shown role entry gives back its code |
| `UserForms.ParseEntry` | src/pages/EditUser.js:139 | an entry "code - name" whose code has no space parses to the code, whatever the name |
| `UserForms.ParseRoleChoices` | src/pages/CreateUser.js:215-219 | "1 - Admin", "2 - User" and "3 - Viewer" parse to "1", "2" and "3" |
| `CreateUser.IndexOf` | src/pages/CreateUser.js:58 | the first `@` of the address (or its length when there is none): no earlier `@` |
| `CreateUser.IsValidEmail` | src/pages/CreateUser.js:57-60 | the e-mail test as one scan; what it accepts is stated by `CreateUser.EmailIff` |
| `CreateUser.EmailIff` | src/pages/CreateUser.js:57-60 | the scan (no white space, one `@` that is not first, a `.` inside the domain) accepts exactly the strings of `^[^\s@]+@[^\s@]+\.[^\s@]+$` |
| `CreateUser.ValidateForm` | src/pages/CreateUser.js:62-76 | missing iff a required field is empty (checked first); invalid iff all are present and the e-mail does not match; valid otherwise |
| `CreateUser.OptionalFieldsIgnored` | src/pages/CreateUser.js:62-68 | editing username, middle name, contact numbers or address line 2 never changes the verdict |
| `CreateUser.EmptyForm` | src/pages/CreateUser.js:153-165 | the reset form has the eleven fields, each "", and it fails validation as missing |
| `CreateUser.CreateUserPage.constructor` | src/pages/CreateUser.js:16-36 | empty form, not submitting, no message |
| `CreateUser.CreateUserPage.HandleInputChange` | src/pages/CreateUser.js:53-55 | the form becomes `Set` of the old form |
| `CreateUser.CreateUserPage.HandleRoleChange` | src/pages/CreateUser.js:215 | the role field stores the text before the first " - " |
| `CreateUser.CreateUserPage.BeginSubmit` | src/pages/CreateUser.js:133-136 | a request starts iff validation passes, and then the submitting flag is up |
| `CreateUser.CreateUserPage.FinishSubmit` | src/pages/CreateUser.js:138-171 | the flag drops on every outcome; success empties every field, failure keeps the form |
| `EditUser.InitialForm` | src/pages/EditUser.js:12-25 | the twelve fields, each "" |
| `EditUser.LoadedForm` | src/pages/EditUser.js:58-61 | the found user's fields with the password forced to "" |
| `EditUser.EditUserPage.constructor` | src/pages/EditUser.js:11-31 | empty search box, blank form, not editing |
| `EditUser.EditUserPage.SetUsernameSearch` | src/pages/EditUser.js:112 | typing sets the search box only |
| `EditUser.EditUserPage.HandleSearch` | src/pages/EditUser.js:44-69 | an empty box sends nothing; a hit loads the user with a blank password and turns editing on; a miss turns editing off and keeps the form |
| `EditUser.EditUserPage.HandleInputChange` | src/pages/EditUser.js:71-73 | the form becomes `Set` of the old form |
| `EditUser.EditUserPage.HandleRoleChange` | src/pages/EditUser.js:139 | the role field stores the text before the first " - " |
| `EditUser.EditUserPage.HandleSubmit` | src/pages/EditUser.js:75-94 | the form is sent as it is and never changes, on success or failure |
| `EditUser.EditUserPage.ShownCode` | src/pages/EditUser.js:138 | the role box writes the stored code, or "undefined" when the form has no `role_id` |
| `EditUser.ReselectShownRole` | src/pages/EditUser.js:138-139 | choosing the entry the role box shows leaves every field as it was when the form has a `role_id`; without one, `role_id` becomes "undefined" |
| `DeleteUser.DeleteUserPage.constructor` | src/pages/DeleteUser.js:10-12 | empty box, no details, dialog closed |
| `DeleteUser.DeleteUserPage.SetUsername` | src/pages/DeleteUser.js:94 | typing sets the box only |
| `DeleteUser.DeleteUserPage.HandleSearch` | src/pages/DeleteUser.js:30-51 | an empty box only shows a message; a hit sets the details, a miss clears them |
| `DeleteUser.DeleteUserPage.OpenConfirmDialog` | src/pages/DeleteUser.js:109 | opens the dialog |
| `DeleteUser.DeleteUserPage.CloseConfirmDialog` | src/pages/DeleteUser.js:117-123 | closes the dialog |
| `DeleteUser.DeleteUserPage.HandleDelete` | src/pages/DeleteUser.js:53-76 | the request names the search-box username; success clears box and details; the dialog closes on both outcomes |
| `DeleteUser.DeleteUserPage.RoleShown` | src/pages/DeleteUser.js:106 | a role label is shown iff details are, and it is the label of the details' `role_id` (Admin, User or Viewer) |
| `DeleteUser.DeleteTargetsSearchBox` | src/pages/DeleteUser.js:58 | after retyping the box, Delete targets the retyped name while the searched user's details stay shown |
| `CreateRecordMass.PhoneList` | src/pages/CreateRecordMass.js:64 | a non-empty cell gives commas + 1 numbers that re-join to the cell; an empty or missing cell gives [] |
| `CreateRecordMass.OrEmpty` | src/pages/CreateRecordMass.js:65-66 | a missing cell becomes "" and a present one is kept |
| `CreateRecordMass.RowToRequest` | src/pages/CreateRecordMass.js:59-67 | four columns copied unchanged, phones split, a missing e-mail or emergency contact sent as "" |
| `CreateRecordMass.PhoneListRoundTrip` | src/pages/CreateRecordMass.js:64 | the split phone numbers re-join to the cell and re-split to themselves |
| `CreateRecordMass.AcceptedIndicesStep` | src/pages/CreateRecordMass.js:57-74 | each further request adds one accepted index exactly when the backend accepted it |
| `CreateRecordMass.Accepted` | src/pages/CreateRecordMass.js:69 | the number of the first `n` requests the backend accepted, as the size of the set of their indices |
| `CreateRecordMass.SendAll` | src/pages/CreateRecordMass.js:54-74 | one request per row in row order; the success count is the number accepted; success + failed equals the row count |
| `CreateRecordMass.MassUploadPage.constructor` | src/pages/CreateRecordMass.js:7-9 | no file, no rows, no status |
| `CreateRecordMass.MassUploadPage.HandleFileChange` | src/pages/CreateRecordMass.js:12-43 | no file only sets the status; a chosen file is kept at once; an empty parse or a parse error leaves the stored rows as they were |
| `CreateRecordMass.MassUploadPage.HandleUpload` | src/pages/CreateRecordMass.js:46-77 | refused with no request without a file or rows; otherwise every row is sent and the status reports exactly the two counts |
| `CreateRecordMass.UploadAfterEmptyFile` | src/pages/CreateRecordMass.js:23-50 | a second file that parses to nothing becomes the selected file, and Upload then sends the first file's rows |

## Left out

- Network transport (axios, fetch, the WebSocket, endpoint URLs): only outcomes are modelled. A request that "goes out" is the method's returned request value.
- Interleaving of asynchronous handlers. Each handler runs to completion in the model. A functional `setAlerts(prev => …)` applies to the list at the moment the request resolves; the model applies it when the method is called.
- `MonitorEmergency.Monitor.OnSocketMessage`: `JSON.parse` may yield any JSON value, and the code appends it whatever its shape. The model receives an already-shaped `Alert`, or `None` when parsing threw.
- `MonitorEmergency.Monitor.Teardown`: clearing the poll interval and closing the socket are transport and are not modelled. Only the alarm stop is modelled.
- `MonitorEmergency.AlarmSound`: the audio hardware is not modelled. Only `loop`, the paused state and a playback position are kept, and playback does not advance the position.
- The `timestamp_handled` value `new Date().toISOString()` is the input `now`.
- Geolocation, map centring with `parseFloat`, Google Maps, markers and geocoding: these are foreign calls and floating point.
- `Text.ToLower`, `Text.ToUpper`: only ASCII letters are converted. JavaScript's full Unicode case mapping, where some characters change length, is not modelled.
- `ViewRecords.HistoryAlert`: the locale date string of `toLocaleDateString` is an opaque input, and `None` stands for a missing timestamp. Numeric fields are safe integers (at most 2^53 - 1 in magnitude, well below the 10^21 at which `toString` writes exponent form); fractions, larger numbers and other falsy values such as `NaN` and `false` are not modelled.
- `toLocaleString` display formatting, and the toast and message texts. Messages are reduced to their kind.
- The `setTimeout` auto-hide of messages: this is timing only.
- Papa.parse internals and the CSV template download. A parse is the input `ParseOutcome`, and a missing `result.data` counts as empty.
- The intermediate "Uploading records..." status is not kept. Only the final status is modelled.
- `CreateRecordManual.ManualRecordPage.UpdatePhoneNumber` requires an in-range index, as every rendered row supplies. JavaScript would extend the array for a larger index; that is not modelled.
- `ActivateClient.ActivationPage.HandleActivate`, `ActivateClient.ActivationPage.HandleDeactivate`: a rejected request is left unhandled by the code. The model represents it as "nothing changes"; the rejection itself is not modelled.
- User objects returned by the backend are maps from the twelve known fields to text. Extra keys, `null` values and numeric role ids are not modelled.
- Login (reCAPTCHA), Google SSO, local storage, routing and navigation, the overview page, the header and the backend routes are identity-provider, storage and wiring code. They are not part of this model. The current user is an input to the activation page.
- All JSX and styling.
