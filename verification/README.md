# Seller and department form controllers, modelled in Dafny

This project models the form-controller logic of a JavaFX desktop CRUD
application for sellers and departments (`src/gui/SellerFormController.java`
and `src/gui/DepartmentFormController.java`), with the widget toolkit taken
away. Each control becomes a plain value (`Option<string>` for a text field,
`Option<LocalDate>` for the date picker, `Option<Department>` for the combo
box), each controller becomes an immutable record, and a press of the save
button becomes a function from the old controller, the platform helpers and
what the database does to a `Step`: the new controller, the trace of calls
made (`saveOrUpdate` and each listener's `onDataChanged`), and how the action
ended (stage closed, error labels shown, error alert shown, or
`IllegalStateException`).

Files and modules:

- `wrappers.dfy` (`Wrappers`): `Option` for nullable references, `Result` for
  a call that returns or throws.
- `java_string.dfy` (`JavaString`): Java's `String.trim()` and a reference
  definition of "blank".
- `entities.dfy` (`Entities`): `Seller`, `Department`, `Date`, `LocalDate`,
  a boxed `Double`, and `Platform`, the helpers the controllers call whose
  code is not part of this model.
- `data_change.dfy` (`DataChange`): listeners, the event trace, save
  outcomes, and `notifyDataChangeListeners`.
- `seller_form.dfy` (`SellerForm`): `getFormData` with its validation,
  `updateFormData`'s field loading, and `setErrorMessages`.
- `seller_controller.dfy` (`SellerController`): `onButtonSaveAction`,
  `subscribeDataChangeListener` and `updateFormData` of the seller form.
- `department_controller.dfy` (`DepartmentController`): the same for the
  department form, whose `getFormData` never rejects anything.

Where the controller calls a helper whose code is not part of this model
(`Utils.tryParseToInt`, `Utils.tryParseToDouble`, the conversions between a
`LocalDate` and a `Date` in the system time zone, `String.valueOf` of an
`int`, the `"%.2f"` salary formatting), the helper is a field of the
`Platform` record. Every property holds for any such helpers, unless a lemma
states a hypothesis about them (for example that parsing undoes formatting).
The database is a `DbOutcome` parameter: `saveOrUpdate` either returns or
throws `DbException` with a message.

A text field is assumed to return from `getText()` exactly what was last
passed to `setText`, including null. The input filters installed on the
fields (SellerFormController.java:184-187, DepartmentFormController.java:102-103)
are not part of this model and could veto such a `setText`; for example an
integer filter could reject the text "null" written for a null id.

`UpdateFormData` of the department form writes both fields, the id and the
name (DepartmentFormController.java:111-112).

## Model

| member | source | states |
|---|---|---|
| JavaString.Trim | src/gui/SellerFormController.java:134 | `trim()` returns a substring of the input whose removed prefix and suffix consist only of characters at most U+0020; the result is empty exactly when every character is at most U+0020, and otherwise starts and ends with a character above U+0020 |
| SellerForm.TextCheckMatchesReference | src/gui/SellerFormController.java:153 | the controller's test "null, or empty after trimming" holds exactly when the text is null or consists only of characters at most U+0020 |
| SellerForm.ValidationErrors | src/gui/SellerFormController.java:130-162 | all five checks run: each of name, email, birthDate, baseSalary and department has an error key exactly when its field is missing, no other key appears, every message is "Field can't be empty", and the map is empty exactly when nothing is missing |
| SellerForm.EmptyNameIsTheOnlyError | src/gui/SellerFormController.java:134-136 | an empty name on an otherwise complete form yields exactly one error, under "name" |
| SellerForm.GetFormData | src/gui/SellerFormController.java:127-167 | a Seller is returned exactly when no required field is missing, otherwise the whole error map; on success name, email and department are the fields' values unchanged, id and salary are the parse helpers' results, and the birth date is the picked day's start |
| SellerForm.ExtractedSellerIsComplete | src/gui/SellerFormController.java:163-166 | a form with nothing missing yields a Seller, and it has a non-blank name and email, a birth date and a department |
| SellerForm.LoadFields | src/gui/SellerFormController.java:198-211 | loading a seller into the form shows its id as text ("null" for no id), its name, email and department as they are, its salary through the salary formatter, and its birth date only when it has one, leaving the picker alone otherwise |
| SellerForm.LoadThenExtractRoundTrip | src/gui/SellerFormController.java:193-212 | reading back the controls loaded from a complete seller gives the same seller, when the parse helpers undo the formatting on its values |
| SellerForm.SetErrorMessagesAsWritten | src/gui/SellerFormController.java:223-231 | as written: name, email and salary labels show their own message or ""; the birth-date label ends up with the department's message or ""; the department label keeps its old text |
| SellerForm.AsWrittenMisplacesDateAndDepartmentErrors | src/gui/SellerFormController.java:229-230 | as written: a missing birth date alone is reported in the error map but shown on no label, and a missing department alone is shown under the birth date |
| SellerForm.SetErrorMessages | src/gui/SellerFormController.java:226-230 | corrected: each of the five labels shows its own field's message, or "" when there is none |
| SellerForm.ErrorLabelsMatchMissingFields | src/gui/SellerFormController.java:223-230 | corrected: after validation each label shows "Field can't be empty" exactly when its own field is missing and is cleared otherwise |
| DataChange.Notifications | src/gui/SellerFormController.java:121-125 | notifying produces one onDataChanged call per list entry, in list order |
| DataChange.NotificationsCount | src/gui/DepartmentFormController.java:66-70 | notifying makes no service call and notifies each listener exactly as many times as it occurs in the list |
| DataChange.SubscribedListenerNotifiedLast | src/gui/DepartmentFormController.java:87-89 | appending a listener makes the next notification round reach it after all earlier subscribers, one more time than before |
| SellerController.OnButtonSaveAction | src/gui/SellerFormController.java:101-119 | null entity, then null service, throw with nothing else done; an invalid form fills the labels as the as-written label mapping does (department message under the birth date, department label untouched), with no call and the entity kept; a valid form replaces the entity and calls saveOrUpdate first; on success all listeners follow in order and the stage closes; on DbException only the alert follows |
| SellerController.SubscribeDataChangeListener | src/gui/SellerFormController.java:169-171 | the listener is added at the end of the list, behind every earlier subscriber including a copy of itself, and nothing else changes |
| SellerController.SaveCallsAndNotifications | src/gui/SellerFormController.java:108-117 | saveOrUpdate is called exactly once when both guards pass and the form is valid and never otherwise; each listener is notified once per subscription after a successful save and never otherwise |
| SellerController.SubscribeThenSave | src/gui/SellerFormController.java:169-171 | after subscribing, a save has the same outcome and the same calls, plus one notification of the new listener at the end when the save succeeds |
| SellerController.UpdateFormData | src/gui/SellerFormController.java:193-196 | throws "Entity was null" exactly when there is no entity; otherwise only the form controls change |
| SellerController.UpdateThenSaveStoresEntity | src/gui/SellerFormController.java:109-110 | loading a complete seller into the form and saving without edits passes that same seller to saveOrUpdate and keeps it as the entity |
| DepartmentController.GetFormData | src/gui/DepartmentFormController.java:72-77 | never rejects: the name is the name field's text verbatim, even null or blank, and the id is what the int parser makes of the id text |
| DepartmentController.SubscribeDataChangeListener | src/gui/DepartmentFormController.java:87-89 | the listener is added at the end of the list, behind every earlier subscriber including a copy of itself, and nothing else changes |
| DepartmentController.UpdateFormData | src/gui/DepartmentFormController.java:106-113 | throws "Entity was null" exactly when there is no entity; otherwise the id field shows the id as text, the name field the name, and nothing else changes |
| DepartmentController.UpdateThenGetFormDataRoundTrip | src/gui/DepartmentFormController.java:72-77 | reading back the loaded fields gives the entity again: the name always, the id when the int parser undoes its text |
| DepartmentController.OnButtonSaveAction | src/gui/DepartmentFormController.java:47-64 | null entity, then null service, throw with nothing else done; otherwise the form is never rejected, the entity is replaced and saveOrUpdate called first; on success all listeners follow in order and the stage closes; on DbException only the alert follows |
| DepartmentController.SaveCallsAndNotifications | src/gui/DepartmentFormController.java:54-62 | saveOrUpdate is called exactly once whenever both guards pass; each listener is notified once per subscription after a successful save and never otherwise |
| DepartmentController.SubscribeThenSave | src/gui/DepartmentFormController.java:87-89 | subscribing appends: a successful save ends with one more notification of that listener, and a listener subscribed twice is notified twice |

## Left out

- Widgets, FXML injection, `initialize`/`initializeNodes`, the `Constraints` input filters, the combo box cell factory and `onButtonCancelAction`: user-interface plumbing. Closing the stage is the `StageClosed` outcome and the alert is the `ErrorAlertShown` outcome.
- `loadAssociatedObjects`: it only fetches the department list from the database to fill the combo box.
- `Utils.tryParseToInt`, `Utils.tryParseToDouble`, time-zone conversion of the birth date, and `"%.2f"` salary formatting under a locale set process-wide: their code is not part of this model, so they are `Platform` parameters.
- SellerController.UpdateFormData: the model drops its process-wide side effect of setting the default locale to `Locale.US` (SellerFormController.java:201); only the form controls change in the model, because global locale state is outside it.
- The `SellerService`, `DepartmentService` and `saveOrUpdate` implementations: external database I/O, modelled only as the `SaveOrUpdate` event and a `DbOutcome` parameter.
- `setSeller`, `setServices`, `setDepartment`, `setDepartmentService`: plain setters; a controller record is built with the values they would store.
- Listeners' `onDataChanged` and the closing of the stage are assumed to return normally, and no `Step` expresses what happens otherwise. A `DbException` from a listener or from the stage close would skip the remaining listeners and show the alert with the stage left open. Any other exception would skip them and escape `onButtonSaveAction` with no alert; on the seller form a `ValidationException` would instead fill the error labels. None of these is modelled. The only `DbException` modelled is one thrown by `saveOrUpdate`.

## Findings

| source | as written | input that shows it | evidently intended | confidence | as-written member | corrected member |
|---|---|---|---|---|---|---|
| src/gui/SellerFormController.java:230 | the department's message is written to the birth-date label, replacing what line 229 wrote there; the department label is never written | a form with only the birth date empty: the error map holds "birthDate", yet the birth-date label shows "" and no label shows the error | the department's message goes to the department label | high; not executed | SellerForm.AsWrittenMisplacesDateAndDepartmentErrors | SellerForm.ErrorLabelsMatchMissingFields |
