# Hospital admin console: list and form controllers

This project models the controllers of the hospital administration frontend in Dafny. There are four list views (patients, staff, medicines, treatments) and three forms (patients, medicines, staff). The Dafny verifier proves the properties stated here.

Each list view does the following:
- it normalises a server response of unknown shape into a sequence of records;
- it filters that sequence with a trimmed, lower-cased text query;
- it keeps a set of selected ids, pruned to the visible records after each non-blank query;
- it offers toggle, select-all and "all visible selected";
- it gates edit, inspect, view and delete on the size of the selection;
- it runs a load cycle with a loading flag, a watchdog timer and a `finalize` step.

Each form does the following:
- it derives its mode (new, edit or view) from the route;
- it fills the defaults into a loaded record;
- it builds a trimmed payload and validates it before sending anything;
- it chooses between create and update by mode.

How the code is organised:
- There is one module and one class per controller. A class field that the controller updates is a class field here, and every method states its whole new state.
- The shared pure logic lives in small modules:
  - `Text`: trim, lower-case, substring search, decimal rendering.
  - `Responses`: response bodies and their normalisation.
  - `Selection`: the order-preserving filter, visible ids, select-all, toggle.
  - `FormMode`: the mode rule.
- `Effects` holds the alerts, navigations and requests a controller issues. Each class records them in a ghost log.

Asynchrony is modelled as events that the caller delivers in any order the program allows:
- `Load` returns the handle of the watchdog timer it arms.
- `OnWatchdog(h)` can fire only while `h` is still armed.
- `OnResponse` / `OnError` (`OnJoined` for treatments) deliver the request's result.
- `OnFinalize(h)` clears the timer.

The user's answer to `confirm` and the outcome of a delete are inputs to the delete methods.

No guard drops a result that arrives after the watchdog fired; `subscribe` assigns the lists unconditionally. The model follows the code:
- `PatientList.LateResponseIsApplied` shows a late response replacing the list the watchdog emptied.
- `StaffList.TimeoutKeepsPreviousList` and `MedicineList.TimeoutKeepsPreviousList` show that the staff and medicine watchdogs keep the previous list on screen.

## Model

| member | source | states |
|---|---|---|
| Responses.FirstArray | frontend/src/app/components/patient/patient-list/patient-list.ts:101-115 | reference definition: none exactly when no listed field holds an array; otherwise the array of the first listed field that holds one, with every earlier field holding none |
| Responses.NormalizeContentShapes | frontend/src/app/components/staff/staff-list/staff-list.ts:56-60 | the shared normalisation returns a bare array as it is, else the first array among just `content`, else the empty list |
| Responses.NormalizeContent | frontend/src/app/components/staff/staff-list/staff-list.ts:56-60 | the staff, medicine and treatment normalisers return a bare array as it is; any other non-empty result is the array held by `content` |
| PatientList.NormalizeListIsFirstArray | frontend/src/app/components/patient/patient-list/patient-list.ts:101-115 | `normalizeList` is the array itself, else the first array among `content`, `items`, `patients` in that order, else empty |
| PatientList.NormalizeListExtendsContent | frontend/src/app/components/patient/patient-list/patient-list.ts:101-115 | the patient normalisation agrees with the shared one on arrays and paged bodies, and differs only where the shared one finds nothing and `items`/`patients` holds an array |
| PatientList.PagedBodyYieldsContent | frontend/src/app/components/patient/patient-list/patient-list.ts:105-106 | a Spring page `{content: [r], ...}` yields `[r]` |
| PatientList.NormalizeList | frontend/src/app/components/patient/patient-list/patient-list.ts:101-115 | a bare array is returned as it is; any other non-empty result is the array held by `content`, `items` or `patients` |
| PatientList.FormatHttpError | frontend/src/app/components/patient/patient-list/patient-list.ts:117-128 | the diagnostic starts with the network/CORS prefix exactly when the status is 0; otherwise it starts with "Error HTTP", the status (or `?` when there is none), and the url in parentheses when there is one; it always ends with the message, or "Error desconocido" when there is none |
| PatientList.AgeQueryFindsPatient | frontend/src/app/components/patient/patient-list/patient-list.ts:137-141 | a digit query matches a patient through the age even when no text field contains it |
| PatientList.PatientMatches | frontend/src/app/components/patient/patient-list/patient-list.ts:137-141 | the empty query matches every patient, and the lower-cased name or the rendered age finds its own patient |
| PatientList.DetailLines | frontend/src/app/components/patient/patient-list/patient-list.ts:199-200 | one detail line per selected patient, line i describing patient i |
| PatientList.PatientListComponent.constructor | frontend/src/app/components/patient/patient-list/patient-list.ts:1-40 | the view starts empty, idle, with no selection |
| PatientList.PatientListComponent.Load | frontend/src/app/components/patient/patient-list/patient-list.ts:48-57 | `load` raises the loading flag, sets "Cargando pacientes...", arms one new watchdog and issues one request |
| PatientList.PatientListComponent.OnWatchdog | frontend/src/app/components/patient/patient-list/patient-list.ts:57-68 | the watchdog acts only while loading: it drops the flag, empties patients, filtered and selection, and sets the timeout message; otherwise it changes nothing; consistency is kept |
| PatientList.PatientListComponent.OnResponse | frontend/src/app/components/patient/patient-list/patient-list.ts:70-71 | a delivered body replaces `patients` with its normalisation, `filtered` with a copy, and clears the selection |
| PatientList.PatientListComponent.OnError | frontend/src/app/components/patient/patient-list/patient-list.ts:72-78 | an error records `formatHttpError` and delivers the empty list |
| PatientList.PatientListComponent.OnFinalize | frontend/src/app/components/patient/patient-list/patient-list.ts:79-90 | `finalize` always clears the timer and the loading flag, and writes the OK summary only when the message is empty or still "Cargando..." |
| PatientList.PatientListComponent.OnSearchInput | frontend/src/app/components/patient/patient-list/patient-list.ts:130-148 | a blank query shows every patient and keeps the selection (no pruning); any other query shows the matching patients in order and intersects the selection with the visible ids; the selection then holds only visible ids |
| PatientList.PatientListComponent.ShowAll | frontend/src/app/components/patient/patient-list/patient-list.ts:132-135 | the blank-query branch shows every patient in order, leaves the selection alone, and keeps the view consistent when it was consistent before |
| PatientList.PatientListComponent.ShowMatching | frontend/src/app/components/patient/patient-list/patient-list.ts:137-147 | a non-blank query shows exactly the patients whose name, age or history contains it, in list order, and drops every selected id that is no longer visible; the view is then consistent |
| PatientList.PatientListComponent.PruneSelection | frontend/src/app/components/patient/patient-list/patient-list.ts:143-147 | the deletion loop leaves exactly the selected ids that are visible: removal only |
| PatientList.PatientListComponent.ToggleSelection | frontend/src/app/components/patient/patient-list/patient-list.ts:150-153 | exactly the given id changes membership |
| PatientList.PatientListComponent.IsSelected | frontend/src/app/components/patient/patient-list/patient-list.ts:155-157 | true exactly for a selected id; in a consistent view such an id is visible |
| PatientList.PatientListComponent.AllVisibleSelected | frontend/src/app/components/patient/patient-list/patient-list.ts:159-162 | true exactly when some id is visible and every visible id is selected |
| PatientList.PatientListComponent.ToggleSelectAll | frontend/src/app/components/patient/patient-list/patient-list.ts:164-170 | removes every visible id when all are selected, else adds them all; consistency is kept |
| PatientList.PatientListComponent.ForEachVisible | frontend/src/app/components/patient/patient-list/patient-list.ts:168-169 | the `forEach` loop removes (or adds) exactly the visible ids |
| PatientList.PatientListComponent.EditSelected | frontend/src/app/components/patient/patient-list/patient-list.ts:176-183 | navigates to the editor of the one selected id only when exactly one is selected, else alerts |
| PatientList.PatientListComponent.InspectSelected | frontend/src/app/components/patient/patient-list/patient-list.ts:185-192 | as EditSelected, with `mode=view` |
| PatientList.PatientListComponent.ViewSelected | frontend/src/app/components/patient/patient-list/patient-list.ts:194-201 | refuses an empty selection; otherwise alerts one line per selected patient, in collection order |
| PatientList.PatientListComponent.DeleteOne | frontend/src/app/components/patient/patient-list/patient-list.ts:211-217 | no request without confirmation; a reload after success; an alert and no reload after failure; the reload arms exactly one fresh watchdog handle, and every other outcome leaves the timers alone |
| PatientList.PatientListComponent.DeleteSelected | frontend/src/app/components/patient/patient-list/patient-list.ts:219-231 | refuses an empty selection; otherwise as DeleteOne, for the whole selection; the reload arms exactly one fresh watchdog handle, and every other outcome leaves the timers alone |
| PatientList.PatientListComponent.Refresh | frontend/src/app/components/patient/patient-list/patient-list.ts:233-236 | clears the query and starts a new load, arming exactly one fresh watchdog handle |
| PatientList.LateResponseIsApplied | frontend/src/app/components/patient/patient-list/patient-list.ts:57-97 | a response arriving after the watchdog fired still replaces the list, and the view ends idle |
| StaffList.RoleQueryFindsStaff | frontend/src/app/components/staff/staff-list/staff-list.ts:88-92 | role and specialization are searched case-insensitively like the name |
| StaffList.StaffMatches | frontend/src/app/components/staff/staff-list/staff-list.ts:88-92 | the empty query matches every member, and the lower-cased name or role finds its own member |
| StaffList.StaffListComponent.constructor | frontend/src/app/components/staff/staff-list/staff-list.ts:1-35 | the view starts empty, idle, with no selection and the modal closed |
| StaffList.StaffListComponent.LoadStaff | frontend/src/app/components/staff/staff-list/staff-list.ts:41-55 | `loadStaff` raises the loading flag, arms one new watchdog and issues one request; the message is left alone |
| StaffList.StaffListComponent.OnWatchdog | frontend/src/app/components/staff/staff-list/staff-list.ts:45-53 | the watchdog acts only while loading: it drops the flag and sets "Timeout."; the lists are not in its frame |
| StaffList.StaffListComponent.OnResponse | frontend/src/app/components/staff/staff-list/staff-list.ts:56-60 | a delivered body replaces the list with its normalisation (array or `content` only), copies it and clears the selection |
| StaffList.StaffListComponent.OnError | frontend/src/app/components/staff/staff-list/staff-list.ts:61-64 | an error sets "Error: " and the message, and delivers the empty list |
| StaffList.StaffListComponent.OnFinalize | frontend/src/app/components/staff/staff-list/staff-list.ts:65-71 | `finalize` always clears the timer and the loading flag |
| StaffList.StaffListComponent.OnSearchInput | frontend/src/app/components/staff/staff-list/staff-list.ts:82-98 | blank query: full copy, selection kept; otherwise name/role/specialization filter in order, selection intersected with visible ids |
| StaffList.StaffListComponent.ShowAll | frontend/src/app/components/staff/staff-list/staff-list.ts:84-87 | the blank-query branch shows the whole staff list in order, leaves the selection alone, and keeps the view consistent when it was consistent before |
| StaffList.StaffListComponent.ShowMatching | frontend/src/app/components/staff/staff-list/staff-list.ts:88-97 | a non-blank query shows exactly the members whose name, role or specialization contains it, in list order, and drops every selected id that is no longer visible; the view is then consistent |
| StaffList.StaffListComponent.PruneSelection | frontend/src/app/components/staff/staff-list/staff-list.ts:93-97 | the deletion loop keeps exactly the visible selected ids |
| StaffList.StaffListComponent.ToggleSelection | frontend/src/app/components/staff/staff-list/staff-list.ts:100-103 | exactly the given id changes membership |
| StaffList.StaffListComponent.IsSelected | frontend/src/app/components/staff/staff-list/staff-list.ts:105-107 | true exactly for a selected id; in a consistent view such an id is visible |
| StaffList.StaffListComponent.AllVisibleSelected | frontend/src/app/components/staff/staff-list/staff-list.ts:117-120 | true exactly when some id is visible and every visible id is selected |
| StaffList.StaffListComponent.ToggleSelectAll | frontend/src/app/components/staff/staff-list/staff-list.ts:109-115 | all-or-none over the visible ids |
| StaffList.StaffListComponent.ForEachVisible | frontend/src/app/components/staff/staff-list/staff-list.ts:113-114 | the `forEach` loop removes (or adds) exactly the visible ids |
| StaffList.StaffListComponent.EditSelected | frontend/src/app/components/staff/staff-list/staff-list.ts:124-128 | navigates only with exactly one id selected |
| StaffList.StaffListComponent.InspectSelected | frontend/src/app/components/staff/staff-list/staff-list.ts:130-134 | navigates with `mode=view` only with exactly one id selected |
| StaffList.StaffListComponent.ViewSelected | frontend/src/app/components/staff/staff-list/staff-list.ts:137-144 | refuses an empty selection; otherwise opens the modal on the selected members in list order |
| StaffList.StaffListComponent.CloseModal | frontend/src/app/components/staff/staff-list/staff-list.ts:146-148 | only hides the modal |
| StaffList.StaffListComponent.DeleteOne | frontend/src/app/components/staff/staff-list/staff-list.ts:154-157 | confirmation gate; reload after success; alert after failure; the reload arms exactly one fresh watchdog handle, and every other outcome leaves the timers alone |
| StaffList.StaffListComponent.DeleteSelected | frontend/src/app/components/staff/staff-list/staff-list.ts:159-164 | refuses an empty selection; confirmation gate; reload after success; the reload arms exactly one fresh watchdog handle, and every other outcome leaves the timers alone |
| StaffList.StaffListComponent.Refresh | frontend/src/app/components/staff/staff-list/staff-list.ts:166-169 | clears the query and reloads, arming exactly one fresh watchdog handle |
| StaffList.TimeoutKeepsPreviousList | frontend/src/app/components/staff/staff-list/staff-list.ts:45-53 | after a timeout the members of the previous load stay on screen with "Timeout." |
| MedicineList.QuantityQueryFindsMedicine | frontend/src/app/components/medicine/medicine-list/medicine-list.ts:88-91 | a digit query matches inside the quantity ("20" finds 120) |
| MedicineList.MedicineMatches | frontend/src/app/components/medicine/medicine-list/medicine-list.ts:88-91 | the empty query matches every medicine, and the lower-cased name or the rendered quantity finds its own medicine |
| MedicineList.MedicineListComponent.constructor | frontend/src/app/components/medicine/medicine-list/medicine-list.ts:1-35 | the view starts empty, idle, with no selection and the modal closed |
| MedicineList.MedicineListComponent.Load | frontend/src/app/components/medicine/medicine-list/medicine-list.ts:41-55 | raises the loading flag, arms one new watchdog and issues one request |
| MedicineList.MedicineListComponent.OnWatchdog | frontend/src/app/components/medicine/medicine-list/medicine-list.ts:45-53 | acts only while loading; sets "Timeout." and leaves the medicines alone |
| MedicineList.MedicineListComponent.OnResponse | frontend/src/app/components/medicine/medicine-list/medicine-list.ts:56-60 | array-or-`content` normalisation replaces the list; copy; selection cleared |
| MedicineList.MedicineListComponent.OnError | frontend/src/app/components/medicine/medicine-list/medicine-list.ts:61-64 | "Error: " and the message; empty list delivered |
| MedicineList.MedicineListComponent.OnFinalize | frontend/src/app/components/medicine/medicine-list/medicine-list.ts:65-71 | always clears the timer and the loading flag |
| MedicineList.MedicineListComponent.OnSearchInput | frontend/src/app/components/medicine/medicine-list/medicine-list.ts:82-96 | blank query: full copy, selection kept; otherwise name/quantity filter in order, selection intersected with visible ids |
| MedicineList.MedicineListComponent.ShowAll | frontend/src/app/components/medicine/medicine-list/medicine-list.ts:84-87 | the blank-query branch shows every medicine in order, leaves the selection alone, and keeps the view consistent when it was consistent before |
| MedicineList.MedicineListComponent.ShowMatching | frontend/src/app/components/medicine/medicine-list/medicine-list.ts:88-95 | a non-blank query shows exactly the medicines whose name or quantity contains it, in list order, and drops every selected id that is no longer visible; the view is then consistent |
| MedicineList.MedicineListComponent.PruneSelection | frontend/src/app/components/medicine/medicine-list/medicine-list.ts:92-95 | the deletion loop keeps exactly the visible selected ids |
| MedicineList.MedicineListComponent.ToggleSelection | frontend/src/app/components/medicine/medicine-list/medicine-list.ts:98-101 | exactly the given id changes membership |
| MedicineList.MedicineListComponent.IsSelected | frontend/src/app/components/medicine/medicine-list/medicine-list.ts:103 | true exactly for a selected id; in a consistent view such an id is visible |
| MedicineList.MedicineListComponent.AllVisibleSelected | frontend/src/app/components/medicine/medicine-list/medicine-list.ts:105-108 | true exactly when some id is visible and every visible id is selected |
| MedicineList.MedicineListComponent.ToggleSelectAll | frontend/src/app/components/medicine/medicine-list/medicine-list.ts:110-115 | all-or-none over the visible ids |
| MedicineList.MedicineListComponent.ForEachVisible | frontend/src/app/components/medicine/medicine-list/medicine-list.ts:113-114 | the `forEach` loop removes (or adds) exactly the visible ids |
| MedicineList.MedicineListComponent.EditSelected | frontend/src/app/components/medicine/medicine-list/medicine-list.ts:119-123 | navigates only with exactly one id selected |
| MedicineList.MedicineListComponent.InspectSelected | frontend/src/app/components/medicine/medicine-list/medicine-list.ts:125-129 | navigates with `mode=view` only with exactly one id selected |
| MedicineList.MedicineListComponent.ViewSelected | frontend/src/app/components/medicine/medicine-list/medicine-list.ts:132-136 | refuses an empty selection; otherwise opens the modal on the selected medicines in list order |
| MedicineList.MedicineListComponent.CloseModal | frontend/src/app/components/medicine/medicine-list/medicine-list.ts:138-140 | only hides the modal |
| MedicineList.MedicineListComponent.DeleteOne | frontend/src/app/components/medicine/medicine-list/medicine-list.ts:146-149 | confirmation gate; reload after success; alert after failure; the reload arms exactly one fresh watchdog handle, and every other outcome leaves the timers alone |
| MedicineList.MedicineListComponent.DeleteSelected | frontend/src/app/components/medicine/medicine-list/medicine-list.ts:151-156 | refuses an empty selection; confirmation gate; reload after success; the reload arms exactly one fresh watchdog handle, and every other outcome leaves the timers alone |
| MedicineList.MedicineListComponent.Refresh | frontend/src/app/components/medicine/medicine-list/medicine-list.ts:158-161 | clears the query and reloads, arming exactly one fresh watchdog handle |
| MedicineList.TimeoutKeepsPreviousList | frontend/src/app/components/medicine/medicine-list/medicine-list.ts:44-52 | after a timeout the medicines of the previous load stay on screen with "Timeout." |
| TreatmentList.SourceOutcome | frontend/src/app/components/treatment/treatment-list/treatment-list.ts:51-55 | a failed source becomes the empty list; a delivered one its normalised body |
| TreatmentList.FindById | frontend/src/app/components/treatment/treatment-list/treatment-list.ts:85-95 | the index of the first record whose id equals the given one, or none when no record has it |
| TreatmentList.NameOrId | frontend/src/app/components/treatment/treatment-list/treatment-list.ts:85-95 | the shown name is the id itself, or the non-empty name of a record with that id; with no such record it is the id |
| TreatmentList.NameOfFirstMatch | frontend/src/app/components/treatment/treatment-list/treatment-list.ts:85-95 | the name shown is the one of the first record with the id when non-empty, else the id |
| TreatmentList.TreatmentList.constructor | frontend/src/app/components/treatment/treatment-list/treatment-list.ts:16-23 | the view starts with four empty lists, idle |
| TreatmentList.TreatmentList.LoadData | frontend/src/app/components/treatment/treatment-list/treatment-list.ts:35-48 | raises the loading flag, sets the loading message, arms one watchdog and requests the four lists |
| TreatmentList.TreatmentList.OnWatchdog | frontend/src/app/components/treatment/treatment-list/treatment-list.ts:40-48 | the 12000 ms watchdog acts only while loading and keeps the lists |
| TreatmentList.TreatmentList.OnJoined | frontend/src/app/components/treatment/treatment-list/treatment-list.ts:51-75 | each of the four lists becomes its own source's normalised body, or empty when that source failed; the message reports the treatment count |
| TreatmentList.TreatmentList.OnFinalize | frontend/src/app/components/treatment/treatment-list/treatment-list.ts:57-63 | always clears the timer and the loading flag |
| TreatmentList.TreatmentList.Delete | frontend/src/app/components/treatment/treatment-list/treatment-list.ts:97-101 | a request only for a non-empty id and a confirmed dialog; reload after success; nothing after failure; the reload arms exactly one fresh watchdog handle, and every other outcome leaves the timers alone |
| TreatmentList.OneFailureDoesNotBlockOthers | frontend/src/app/components/treatment/treatment-list/treatment-list.ts:51-56 | one failing source leaves only its own list empty |
| FormMode.DeriveMode | frontend/src/app/components/patient/patient-form/patient-form.ts:44-55 | new exactly without a non-empty route id; view exactly with one and a `mode` query that lower-cases to "view" or a `view` state flag; edit otherwise |
| FormMode.ListLinksOpenIntendedMode | frontend/src/app/components/patient/patient-list/patient-list.ts:176-192 | the links the list views follow open the form in edit, view (any letter case) and new mode |
| PatientForm.TitleIdentifiesMode | frontend/src/app/components/patient/patient-form/patient-form.ts:37-41 | the three titles tell the modes apart |
| PatientForm.FromLoaded | frontend/src/app/components/patient/patient-form/patient-form.ts:83-88 | a loaded patient keeps its id and present fields; a missing name, age or history becomes "", 0, "" |
| PatientForm.BuildPayload | frontend/src/app/components/patient/patient-form/patient-form.ts:103-108 | the payload keeps the id, sends exactly the trimmed name and trimmed history (a missing text as ""), and sends a missing age as 0 |
| PatientForm.BuildPayloadIdempotent | frontend/src/app/components/patient/patient-form/patient-form.ts:103-108 | building a payload from a payload changes nothing |
| PatientForm.WellFormedSentUnchanged | frontend/src/app/components/patient/patient-form/patient-form.ts:103-108 | a patient with trimmed texts and an age is sent as it is |
| PatientForm.Rejection | frontend/src/app/components/patient/patient-form/patient-form.ts:110-117 | accepted exactly when the trimmed name is non-empty and the age finite and non-negative; the name is checked first |
| PatientForm.BlankNameRefused | frontend/src/app/components/patient/patient-form/patient-form.ts:105-113 | a name of only white-space is refused with "El nombre es obligatorio." |
| PatientForm.MissingAgeAccepted | frontend/src/app/components/patient/patient-form/patient-form.ts:106-117 | a missing age is sent as 0 and is not refused |
| PatientForm.LoadedPatientSavesUnchanged | frontend/src/app/components/patient/patient-form/patient-form.ts:83-117 | a loaded patient with a trimmed name and a valid age, saved without edits, is accepted and sent as loaded |
| PatientForm.PatientFormComponent.constructor | frontend/src/app/components/patient/patient-form/patient-form.ts:20-25 | the form starts blank, in new mode, without id, not loading |
| PatientForm.PatientFormComponent.Init | frontend/src/app/components/patient/patient-form/patient-form.ts:43-70 | mode from the route; with a route id the form raises `loading`, arms the watchdog and fetches that patient; the mode is new exactly without an id |
| PatientForm.PatientFormComponent.OnLoaded | frontend/src/app/components/patient/patient-form/patient-form.ts:81-90 | the loaded patient is shown with its defaults |
| PatientForm.PatientFormComponent.OnLoadFailed | frontend/src/app/components/patient/patient-form/patient-form.ts:91-96 | alert, then back to the list |
| PatientForm.PatientFormComponent.OnWatchdog | frontend/src/app/components/patient/patient-form/patient-form.ts:63-70 | the watchdog only ever lowers `loading` |
| PatientForm.PatientFormComponent.OnFinalize | frontend/src/app/components/patient/patient-form/patient-form.ts:73-79 | `finalize` always lowers `loading` |
| PatientForm.PatientFormComponent.Save | frontend/src/app/components/patient/patient-form/patient-form.ts:100-134 | no-op in view mode; refused payloads only alert, with no request and no loading change; otherwise create when new, else update with the route id |
| PatientForm.PatientFormComponent.Send | frontend/src/app/components/patient/patient-form/patient-form.ts:119-136 | an accepted save raises the loading flag, arms one fresh watchdog and issues exactly one request: create when the form is new, update of the route id otherwise |
| PatientForm.PatientFormComponent.OnSaveSucceeded | frontend/src/app/components/patient/patient-form/patient-form.ts:145-147 | back to the list |
| PatientForm.PatientFormComponent.OnSaveFailed | frontend/src/app/components/patient/patient-form/patient-form.ts:148-150 | "No se pudo guardar." when new, "No se pudo actualizar." otherwise |
| PatientForm.PatientFormComponent.Cancel | frontend/src/app/components/patient/patient-form/patient-form.ts:154-156 | back to the list |
| MedicineForm.TitleIdentifiesMode | frontend/src/app/components/medicine/medicine-form/medicine-form.ts:37-41 | the three titles tell the modes apart |
| MedicineForm.FromLoaded | frontend/src/app/components/medicine/medicine-form/medicine-form.ts:82-86 | a loaded medicine keeps its id and present fields; a missing name or quantity becomes "" or 0 |
| MedicineForm.BuildPayload | frontend/src/app/components/medicine/medicine-form/medicine-form.ts:101-105 | the payload keeps the id, sends exactly the trimmed name (a missing one as ""), and sends a missing quantity as 0 |
| MedicineForm.BuildPayloadIdempotent | frontend/src/app/components/medicine/medicine-form/medicine-form.ts:101-105 | building a payload from a payload changes nothing |
| MedicineForm.WellFormedSentUnchanged | frontend/src/app/components/medicine/medicine-form/medicine-form.ts:101-105 | a medicine with a trimmed name and a quantity is sent as it is |
| MedicineForm.Rejection | frontend/src/app/components/medicine/medicine-form/medicine-form.ts:107-114 | accepted exactly when the trimmed name is non-empty and the quantity finite and non-negative; the name is checked first |
| MedicineForm.BlankNameRefused | frontend/src/app/components/medicine/medicine-form/medicine-form.ts:103-110 | a name of only white-space is refused |
| MedicineForm.BadQuantityRefused | frontend/src/app/components/medicine/medicine-form/medicine-form.ts:111-114 | a non-finite or negative quantity is refused once the name is given |
| MedicineForm.LoadedMedicineSavesUnchanged | frontend/src/app/components/medicine/medicine-form/medicine-form.ts:82-114 | a complete, valid loaded medicine is accepted and sent back as loaded |
| MedicineForm.MedicineFormComponent.constructor | frontend/src/app/components/medicine/medicine-form/medicine-form.ts:20-25 | the form starts blank, in new mode, without id, not loading |
| MedicineForm.MedicineFormComponent.Init | frontend/src/app/components/medicine/medicine-form/medicine-form.ts:43-69 | mode from the route; with a route id the form loads that medicine |
| MedicineForm.MedicineFormComponent.OnLoaded | frontend/src/app/components/medicine/medicine-form/medicine-form.ts:80-88 | the loaded medicine is shown with its defaults |
| MedicineForm.MedicineFormComponent.OnLoadFailed | frontend/src/app/components/medicine/medicine-form/medicine-form.ts:89-94 | alert, then back to the list |
| MedicineForm.MedicineFormComponent.OnWatchdog | frontend/src/app/components/medicine/medicine-form/medicine-form.ts:62-69 | the watchdog only ever lowers `loading` |
| MedicineForm.MedicineFormComponent.OnFinalize | frontend/src/app/components/medicine/medicine-form/medicine-form.ts:72-78 | `finalize` always lowers `loading` |
| MedicineForm.MedicineFormComponent.Save | frontend/src/app/components/medicine/medicine-form/medicine-form.ts:98-130 | no-op in view mode; refused payloads only alert; otherwise create when new, else update with the route id |
| MedicineForm.MedicineFormComponent.Send | frontend/src/app/components/medicine/medicine-form/medicine-form.ts:116-130 | an accepted save raises the loading flag, arms one fresh watchdog and issues exactly one request: create when the form is new, update of the route id otherwise |
| MedicineForm.MedicineFormComponent.OnSaveSucceeded | frontend/src/app/components/medicine/medicine-form/medicine-form.ts:141-143 | back to the list |
| MedicineForm.MedicineFormComponent.OnSaveFailed | frontend/src/app/components/medicine/medicine-form/medicine-form.ts:144-146 | one alert whatever the mode |
| MedicineForm.MedicineFormComponent.Cancel | frontend/src/app/components/medicine/medicine-form/medicine-form.ts:150-152 | back to the list |
| StaffForm.TitleIdentifiesMode | frontend/src/app/components/staff/staff-form/staff-form.ts:37-42 | the three titles tell the modes apart |
| StaffForm.FromLoaded | frontend/src/app/components/staff/staff-form/staff-form.ts:83-88 | a loaded member keeps its id and present fields; missing name and specialization become "", a missing role "DOCTOR"; a role from the offered list (DOCTOR, NURSE), or none, stays within that list |
| StaffForm.BuildPayload | frontend/src/app/components/staff/staff-form/staff-form.ts:103-108 | the payload keeps the id and the role, sends exactly the trimmed name, and sends exactly the trimmed specialization, or null exactly when that is blank |
| StaffForm.BuildPayloadIdempotent | frontend/src/app/components/staff/staff-form/staff-form.ts:103-108 | building a payload from a payload changes nothing |
| StaffForm.WellFormedSentUnchanged | frontend/src/app/components/staff/staff-form/staff-form.ts:103-108 | a member with a trimmed name and an absent or non-blank trimmed specialization is sent as it is |
| StaffForm.BlankSpecializationSentAsNull | frontend/src/app/components/staff/staff-form/staff-form.ts:107 | a blank specialization goes out as null |
| StaffForm.Rejection | frontend/src/app/components/staff/staff-form/staff-form.ts:110-113 | the name is the only rule: accepted exactly when it is non-empty |
| StaffForm.BlankNameRefused | frontend/src/app/components/staff/staff-form/staff-form.ts:105-113 | a name of only white-space is refused |
| StaffForm.LoadedStaffSaves | frontend/src/app/components/staff/staff-form/staff-form.ts:83-113 | a complete loaded member with a role is accepted and sent back as loaded |
| StaffForm.StaffFormComponent.constructor | frontend/src/app/components/staff/staff-form/staff-form.ts:20-27 | the form starts blank with role DOCTOR, in new mode, without id |
| StaffForm.StaffFormComponent.Init | frontend/src/app/components/staff/staff-form/staff-form.ts:44-70 | mode from the route; with a route id the form loads that member |
| StaffForm.StaffFormComponent.OnLoaded | frontend/src/app/components/staff/staff-form/staff-form.ts:81-90 | the loaded member is shown with its defaults |
| StaffForm.StaffFormComponent.OnLoadFailed | frontend/src/app/components/staff/staff-form/staff-form.ts:91-96 | alert, then back to the list |
| StaffForm.StaffFormComponent.OnWatchdog | frontend/src/app/components/staff/staff-form/staff-form.ts:63-70 | the watchdog only ever lowers `loading` |
| StaffForm.StaffFormComponent.OnFinalize | frontend/src/app/components/staff/staff-form/staff-form.ts:73-79 | `finalize` always lowers `loading` |
| StaffForm.StaffFormComponent.Save | frontend/src/app/components/staff/staff-form/staff-form.ts:100-129 | no-op in view mode; a blank name only alerts; otherwise create when new, else update with the route id |
| StaffForm.StaffFormComponent.Send | frontend/src/app/components/staff/staff-form/staff-form.ts:115-129 | an accepted save raises the loading flag, arms one fresh watchdog and issues exactly one request: create when the form is new, update of the route id otherwise |
| StaffForm.StaffFormComponent.OnSaveSucceeded | frontend/src/app/components/staff/staff-form/staff-form.ts:140-142 | back to the list |
| StaffForm.StaffFormComponent.OnSaveFailed | frontend/src/app/components/staff/staff-form/staff-form.ts:143-145 | one alert whatever the mode |
| StaffForm.StaffFormComponent.Cancel | frontend/src/app/components/staff/staff-form/staff-form.ts:149-151 | back to the list |
| Selection.Filter | frontend/src/app/components/patient/patient-list/patient-list.ts:137-141 | `filter` keeps exactly the matching records and never lengthens the list |
| Selection.FilterIsSubsequence | frontend/src/app/components/patient/patient-list/patient-list.ts:137-141 | the filtered records keep their collection order |
| Selection.FilterAppend | frontend/src/app/components/patient/patient-list/patient-list.ts:137-141 | filtering a concatenation filters each part in turn |
| Selection.FilterKeepsAll | frontend/src/app/components/patient/patient-list/patient-list.ts:137-141 | when every record matches, the filter returns the whole list |
| Selection.FilterIdempotent | frontend/src/app/components/patient/patient-list/patient-list.ts:137-141 | filtering the filtered list by the same query changes nothing |
| Selection.VisibleIds | frontend/src/app/components/patient/patient-list/patient-list.ts:144 | `map(id).filter(Boolean)` yields exactly the non-empty ids of the records |
| Selection.VisibleIdsMonotone | frontend/src/app/components/patient/patient-list/patient-list.ts:133-144 | the visible ids of a sub-collection are among those of the collection |
| Selection.NothingVisibleNotAllSelected | frontend/src/app/components/patient/patient-list/patient-list.ts:159-162 | "all visible selected" is false when no visible record has an id |
| Selection.AllSelected | frontend/src/app/components/patient/patient-list/patient-list.ts:159-162 | "all visible selected" holds exactly when the set of visible ids is non-empty and contained in the selection |
| Selection.ToggleAllAllOrNone | frontend/src/app/components/patient/patient-list/patient-list.ts:164-170 | select-all ends with all or none of the visible ids selected and leaves hidden ids as they were |
| Selection.ToggleAllTwice | frontend/src/app/components/patient/patient-list/patient-list.ts:164-170 | two select-alls restore the selection exactly when it held all or none of the visible ids; from a partial selection they deselect every visible id |
| Selection.ToggledFlipsOne | frontend/src/app/components/patient/patient-list/patient-list.ts:150-153 | toggling flips exactly one id and is its own inverse |
| Selection.SelectedRecords | frontend/src/app/components/patient/patient-list/patient-list.ts:199 | the selected records are exactly those with a selected id, in collection order |
| Selection.Only | frontend/src/app/components/patient/patient-list/patient-list.ts:181 | the element of a one-element selection |
| Text.ToLower | frontend/src/app/components/patient/patient-list/patient-list.ts:131 | the result has the same length and is lower-case; each capital becomes its own small letter and every other character is unchanged |
| Text.Trim | frontend/src/app/components/patient/patient-form/patient-form.ts:105 | the result has no white-space at either end |
| Text.TrimCutsOnlySpaces | frontend/src/app/components/patient/patient-form/patient-form.ts:105 | the trimmed text is a slice of the input, and everything cut from either end is white-space |
| Text.TrimOfTrimmed | frontend/src/app/components/patient/patient-form/patient-form.ts:105 | a trimmed text is its own trim |
| Text.TrimIdempotent | frontend/src/app/components/patient/patient-form/patient-form.ts:105 | trimming twice is trimming once |
| Text.SearchQueryIdempotent | frontend/src/app/components/patient/patient-list/patient-list.ts:131 | normalising a normalised query changes nothing |
| Text.SearchQuery | frontend/src/app/components/patient/patient-list/patient-list.ts:131 | the query is lower-case and has no white-space at either end |
| Text.BlankQuery | frontend/src/app/components/patient/patient-list/patient-list.ts:131-135 | the query is blank exactly when the search term holds only white-space, so only such a term shows the whole list |
| Text.LowerKeepsTrimmed | frontend/src/app/components/patient/patient-list/patient-list.ts:131 | lower-casing keeps a text trimmed |
| Text.TrimKeepsLower | frontend/src/app/components/patient/patient-list/patient-list.ts:131 | trimming keeps a text lower-case |
| Text.ContainsInfix | frontend/src/app/components/patient/patient-list/patient-list.ts:138 | every slice of a text is found in it by `includes` |
| Text.NatToString | frontend/src/app/components/patient/patient-list/patient-list.ts:139 | `String(n)` is a non-empty run of digits without a leading zero |
| Text.IntToString | frontend/src/app/components/patient/patient-list/patient-list.ts:139 | a minus sign leads exactly the negative numbers |
| Text.IntToStringRoundTrip | frontend/src/app/components/patient/patient-list/patient-list.ts:139 | reading the signed rendering back gives the number |
| Text.NatToStringRoundTrip | frontend/src/app/components/patient/patient-list/patient-list.ts:139 | reading the digits back gives the number |

## Left out

- `frontend/src/app/services/api.service.ts` is not part of this model. That includes its rule of sending `q` only for a non-blank query. Requests appear only as entries in the ghost effect log, and their outcomes are inputs.
- Angular change detection, `NgZone.run`, the RxJS operator plumbing and the router are left out. `setTimeout`, `clearTimeout` and `Date.now` become events and parameters: a watchdog is a handle that fires at most once while armed, and the elapsed milliseconds of the patient summary are an input. Durations (5000, 9000 and 12000 ms) are not modelled.
- `alert` and navigation are entries in the effect log. `confirm` is not logged: the user's answer to it is a boolean input of the delete methods.
- `createNew`, `editRow` and `viewRow` are single unconditional navigations and are not modelled.
- The treatment form, the route table, the Java backend and the seed scripts are not part of this model.
- Numbers: ages and quantities are integers or one non-finite value. Fractions and JavaScript's coercion by `Number(...)` of text input are not modelled; the model renders every non-finite number as "NaN", collapsing JavaScript's "Infinity" and "-Infinity" into it.
- Text: `toLowerCase` is ASCII-only. `trim` removes ASCII white-space, vertical tab, form feed, U+00A0 and U+FEFF; other Unicode space separators and line terminators are not modelled. Substring search is on whole characters.
- Text.NatToString: JavaScript prints very large numbers in exponent form; the model prints every integer in plain decimal.
- Selection sets are unordered. JavaScript `Set` iteration order matters only for `Array.from(selected)[0]` when exactly one id is selected, which is then the only element, and for the order of the ids sent by a bulk delete, which the model does not fix.
- PatientList.PatientListComponent.OnSearchInput: after a blank query the selection stays consistent only if it was before, because the code does not prune in that branch.
- TreatmentList.TreatmentList.GetPatientName, GetStaffName and GetMedicineName carry no contract of their own; their behaviour is stated on TreatmentList.NameOrId, which each of them returns.
- The `isView` getters are the predicate `IsView` of each form class, and the `title` getters are the module functions `Title`.
- The console warning of `normalizeList` and the browser-side rendering of lists, modals and dates are not modelled.
