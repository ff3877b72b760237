# Project management back office: document, department and form logic in Dafny

This project models the logic of a project-management back office at its two
ends.

On the server:

- the department insert handler. It normalises two body shapes, checks the
  column names against an allow-list, builds a positional-parameter `INSERT`,
  and maps driver errors to HTTP statuses;
- the three project-document handlers. Adding a document uploads the file to
  the `project-documents` bucket and records its metadata. Listing looks up a
  project's documents. Deleting looks the document up, removes its file
  best-effort, then deletes the row.

In the browser:

- the add and edit modals for document templates: phase switches, flag
  switches, the ordered save checks, the payload, and the file upload before
  the POST;
- the user edit accordion: change tracking and the PMO/DEPUTY single-holder
  rule;
- the generic update form: pre-filling from a row, manager option lists, role
  option hiding, and the program-manager checkbox.

JavaScript values are the `Json.Value` datatype. An object is a list of
fields whose order stands for `Object.keys` order, because that order decides
the department column order; the model takes the keys to be distinct, as in
any parsed request body. Database tables and the storage bucket are classes. Each of their
operations takes a `fault` argument that stands for a failure of the service.

Stateful UI components are classes whose methods are the event handlers. Each
method's contract states the whole new state, and the pure functions beside
the methods carry the properties:

- the phase list a save posts is the selected phases, in list order;
- a saved selection reads back as the same selection;
- the edit form's map-then-filter gives the same list as the add form's loop;
- the capex/opex exclusion holds in the add form;
- the change set always agrees with what the accordion form shows;
- the single-holder gate refuses exactly a taken role that the user did not
  already hold.

Files:

- `text.dfy`: digits, decimal text, join/split, ASCII upper case, subsequences.
- `json.dfy`: values, truthiness, `String(v)`, property reads, the `isNaN` and
  integer-column abstractions.
- `http.dfy`: the `{status, message, result}` envelope and driver errors.
- `department.dfy`: `addDepartment`.
- `documents.dfy`: `addProjectDocument`, `getProjectDocuments`,
  `deleteProjectDocument`.
- `template_forms.dfy`: the phase list, save checks, flag fields and file URL
  that both template modals share.
- `add_template_form.dfy`, `edit_template_form.dfy`: the two modals.
- `user_accordion.dfy`: the user edit accordion.
- `dynamic_form.dfy`: the generic update form.

## Model

| member | source | states |
|---|---|---|
| Department.Normalise | backend/controllers/departmentController.js:10-27 | A truthy object-like `data` is the record, with its keys in order, and it takes priority. Otherwise a truthy `departmentEnglish` or `departmentArabic` gives exactly `name`, `arabic_name` carrying those two values. With neither there is no record. |
| Department.FirstInvalid | backend/controllers/departmentController.js:44-52 | None exactly when every column matches `^[a-zA-Z0-9_]+$`. Otherwise it is the index of a failing column with every earlier column passing, that is the first offender in key order. |
| Department.FindInvalidColumn | backend/controllers/departmentController.js:44-52 | The validation loop stops at, and reports, the first failing column (equal to `FirstInvalid`). |
| Department.Placeholders | backend/controllers/departmentController.js:55-64 | Exactly n placeholders; the one at position i is `$` and digits that read back as i+1, so column i is bound to value i. |
| Department.PlaceholdersDistinct | backend/controllers/departmentController.js:55-64 | No two placeholders name the same parameter, so each value is bound to one column only. |
| Department.QuotedColumns | backend/controllers/departmentController.js:44-58 | One quoted identifier per column, in column order; an allow-listed column sits whole between its quotes, and the first quote after the opening one is the closing one. |
| Department.ColumnListInjective | backend/controllers/departmentController.js:44-58 | For columns that passed the allow-list, equal column lists in the statement mean equal column sequences, so no identifier can close its quotes and inject another. |
| Department.Prepare | backend/controllers/departmentController.js:12-52 | The insert runs exactly when a record exists, is non-empty and all its columns pass. Every refusal is a 400 failure with a null result, carrying the message for its case: missing shape, empty record, or `Invalid column name: ` and the first offender. |
| Department.ErrorResponse | backend/controllers/departmentController.js:76-90 | 409 exactly when the SQLSTATE is 23505, with `detail` or else the error as result; every other error is 500 with `message` or else the error. |
| Department.Respond | backend/controllers/departmentController.js:67-90 | A returned row gives 201 "Department added successfully" with that row; a driver error gives its `ErrorResponse`. |
| Department.Clash | backend/controllers/departmentController.js:64 | The unique-constraint check the insert meets: a clashing field is in the record, on a unique column, non-null, and already held by a row; no clash means no row holds any of the record's unique values. |
| Department.InsertKeepsUnique | backend/controllers/departmentController.js:64 | Storing a clash-free record keeps every unique column duplicate-free. |
| Department.DepartmentTable.Insert | backend/controllers/departmentController.js:64 | The INSERT adds the record exactly when there is no fault and no clash; the table stays duplicate-free. |
| Department.AddDepartment | backend/controllers/departmentController.js:5-92 | A refusal answers `Prepare`'s 400, runs no query and leaves the table unchanged. Otherwise it runs `QueryText` of the record's columns, answers `Respond` of the insert outcome, and the table gains the record only on success. |
| Department.DuplicateIsConflict | backend/controllers/departmentController.js:76-83 | A record whose unique value is already stored is answered with 409 and is not stored. |
| Department.CreatedRowEchoesRecord | backend/controllers/departmentController.js:67-71 | A created department is answered with 201 and the row the INSERT returned, passed on unchanged; with the modelled table that row holds every submitted column with its submitted value. |
| Http.MessageOrError | backend/controllers/departmentController.js:89 | `error.message or error` is always truthy, and it is the message when the message is non-empty. |
| Json.IntegerKeyIsNumeric | backend/controllers/documentController.js:109-123 | Every value an integer column accepts passes the `isNaN` gate. |
| ProjectDocuments.StripLeadingSegment | backend/controllers/documentController.js:180-184 | For a slash-free `b`, stripping `b/p` gives exactly `p`. |
| ProjectDocuments.StripIsAfterFirstSlash | backend/controllers/documentController.js:182-184 | The removal path is what follows the first `/` of the stored value. |
| ProjectDocuments.RemovalPathIsUploadPath | backend/controllers/documentController.js:180-188 | A file stored by the add handler is removed from the very path it was uploaded to. |
| ProjectDocuments.Bucket.Put | backend/controllers/documentController.js:31-37 | An upload fails on a fault or an existing path and stores nothing; otherwise it stores the path and reports `project-documents/` followed by the path as `fullPath`. |
| ProjectDocuments.Bucket.Remove | backend/controllers/documentController.js:186-193 | Removal reports exactly the storage fault and deletes the path only when there is none. |
| ProjectDocuments.ProjectRows | backend/controllers/documentController.js:118-123 | The rows returned are exactly the table's rows of that project. |
| ProjectDocuments.DocumentRows | backend/controllers/documentController.js:165-168 | The rows returned are exactly those with that id and that project. |
| ProjectDocuments.WithoutDocument | backend/controllers/documentController.js:197-201 | The table keeps exactly the rows not matching `(id, project_id)` and loses as many rows as matched. |
| ProjectDocuments.KeptRowsDistinct | backend/controllers/documentController.js:197-201 | Deleting rows keeps the remaining row ids distinct. |
| ProjectDocuments.DocumentTable.Insert | backend/controllers/documentController.js:72-76 | An integer-keyed insert without fault appends one row with a fresh id and the given fields and returns it. A non-integer key or a fault changes nothing. |
| ProjectDocuments.DocumentTable.Delete | backend/controllers/documentController.js:197-201 | Returns exactly the matching rows and leaves exactly the others; ids stay distinct. |
| ProjectDocuments.AddGate | backend/controllers/documentController.js:15-27 | A missing file is refused first; the request passes exactly when there is a file and `project_id`, `template_id` and `phase` are truthy; all refusals are 400. |
| ProjectDocuments.AddProjectDocument | backend/controllers/documentController.js:6-91 | A refused request touches neither storage nor table. A failed upload is 500 with no row. After an upload the file is stored; an empty file name gives 400 with no row. Otherwise 201 happens exactly when the insert succeeds, and the new row has `file_url` = `fullPath`, `document_name` = the original name, the given phase and the clock reading. |
| ProjectDocuments.RecordDocument | backend/controllers/documentController.js:47-90 | A record missing any of its five values is refused with 400 and no row. Otherwise 201 happens exactly when the insert succeeds, and the one new row carries the upload URL, file name, phase and clock reading. Any other outcome is 500 with no row. |
| ProjectDocuments.GetProjectDocuments | backend/controllers/documentController.js:95-148 | A missing body or `project_id` gives 400, a non-numeric one gives 400. A driver failure, or a numeric value that is not an integer, gives 500. Otherwise no rows gives 404 naming the id, and any rows give 200 with exactly the project's rows. |
| ProjectDocuments.DeleteProjectDocument | backend/controllers/documentController.js:152-223 | Missing ids give 400 and a failed lookup 500, both with no effect. No match gives 404 and storage is never called. With a match, the stripped path is removed when `file_url` is non-empty, and a storage error does not stop the row delete, which answers 200 with `{id}` and leaves exactly the other rows. |
| TemplateForms.PhasesDistinct | frontend/src/components/DocumentFormModal.jsx:9-15 | Five phases, pairwise distinct, none empty. |
| TemplateForms.PickMembers | frontend/src/components/DocumentFormModal.jsx:95-100 | A phase is posted exactly when one of its switches is on. |
| TemplateForms.PickIsSubsequence | frontend/src/components/DocumentFormModal.jsx:95-100 | The posted phases keep the order of the phase list. |
| TemplateForms.SelectionOfPick | frontend/src/components/EditDocumentFormModal.jsx:41-46 | Reading a posted phase list back into switches gives the switches it was posted from. |
| TemplateForms.PickOfSelectionOfPick | frontend/src/components/EditDocumentFormModal.jsx:41-46 | Re-saving an unchanged selection posts the same phase list. |
| TemplateForms.MarkThenFilterIsPick | frontend/src/components/EditDocumentFormModal.jsx:111-113 | `map(selected && phase).filter(Boolean)` yields exactly the picked phases, in order, because no phase name is empty. |
| TemplateForms.SaveCheck | frontend/src/components/DocumentFormModal.jsx:64-91 | No message exactly when all five checks pass. Each message is reported exactly when the checks before it pass and its own fails: names, description, a phase, a project type, a category for external. |
| TemplateForms.FlagsMeaning | frontend/src/components/DocumentFormModal.jsx:103-112 | Internal-only posts capex and opex false; otherwise the switches are posted; `is_internal` and `is_external` copy the switches. |
| TemplateForms.FlagsAfterChecks | frontend/src/components/DocumentFormModal.jsx:88-112 | After passing the checks an external template posts capex or opex true, and with exclusive switches never both. |
| TemplateForms.WithFileUrl | frontend/src/components/DocumentFormModal.jsx:116-135 | Nothing is posted exactly when a chosen file failed to upload. Otherwise the payload keeps every other field and gains `file_url`: the public URL with a file, the fallback without. |
| AddTemplateForm.ToggleEffect | frontend/src/components/DocumentFormModal.jsx:30-44 | A toggle flips the phase, makes every later phase follow it, and keeps the earlier phases and the length. |
| AddTemplateForm.ToggleOnKeepsClosed | frontend/src/components/DocumentFormModal.jsx:32-36 | Switching on keeps a suffix-shaped selection suffix-shaped. |
| AddTemplateForm.ToggleOffClosedIff | frontend/src/components/DocumentFormModal.jsx:37-41 | Switching off keeps a suffix-shaped selection suffix-shaped exactly when no earlier phase was on. |
| AddTemplateForm.CascadeLeavesWindow | frontend/src/components/DocumentFormModal.jsx:18-44 | From all off, switching on phase 1 then off phase 3 leaves phases 1 and 2 on and the rest off, so the selection is not suffix-shaped. |
| AddTemplateForm.ToggleTwiceIff | frontend/src/components/DocumentFormModal.jsx:30-44 | Toggling a phase twice restores the selection exactly when that phase and all later ones were in the same state. |
| AddTemplateForm.PayloadMeaning | frontend/src/components/DocumentFormModal.jsx:95-112 | The payload has the form's keys plus `phase` and the four flags; `phase` holds the given names; other form fields keep their values; `is_internal` and `is_external` copy the switches; internal-only posts `is_capex` and `is_opex` false, otherwise the capex and opex switches. |
| AddTemplateForm.FileUrlRules | frontend/src/components/DocumentFormModal.jsx:116-135 | With no file `file_url` is null; with a file it is the public URL; a failed upload posts nothing. |
| AddTemplateForm.Form.constructor | frontend/src/components/DocumentFormModal.jsx:18-27 | Five switches off, empty data, no file, all flags off, not loading. |
| AddTemplateForm.Form.TogglePhase | frontend/src/components/DocumentFormModal.jsx:30-44 | The switches become `Toggle` of the old switches; capex and opex stay exclusive. |
| AddTemplateForm.Form.InputChange | frontend/src/components/DocumentFormModal.jsx:46-52 | The named field takes the text; nothing else changes. |
| AddTemplateForm.Form.ChooseFile | frontend/src/components/DocumentFormModal.jsx:54-58 | The first chosen file becomes the template file; with none chosen nothing changes. |
| AddTemplateForm.Form.ToggleCapex | frontend/src/components/DocumentFormModal.jsx:265-270 | Capex flips; switching it on switches opex off; capex and opex are never both on. |
| AddTemplateForm.Form.ToggleOpex | frontend/src/components/DocumentFormModal.jsx:290-295 | Opex flips; switching it on switches capex off; capex and opex are never both on. |
| AddTemplateForm.Form.ToggleExternal | frontend/src/components/DocumentFormModal.jsx:368 | External flips; nothing else changes. |
| AddTemplateForm.Form.ToggleInternal | frontend/src/components/DocumentFormModal.jsx:390 | Internal flips; nothing else changes. |
| AddTemplateForm.Form.CollectPhases | frontend/src/components/DocumentFormModal.jsx:95-100 | The `forEach`/`push` loop yields exactly the picked phase names in list order. |
| AddTemplateForm.Form.BeginSave | frontend/src/components/DocumentFormModal.jsx:60-112 | While loading nothing happens. A failed check reports its message and does not start loading. Otherwise loading starts, and the payload of the picked phases and flags is pending together with the file chosen at that moment. |
| AddTemplateForm.Form.FinishSave | frontend/src/components/DocumentFormModal.jsx:114-159 | Only the file captured when the save began counts: with one, the upload key is `document-templates/<now>_<name>`. The captured payload is sent with `WithFileUrl` and a null fallback. The success message appears only when it was sent and accepted, and loading always ends. |
| EditTemplateForm.StoredSelectionOfList | frontend/src/components/EditDocumentFormModal.jsx:41-46 | A stored phase array switches on exactly the phases it lists. |
| EditTemplateForm.SavedSelectionReloads | frontend/src/components/EditDocumentFormModal.jsx:41-46 | A template saved from a selection by either modal opens with that selection. |
| EditTemplateForm.ToggleEffect | frontend/src/components/EditDocumentFormModal.jsx:50-60 | Switching off clears that phase alone. Switching on turns on that phase and every later one and keeps the earlier ones. |
| EditTemplateForm.OffThenOnIff | frontend/src/components/EditDocumentFormModal.jsx:50-60 | Switching a phase off and on again restores the selection exactly when every later phase was on. |
| EditTemplateForm.PayloadPhases | frontend/src/components/EditDocumentFormModal.jsx:109-115 | The edit payload posts the same phase list as the add form would for the same switches, and the template's `id`. |
| EditTemplateForm.Settle | frontend/src/components/EditDocumentFormModal.jsx:160-169 | Only a `success` status hands `result` to `onSubmit`, with "Document updated!". Another status gives "Update failed". A thrown request gives `Failed: ` and its message. |
| EditTemplateForm.PayloadMeaning | frontend/src/components/EditDocumentFormModal.jsx:109-127 | The edit payload has the form's keys plus `phase`, `id` and the four flags; other form fields keep their values; `is_internal` and `is_external` copy the switches; internal-only posts `is_capex` and `is_opex` false, otherwise the capex and opex switches. |
| EditTemplateForm.KeepsLoadedFileUrl | frontend/src/components/EditDocumentFormModal.jsx:130-149 | Saving without a new file posts the `document_url` the template was loaded with. |
| EditTemplateForm.Form.constructor | frontend/src/components/EditDocumentFormModal.jsx:16-26 | Five switches off, empty data, empty file name, flags off, not loading. |
| EditTemplateForm.Form.Load | frontend/src/components/EditDocumentFormModal.jsx:28-48 | A falsy template changes nothing. A truthy one sets the text fields, with `""` defaults and `file_url` from `document_url`, the file name and the four flags (defaulting to off). When `phase` is a truthy list or text, switch i is on exactly when `phase` includes phase i; otherwise the switches stay. |
| EditTemplateForm.Form.LoadFields | frontend/src/components/EditDocumentFormModal.jsx:30-40 | The text fields (with `file_url` from `document_url`), the file name shown and the four flags are taken from the template; the switches are untouched. |
| EditTemplateForm.Form.SetSelection | frontend/src/components/EditDocumentFormModal.jsx:45 | The switches become the given selection. |
| EditTemplateForm.Form.TogglePhase | frontend/src/components/EditDocumentFormModal.jsx:50-60 | The switches become the asymmetric `Toggle` of the old switches. |
| EditTemplateForm.Form.InputChange | frontend/src/components/EditDocumentFormModal.jsx:62-65 | The named field takes the text; nothing else changes. |
| EditTemplateForm.Form.ChooseFile | frontend/src/components/EditDocumentFormModal.jsx:67-72 | A chosen file becomes the template file and the name shown. |
| EditTemplateForm.Form.ToggleCapex | frontend/src/components/EditDocumentFormModal.jsx:274 | Capex flips and opex is left as it is, so both may be on. |
| EditTemplateForm.Form.ToggleOpex | frontend/src/components/EditDocumentFormModal.jsx:294 | Opex flips and capex is left as it is. |
| EditTemplateForm.Form.ToggleExternal | frontend/src/components/EditDocumentFormModal.jsx:365 | External flips; nothing else changes. |
| EditTemplateForm.Form.ToggleInternal | frontend/src/components/EditDocumentFormModal.jsx:385 | Internal flips; nothing else changes. |
| EditTemplateForm.Form.BeginSave | frontend/src/components/EditDocumentFormModal.jsx:74-130 | While loading nothing happens. A failed check reports its message. Otherwise loading starts; a null or undefined template crashes with loading left on; else the payload with the template's `id` is pending, together with the file and the `file_url` shown at that moment. |
| EditTemplateForm.Form.FinishSave | frontend/src/components/EditDocumentFormModal.jsx:129-172 | Only what was captured when the save began counts: the upload key `<now>_<name>` of the captured file, and the captured `file_url` as fallback. A failed upload reports `Failed: Upload failed: ` and the storage message. Otherwise `Settle` decides `onSubmit` and the message, and loading always ends. |
| UserAccordion.FindRole | frontend/src/components/UserAccordion.jsx:58 | A found role is in the list with that id; none is found exactly when no role has the id. |
| UserAccordion.FindRoleFirst | frontend/src/components/UserAccordion.jsx:58 | The role found is the first with the id. |
| UserAccordion.WithRole | frontend/src/components/UserAccordion.jsx:60-64 | The form gains `role_id` and `role_name` (the chosen role's name) and every other field is kept. |
| UserAccordion.UnknownRoleHasNoName | frontend/src/components/UserAccordion.jsx:63 | A choice matching no role gives the empty name. |
| UserAccordion.Decide | frontend/src/components/UserAccordion.jsx:69-102 | It throws exactly when the change set is undefined, and reports nothing to change exactly when the set is empty. It refuses with `Only one <name> is allowed in the system` exactly when the set is non-empty and the chosen role is PMO or DEPUTY, has a holder, and is not the role the user arrived with. Otherwise it sends the user id and exactly the change set. |
| UserAccordion.SelectedOptionEnabled | frontend/src/components/UserAccordion.jsx:198-202 | The role the form shows is never a disabled option. |
| UserAccordion.HolderMayResave | frontend/src/components/UserAccordion.jsx:86-92 | A user who arrived holding the chosen role may save again. |
| UserAccordion.GateGuardsTakenRole | frontend/src/components/UserAccordion.jsx:74-96 | After choosing a taken single-holder role, its option is enabled (it is selected) and the save gate refuses it. |
| UserAccordion.SentDataIsShown | frontend/src/components/UserAccordion.jsx:99-102 | A request carries only tracked columns, each with the value the form shows. |
| UserAccordion.SaveAfterSuccessThrows | frontend/src/components/UserAccordion.jsx:108 | With the change set left undefined, a save throws; with an empty one it would report nothing to change. |
| UserAccordion.Accordion.constructor | frontend/src/components/UserAccordion.jsx:13-15 | The form shows the user record, the change set is empty, and there are no roles yet. |
| UserAccordion.Accordion.ReceiveRoles | frontend/src/components/UserAccordion.jsx:31-41 | The role list is replaced; nothing else changes. |
| UserAccordion.Accordion.Receive | frontend/src/components/UserAccordion.jsx:43-46 | New user data is shown and the change set is emptied. |
| UserAccordion.Accordion.InputChange | frontend/src/components/UserAccordion.jsx:48-54 | The column takes the text in the form and in the change set (an undefined set starts afresh); the set still agrees with the form. |
| UserAccordion.Accordion.RoleChange | frontend/src/components/UserAccordion.jsx:56-67 | The form takes the role id and the role's name (or empty); the change set takes only the id. |
| UserAccordion.Accordion.Save | frontend/src/components/UserAccordion.jsx:69-120 | The outcome is `Decide` of the state. After an accepted request the form shows the prop again and the change set is undefined. Otherwise nothing changes. |
| UpdateDynamicForm.NoFieldIsId | frontend/src/components/UpdateDynamicForm.jsx:36-349 | No table lists a field named `id`. |
| UpdateDynamicForm.Prefill | frontend/src/components/UpdateDynamicForm.jsx:353-369 | The keys are exactly `id` plus the table's field names (only `id` for an unknown table). `id` is the row's id and every field holds its `PrefillValue`. |
| UpdateDynamicForm.UsersSelectsFromIds | frontend/src/components/UpdateDynamicForm.jsx:358-365 | For users, a null department id pre-fills `""` and role ids 0 and 7 pre-fill `"0"` and `"7"`. |
| UpdateDynamicForm.Candidates | frontend/src/components/UpdateDynamicForm.jsx:94-104 | The kept users are users of the list who qualify. |
| UpdateDynamicForm.CandidatesKeep | frontend/src/components/UpdateDynamicForm.jsx:94-104 | Every qualifying user is kept. |
| UpdateDynamicForm.CandidatesInOrder | frontend/src/components/UpdateDynamicForm.jsx:94-104 | The kept users keep the list's order. |
| UpdateDynamicForm.ManagerOptions | frontend/src/components/UpdateDynamicForm.jsx:94-104 | One option per kept user, in the kept order: option i carries the id text and the first and family name of kept user i. |
| UpdateDynamicForm.ManagerOptionsMembers | frontend/src/components/UpdateDynamicForm.jsx:93-104 | An option is offered exactly when it is the option (id text, first and family name) of a qualifying user. |
| UpdateDynamicForm.ManagerOptionsInOrder | frontend/src/components/UpdateDynamicForm.jsx:94-104 | The options keep the order of the user list. |
| UpdateDynamicForm.OfferedOptions | frontend/src/components/UpdateDynamicForm.jsx:33-34 | The options are those of the `users` prop when it is non-empty, and those of the store's list otherwise. |
| UpdateDynamicForm.StoreUsersUnused | frontend/src/components/UpdateDynamicForm.jsx:33 | With a non-empty `users` prop, the store's list makes no difference to the options. |
| UpdateDynamicForm.OfferedOptionsMembers | frontend/src/components/UpdateDynamicForm.jsx:33-104 | An option is offered exactly when a qualifying user of the list in use yields it: the prop list when non-empty, the store's list otherwise. |
| UpdateDynamicForm.FlaggedUserOffered | frontend/src/components/UpdateDynamicForm.jsx:159-171 | A user flagged `is_program_manager` is offered as program manager whatever the role name. |
| UpdateDynamicForm.HiddenOptionRules | frontend/src/components/UpdateDynamicForm.jsx:474-476 | Hiding ignores case, applies only to the role select, hides PMO, DEPUTY and ADMIN, and leaves PM visible. |
| UpdateDynamicForm.Form.constructor | frontend/src/components/UpdateDynamicForm.jsx:15-24 | No values, checkbox disabled. |
| UpdateDynamicForm.Form.Load | frontend/src/components/UpdateDynamicForm.jsx:351-374 | A falsy row changes nothing; a truthy one replaces the values with the pre-filled record. |
| UpdateDynamicForm.Form.Change | frontend/src/components/UpdateDynamicForm.jsx:375-389 | The select's value is stored under its name. A change of `role` enables the checkbox exactly when the chosen text is "PM"; other selects leave it alone. |

## Left out

- Rendering: JSX, styling, toasts, alerts, console output and modal open/close callbacks are not modelled. The messages shown are returned as values.
- SQL execution is not modelled. The department table is a sequence of records with a set of unique columns, and the document table is a sequence of rows with an id sequence. Every other server failure is the `fault` argument.
- Storage calls are not modelled either. The bucket is a set of paths with a `fault` argument, and the two template buckets (`templates`, `documents`) are not modelled beyond their keys and an `UploadResult`.
- ProjectDocuments.Bucket.Put: the `fullPath` the storage client reports is taken to be the bucket name, `/`, then the path.
- FormData, axios and JSON serialisation of the payloads are not modelled: the payload is the map that would be serialised.
- Clock readings (`Date.now()`, `new Date()`) are the `now` parameter.
- Json.IsNumeric: `isNaN` is approximated. Numbers, booleans, null, empty text and decimal text count as numeric. JavaScript also accepts padded, fractional, exponent and hexadecimal text.
- Json.IntegerKey: PostgreSQL's integer input is approximated by decimal text. Surrounding blanks and an explicit `+` are not accepted.
- Json.Num: numbers are unbounded integers; fractions and integer overflow are not modelled.
- Text.Upper: upper-casing is ASCII only, whereas JavaScript's `toUpperCase` is Unicode-aware.
- Department.CreatedRowEchoesRecord: the modelled table returns the record exactly as submitted; generated ids, column defaults and type coercion in the row `RETURNING *` gives back are not modelled.
- Json.Obj: `Object.keys` lists integer-like keys first, in ascending order, then the other keys in insertion order. The model keeps the fields in the order given, so for a body such as `{"name": …, "2": …}` the source's column order (`"2"` first) is not reproduced. Duplicate keys, which no parsed object has, are not excluded by the type.
- getDepartments (backend/controllers/departmentController.js:94-110) is a single unconditional SELECT and is not modelled.
- EditTemplateForm.Form.Load: a truthy `phase` that is neither an array nor text makes `includes` throw in the source; the model skips the switches for such a value and keeps them as they were. The flags are stored as booleans (the truthiness of `is_capex || false` and the others), whereas the source keeps the raw value.
- UserAccordion.Role: a role's `user_count` is an integer. A count the server returns as text is compared by JavaScript coercion, which is not modelled.
- UserAccordion: the race between two users claiming PMO or DEPUTY at once is not modelled. A failed role fetch changes nothing, so only the successful fetch (`ReceiveRoles`) is modelled.
- UpdateDynamicForm: `handleFormSubmit` (frontend/src/components/UpdateDynamicForm.jsx:391-446) is not modelled. It refers to names the file never defines (`activeTab`, `getSingularTabName`, `axiosInstance`, `toast` among them), so it cannot run as written. React Hook Form's `register` and `required` validation are not modelled beyond the values a select change stores.
- UpdateDynamicForm.RoleNamed: a truthy `role_name` that is not text (a number, say) makes `toUpperCase` throw in the source; the model treats it as not matching.
- UpdateDynamicForm.UserOption: a user with a null or undefined `id` makes `toString` throw in the source; the model yields the text "null" or "undefined".
- UpdateDynamicForm.FieldNames: a table name that is a property of every object (`toString`, `constructor`) makes the source throw; the model gives such names no fields.
- ProjectDocuments.DeleteProjectDocument: the "zero rows deleted" 500 (backend/controllers/documentController.js:203-208) can only arise when another request deletes the row between the lookup and the delete. The model runs one request at a time, so that answer is unreachable in it.
- Asynchronous interleaving: each handler is an atomic step. Each save is split at its first `await`: `BeginSave` captures the payload, the chosen file and (in the edit modal) the `file_url` that the rest of the save reads, and `FinishSave` uses only those. Other handlers may run in between.

## Notes

- The add modal's phase cascade does not keep the selection suffix-shaped. Switching a phase off also clears every later phase but keeps the earlier ones, so from all off, "on at 1, off at 3" leaves a window of two phases (`AddTemplateForm.CascadeLeavesWindow`). A selection stays suffix-shaped only under the conditions of `ToggleOnKeepsClosed` and `ToggleOffClosedIff`.
- The edit modal's capex and opex switches do not exclude each other, unlike the add modal's. An edited template can be posted as both capex and opex.
- After a successful save the accordion's change set is `undefined`, not `{}`: `(prev) => {}` returns nothing. A second save before new user data arrives throws in `Object.keys` instead of reporting that there is nothing to change (`UserAccordion.SaveAfterSuccessThrows`). The model keeps this behaviour.
- If the edit modal's `documentData` is null or undefined when a save passes its checks, reading `documentData.id` throws after `loading` was set, and nothing resets it. The model returns `Crashed` with `loading` left on.
