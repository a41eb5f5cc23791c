# TNC-Salary staff records: a Dafny model

TNC-Salary is a small staff-record application. It has two pages:

- an **admin panel** (`admin_panel.py`), gated by a shared access code, with Add, Edit and Delete tabs over an `employees` table keyed on date of birth;
- a **view page** (`user_panel.py`), which looks an employee up by date of birth and offers a generated PDF profile for download.

This project models the decisions those two pages make and proves properties about them.

- `wrappers.dfy`, module `Wrappers`: `Option` and `Result`.
- `records.dfy`, module `Records`: the fifteen columns of a row and Python's `dict.get` on a row. A row is `map<Column, string>`. `Column` is an enumeration of the fifteen dict keys, and `Key` gives each one's Python spelling.
- `employee_form.dfy`, module `EmployeeForm`: `employee_form`.
  - `Prefill` gives the initial widget selections chosen from a stored row, including the `list.index` failure on an unknown approval value.
  - `ResolveQualification` is the UG/PG rule.
  - `Submit` builds the fifteen-column record the form returns.
  - Lemmas connect the three: a stored row round-trips through the form, and a saved form re-opens unchanged.
- `admin_panel.dfy`, module `AdminPanel`: `admin_auth` and `admin_panel_page`.
  - The session flag is a class (`Session`) whose method `AdminAuth` updates it.
  - One run of the page is a method that returns how the script ended and the store calls it issued, in order.
  - Each tab is a function of abstract inputs: the code typed, which buttons were pressed, whether the box is ticked, what the lookups returned and the values left in the form's widgets.
- `user_panel.dfy`, module `UserPanel`: `generate_pdf_bytes` and `view_employee_page`.
  - The PDF library's flowables (paragraph, spacer, table) become a datatype.
  - `GeneratePdfStory` appends them to a `StoryBuilder` exactly as the source does. It is proved equal to `Story`, a rendering of the declarative `Layout` of four sections.
  - Lemmas about `Story` and `Layout` cover the section order, the 18 flowables, the row and cell counts, every column shown exactly once, missing columns rendering as `""`, and the download file name.

Behaviour of the code worth knowing:

- The `st.stop()` that the UG/PG rule calls inside the Add tab's form (admin_panel.py:109-111) ends the whole script, so the Edit and Delete tabs are not rendered in that run (`AdminPanel.AddConflictBlocksOtherTabs`).
- A stored university-approval value outside Yes, No, In-Progress makes `list.index` raise while the Edit form renders (admin_panel.py:77-79; `EmployeeForm.FormError.ApprovalNotAnOption`, and `Crashed` in `AdminPanel.EditTab`).
- The PDF never fails on missing fields (`UserPanel.CellShowsValue`), but `view_employee_page` reads `emp['name']` (user_panel.py:108) before it builds the PDF, so a row without a name stops the page with a KeyError (`UserPanel.ViewOutcome.NameMissing`).
- The Edit and Delete tabs issue their update and delete only after the lookup of the searched date found a row (admin_panel.py:193, 214; `AdminPanel.UpdateGate`, `AdminPanel.DeleteGate`).

## Model

| member | source | states |
|---|---|---|
| Records.ColumnListed | admin_panel.py:153-169 | every column is one of the fifteen keys of the record the form returns |
| Records.KeysAreDistinct | admin_panel.py:153-169 | distinct columns have distinct dict keys, so keying rows by `Column` loses nothing |
| EmployeeForm.IndexOf | admin_panel.py:77-79 | `list.index`: a position exists iff the value is in the list; it is the first occurrence; a missing value gives `None` where Python raises ValueError |
| EmployeeForm.ShiftIndex | admin_panel.py:54-60 | the Shift selectbox starts on the stored shift when it is one of I, SF-I, II, and on "I" (index 0) otherwise, including when the key is missing |
| EmployeeForm.ApprovalIndex | admin_panel.py:74-81 | the approval radio starts on the stored value, or on "No" when the key is absent; there is no index iff a stored value is not one of Yes, No, In-Progress |
| EmployeeForm.QualificationIndex | admin_panel.py:93-107 | a qualification selectbox starts on the stored qualification when it is one of that list's options, and on "NA" otherwise |
| EmployeeForm.DateDefault | admin_panel.py:119-138 | a date input opens on the stored date when the row has a non-empty one, and on today when the date is missing or "" |
| EmployeeForm.PrefillOpensOnDefaults | admin_panel.py:41-151 | for any row the form opens without error, complete or not, each text widget opens on the stored value or "" when the column is missing, and each date on the stored date or on today when it is missing or "" |
| EmployeeForm.Prefill | admin_panel.py:41-151 | the form's initial widget values fail iff the stored approval is not an option, and otherwise every selection is one of its widget's options |
| EmployeeForm.ResolveQualification | admin_panel.py:109-117 | rejected iff both UG and PG are not "NA"; otherwise the one that is set, or "" when both are "NA" |
| EmployeeForm.Submit | admin_panel.py:153-169 | the form yields no record iff UG and PG are both set, and otherwise a record holding every column |
| EmployeeForm.SubmitTakesWidgets | admin_panel.py:153-169 | the submitted qualification is the resolved UG/PG value, and every other column holds its own widget's value |
| EmployeeForm.ResolvedIsQualification | admin_panel.py:90-117 | a qualification resolved from real selections is never "NA": it is "" or a real UG or PG option |
| EmployeeForm.OnlyNAIsShared | admin_panel.py:90-91 | "NA" is the only option the UG and PG lists share |
| EmployeeForm.QualificationRoundTrip | admin_panel.py:90-117 | for any stored row, the pre-selected UG is the stored qualification if it is a UG option and "NA" otherwise, PG likewise; they never trigger the rejection, and they resolve to the stored qualification when it is a real option and to "" otherwise |
| EmployeeForm.PrefillShowsStored | admin_panel.py:41-151 | the Edit form of a stored row opens with that row's value in every widget except UG and PG |
| EmployeeForm.SubmitRebuilds | admin_panel.py:153-169 | a submitted record is determined by its qualification and its widgets' values |
| EmployeeForm.UntouchedFormRoundTrip | admin_panel.py:41-169 | an Edit form of a stored row, submitted as it opened, returns exactly the stored row |
| EmployeeForm.SubmittedIsStored | admin_panel.py:153-169 | a record submitted from real selections and non-empty dates is a stored row: complete, with a valid shift, approval and qualification, and its dates set |
| EmployeeForm.SubmittedQualificationReselected | admin_panel.py:90-117 | re-opening a submitted record pre-selects exactly the UG and PG values that were submitted |
| EmployeeForm.SavedRecordPrefillsSameForm | admin_panel.py:41-169 | a record saved from real selections and non-empty dates re-opens the Edit form with exactly the same widget values |
| EmployeeForm.BlankFormDefaults | admin_panel.py:41-151 | the Add form, given no row, opens with shift "I", approval "No", UG and PG "NA", every date today and every text empty, and submits qualification "" |
| AdminPanel.AuthStep | admin_panel.py:13-26 | the flag after one run is set iff it was set or Login was pressed with the right code; the run proceeds iff it was set, is granted (then re-run) iff the right code was submitted, and is refused iff a wrong one was |
| AdminPanel.Session.constructor | admin_panel.py:14-15 | a new session holds no flag and is not authenticated |
| AdminPanel.Session.AdminAuth | admin_panel.py:13-26 | the session's flag and the outcome are those of `AuthStep` on the old flag, and the flag is stored afterwards |
| AdminPanel.FlagAfterIffCorrectLogin | admin_panel.py:13-26 | after any series of runs the flag is set iff it was set at the start or some run pressed Login with the right code; nothing resets it |
| AdminPanel.AddTab | admin_panel.py:180-186 | the Add tab stops the script iff UG and PG are both set and completes otherwise, and issues one insert of the submitted record iff the form yields a record and "Add Employee" is pressed |
| AdminPanel.EditTab | admin_panel.py:189-207 | the Edit tab does nothing when the lookup is empty; it crashes iff the first row found lacks a date of birth or its approval is not an option, and stops iff it opens but the form has a UG/PG conflict, and completes otherwise; it issues a call iff the first row found has a date of birth, opens without error, the form yields a record and "Update Employee" is pressed; that call updates the searched date with the submitted record |
| AdminPanel.DeleteTab | admin_panel.py:210-221 | the Delete tab crashes iff the first row found lacks a name and completes otherwise, and issues a delete of the searched date iff a named row was found, the box is ticked and "Delete" is pressed |
| AdminPanel.AdminPanelPage | admin_panel.py:173-221 | one run of the page updates the session flag as `AuthStep` does and returns the halt and store calls of `PageRun`: the login gate, then the tabs in order, each ending the run if it stops or crashes |
| AdminPanel.LockedPageIssuesNothing | admin_panel.py:173-177 | without the flag no store call is issued; the run is re-run after a correct login and stopped otherwise |
| AdminPanel.DeleteGate | admin_panel.py:210-221 | a delete of a date is issued iff the flag was set, the date is the searched one, the Add and Edit tabs completed, a named row was found, the box is ticked and "Delete" is pressed |
| AdminPanel.UpdateGate | admin_panel.py:189-207 | an update is issued iff the flag was set, the Add tab completed, a row with a date of birth was found and opens, the form yields a record and "Update Employee" is pressed; it is filtered on the searched date, not the form's date, and writes the submitted record |
| AdminPanel.AddConflictBlocksOtherTabs | admin_panel.py:109-111 | a UG/PG conflict on the Add form ends the run before any store call, so the Edit and Delete tabs issue nothing |
| AdminPanel.UntouchedEditTab | admin_panel.py:189-207 | the Edit tab of a stored row, submitted as it opened with Update pressed, updates the searched date with the stored row itself |
| AdminPanel.UntouchedEditWritesStoredRow | admin_panel.py:173-221 | with nothing added and nothing found to delete, an untouched Edit form makes the whole run complete with exactly one call: the update of the searched date with the stored row |
| UserPanel.RenderRows | user_panel.py:62-81 | a table has one row of texts per layout row, each cell the rendering of its layout cell |
| UserPanel.Sections | user_panel.py:45-60 | every section contributes four flowables |
| UserPanel.StoryBuilder.constructor | user_panel.py:40 | the story starts empty |
| UserPanel.StoryBuilder.Append | user_panel.py:42-43 | `story.append` adds one flowable at the end |
| UserPanel.StoryBuilder.Section | user_panel.py:45-60 | `section` appends a spacer, the bold heading, a spacer and the table, in that order |
| UserPanel.GeneratePdfStory | user_panel.py:28-85 | the story built by the source's appends and f-string rows equals `Story`, the rendering of the four-section `Layout` |
| UserPanel.EmployeeInformationTable | user_panel.py:62-66 | the first table is the source's three rows of f-strings, with "" for a missing column |
| UserPanel.EmploymentDatesTable | user_panel.py:68-71 | the dates table is the source's two rows, the last with an empty cell |
| UserPanel.ContactDetailsTable | user_panel.py:73-77 | the contact table is the source's three rows, the last with an empty cell |
| UserPanel.ApprovalTable | user_panel.py:79-81 | the approval table is one row: the bare value and an empty cell |
| UserPanel.SectionsAt | user_panel.py:45-60 | flowables 4i to 4i+3 of the sections are section i's spacer, heading, spacer and table |
| UserPanel.StoryShape | user_panel.py:40-81 | the story has 18 flowables: the "Staff Management" title, a spacer, then for each of the four sections in order a spacer, its bold title, a spacer and its table |
| UserPanel.TableShapes | user_panel.py:62-81 | the four tables have 3, 2, 3 and 1 rows, and every row has two cells |
| UserPanel.StoryCell | user_panel.py:62-81 | each text in a table of the story is the rendering of the matching layout cell |
| UserPanel.LayoutColumns | user_panel.py:62-81 | the document shows the columns in the order name, shift, department, position, qualification, other post, the three dates, mobile, email, Aadhar, PAN, UAN/PF, approval |
| UserPanel.EveryColumnOnce | user_panel.py:62-81 | each of the fifteen columns is shown in exactly one cell of the document |
| UserPanel.CellKinds | user_panel.py:62-81 | only the approval cell is a bare value, exactly three cells are empty, and every other cell's label ends in ": " |
| UserPanel.CellShowsValue | user_panel.py:63-80 | a labelled cell reads its label followed by the record's value; taking the label off gives the value back; a missing column reads as "", and nothing fails |
| UserPanel.ProfileFileName | user_panel.py:146 | the file name is the employee's name followed by "_profile.pdf" |
| UserPanel.FileNameMatchesNameCell | user_panel.py:141-146 | the downloaded file is named after the name shown in the first cell of the document |
| UserPanel.ViewEmployeePage | user_panel.py:88-149 | the page does nothing until Search is pressed, reports "not found" on an empty lookup, fails with a KeyError on a first row without a name, and otherwise offers that first row's story under its profile file name |

## Left out

- Supabase (`create_client` and the `select`, `insert`, `update` and `delete` chains) is not modelled. Lookup results are inputs, and writes are the `StoreCall` values a run issues. Every store call is taken to return. In the code a failing call raises and ends the script, for example on a network error or an insert rejected for a duplicate date of birth. So `AdminPanel.DeleteGate` and `AdminPanel.UpdateGate`, whose conditions include "the Add tab completed", assume that the Add tab's insert did not raise. The table's effect is not modelled either: that a found row equals an inserted one, that a delete empties a later lookup, that an update touches only the row with its date, and last-write-wins between two admins.
- Streamlit is reduced to what it decides:
  - Widgets, columns, tabs and messages are not modelled. A widget is the value it holds when the script runs (`Widgets`, `PageInputs`), and `Prefill` gives its initial value.
  - Widget keys (`emp_id`, `k(...)`) and the way Streamlit keeps a keyed widget's value across reruns are not modelled.
  - The whole script stops on `st.stop()` and `st.rerun()`, and this is modelled as the `Halt` of a run.
- `date.today()` is a parameter, and dates are opaque strings. `date.fromisoformat` is taken to accept every stored date, and `str` of the parsed date to give that string back. The ValueError it raises on a malformed date is not modelled.
- SQL `NULL` is not modelled: a column is either present with a string or absent. Extra columns the table may return (such as an id) are not modelled either: a `Record` holds only the fifteen columns the application names.
- The PDF library is not modelled: `SimpleDocTemplate`, page size, margins, column widths, table styles, `doc.build`, the `BytesIO` buffer and the download button's MIME type. The sample stylesheet's styles are the two names of `Style`.
- The on-screen display of the view page (user_panel.py:110-136), with its "-" fallbacks, is display only and is not modelled.
- `st.secrets`, and `tnc-sal.py` (page navigation), are not part of this model.
- `get_employee_by_dob` is the lookup whose result is an input. The `str(dob)` it filters on is the searched date string.
