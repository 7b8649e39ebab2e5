# Air-Monitoring dashboard: a Dafny model of its core logic

The Air-Monitoring dashboard is a React front end for a network of air-quality
stations. It is mocked throughout: there is no real back end. The logic it
does contain is small, deterministic and sequential. This project models that
logic in Dafny and proves what the code promises about it.

The model covers these parts of the dashboard:

- **Paginated data table.** Page count, page slice, previous/next clamping,
  the five-button page window, the index column, the `'-'` fallback cell and
  the empty-table row.
- **Registration and change-password forms.** Their validation chains and the
  password policy the two share.
- **Station management page.** Search and status filter, the simulated
  connection test, the guarded save, and edit/append/delete on the list.
- **User management page.** The role split, status chips and the three
  dialogs.
- **Account and station template tables.** Editing a copy of a record.
- **Reports page.** The date-range search, columns, severity chips and the
  export rows.
- **Map classification helpers.** The colour bands and the trend arrow.
- **Authentication.** The service, with its local and session stores and the
  restore-on-start rule, and the mock login back end.
- **Date picker.** The calendar grid, month navigation and the selected-day
  rule.
- **Mock data shaping.** The historical and yearly data used by the reports
  and statistics pages.

**How it is built**

- Each component or service is a module.
- Pure helpers are functions, and each has lemmas that state what it means.
- A React component becomes a `class`:
  - its `useState` variables are its fields;
  - its handlers are methods that say exactly which fields they change and
    how;
  - the `for` and `forEach` loops of the source are `while` loops with
    invariants.
- Shared pieces live in their own modules:
  - `Common`: option values, filtering, first match and `undefined` indexing;
  - `JsText`: the JavaScript string functions the code uses;
  - `Dates`: the Gregorian calendar;
  - `PasswordPolicy`: the password rules of both forms.

**How JavaScript values are represented**

- JavaScript numbers are `real`, with a separate `NaN` (`Common.Number`)
  where `undefined` arithmetic can produce it.
- Strings are `seq<char>`.
- Dates are (year, month, day) triples compared by their day number.
- The browser stores are maps from keys to stored values.
- `Date.now()`, `Math.random()` and the answers to `confirm` are
  parameters.
- Timers run at once, in order.

## Model

| member | source | states |
|---|---|---|
| DataTable.TotalPagesIsCeiling | FE/src/components/DataTable.tsx:46-47 | The page count is the least number of pages holding all rows: zero exactly for no rows, enough for all, and the last page is non-empty. |
| DataTable.InitialPageSize | FE/src/components/DataTable.tsx:43 | The initial size is the prop's positive size, and 10 when it is absent or zero; it is always positive. |
| DataTable.PageRows | FE/src/components/DataTable.tsx:48-50 | A page never holds more than `pageSize` rows. |
| DataTable.PageRowsAt | FE/src/components/DataTable.tsx:48-50 | Row `i` of page `p` is record `(p-1)*size+i`; every page but the last is full, and every existing page is non-empty. |
| DataTable.ConcatPagesPrefix | FE/src/components/DataTable.tsx:47-50 | The first `k` pages laid end to end are exactly the first `k*size` records. |
| DataTable.PagesPartitionData | FE/src/components/DataTable.tsx:46-50 | All pages together give back the whole record list, so each record is on exactly one page. |
| DataTable.FinalColumns | FE/src/components/DataTable.tsx:56-67 | With `showIndex` the index column comes first, followed by the caller's columns unchanged; without it the caller's columns are used as they are. |
| DataTable.Body | FE/src/components/DataTable.tsx:109-137 | No records gives one placeholder row spanning every column. Otherwise there is one row per record of the page, and each cell is its column's rendering. |
| DataTable.IndexCells | FE/src/components/DataTable.tsx:63 | The index cell of row `i` on page `p` is `(p-1)*size+i+1`, so the numbers run on across pages. |
| DataTable.FallbackCell | FE/src/components/DataTable.tsx:134-137 | A column without `render` shows `'-'` exactly for falsy values (including `0` and `''`) or a literal `'-'`, and the raw value otherwise. |
| DataTable.PageNumbers | FE/src/components/DataTable.tsx:208-234 | The window has `min(5, totalPages)` consecutive ascending pages within `[1, totalPages]`, and it contains the current page. |
| DataTable.Table.constructor | FE/src/components/DataTable.tsx:42-43 | The table starts on page 1 with the initial page size. |
| DataTable.Table.ReceiveData | FE/src/components/DataTable.tsx:53-55 | New data of a different length resets the page to 1; data of the same length keeps the page. |
| DataTable.Table.Prev | FE/src/components/DataTable.tsx:194-195 | The page becomes `max(1, p-1)`, stays valid, and does not move on page 1. |
| DataTable.Table.Next | FE/src/components/DataTable.tsx:238-239 | The page becomes `min(totalPages, p+1)`, stays in `[1, totalPages]`, and does not move on the last page. |
| DataTable.Table.GoToPage | FE/src/components/DataTable.tsx:222 | A page button selects that page. |
| DataTable.Table.ChangePageSize | FE/src/components/DataTable.tsx:173-176 | The chosen size is stored and the page goes back to 1. |
| DataTable.Table.PageButtons | FE/src/components/DataTable.tsx:208-234 | The buttons for the current state form a consecutive window within the page range that contains the current page. |
| DataTable.ShownRange | FE/src/components/DataTable.tsx:165 | The "a-b of n" text runs from `(p-1)*size+1` to `min(p*size, n)`, which spans exactly the visible slice. |
| PasswordPolicy.FirstWeakness | FE/src/AuthPages/Register.tsx:82-95 | No weakness exactly for a strong password. Otherwise it is the first broken rule in the order length ≥ 10, then an A–Z capital, then a listed special character. |
| PasswordPolicy.LowerAndDigitsAreWeak | FE/src/AuthPages/Register.tsx:87-95 | A password of lower-case letters and digits only is never strong. |
| PasswordPolicy.SampleIsStrong | src/components/ChangePasswordModal.tsx:37-48 | The policy can be met (`Abcdefghi!` is strong). |
| Register.SampleFormIsComplete | FE/src/AuthPages/Register.tsx:35-106 | A sample form fills every field, uses an `@tphcm.gov.vn` address, a strong password typed twice and accepts the terms. |
| Register.SomeFormIsAccepted | FE/src/AuthPages/Register.tsx:32-108 | The guard chain can be passed: some form is accepted. |
| Register.Apply | FE/src/AuthPages/Register.tsx:22-28 | A text event sets only its field to the value; the checkbox sets only `agreeToTerms` to `checked`. |
| Register.Requirements | FE/src/AuthPages/Register.tsx:35-106 | There are fourteen requirements, each with its message: eight filled fields, the e-mail suffix, three password rules, the confirmation and the terms. |
| Register.FirstFailureSpec | FE/src/AuthPages/Register.tsx:32-106 | No failure exactly when every requirement holds. Otherwise the reported message is that of a failing requirement whose predecessors all hold. |
| Register.FirstFailureStep | FE/src/AuthPages/Register.tsx:32-106 | One guard of the chain: a passing check moves on to the next, and a failing one reports its own message. |
| Register.ValidateIsFirstFailure | FE/src/AuthPages/Register.tsx:32-106 | The guard chain reports exactly the first failing requirement in the fixed order. |
| Register.AllFilledFieldwise | FE/src/AuthPages/Register.tsx:35-73 | "Every field filled" means each of the eight fields, named one by one, is non-blank. |
| Register.TrimGuardsIffFilled | FE/src/AuthPages/Register.tsx:35-73 | The eight `trim()` guards pass exactly when no field is blank. |
| Register.AcceptedIsComplete | FE/src/AuthPages/Register.tsx:35-108 | A form is accepted iff all fields are filled, the untrimmed e-mail ends with `@tphcm.gov.vn`, the password is strong, the confirmation is identical and the terms are accepted. |
| Register.BlankNameFirst | FE/src/AuthPages/Register.tsx:35-38 | A blank full name is reported before anything else. |
| Register.RegisterPage.constructor | FE/src/AuthPages/Register.tsx:6-20 | The page starts with the empty form, no error and not loading. |
| Register.RegisterPage.HandleInputChange | FE/src/AuthPages/Register.tsx:22-28 | Only the event's field of the form changes. |
| Register.RegisterPage.TogglePassword | FE/src/AuthPages/Register.tsx:6 | The password visibility flips. |
| Register.RegisterPage.ToggleConfirmPassword | FE/src/AuthPages/Register.tsx:7 | The confirmation visibility flips. |
| Register.RegisterPage.HandleSubmit | FE/src/AuthPages/Register.tsx:30-108 | The error is cleared and then set to the first failure's message. `isLoading` becomes true exactly when every check passes. |
| Register.RegisterPage.CompleteRegistration | FE/src/AuthPages/Register.tsx:110-122 | The request ends with loading off and navigation to `/login`. |
| ChangePassword.AcceptedIff | src/components/ChangePasswordModal.tsx:33-53 | A change goes ahead iff no input is blank, the new password is strong and the confirmation equals it. |
| ChangePassword.FilledIffNotBlank | src/components/ChangePasswordModal.tsx:33 | The three `trim()` guards pass exactly when no input is blank. |
| ChangePassword.ReportsFirstWeakness | src/components/ChangePasswordModal.tsx:37-52 | With all inputs filled, the error is the policy's first weakness, and only then the mismatch check. |
| ChangePassword.CurrentPasswordOnlyFilled | src/components/ChangePasswordModal.tsx:29-53 | The current password is only checked for blankness: any two non-blank values give the same verdict. |
| ChangePassword.Modal.constructor | src/components/ChangePasswordModal.tsx:11-16 | The dialog starts with all fields and messages empty and not loading. |
| ChangePassword.Modal.SetOpen | src/components/ChangePasswordModal.tsx:18-27 | Opening the dialog clears the three inputs, the error, the success message and loading; any other change of `isOpen` keeps them. |
| ChangePassword.Modal.SetCurrentPassword | src/components/ChangePasswordModal.tsx:11 | The input stores the typed value. |
| ChangePassword.Modal.SetNewPassword | src/components/ChangePasswordModal.tsx:12 | The input stores the typed value. |
| ChangePassword.Modal.SetConfirmPassword | src/components/ChangePasswordModal.tsx:13 | The input stores the typed value. |
| ChangePassword.Modal.HandleSubmit | src/components/ChangePasswordModal.tsx:29-53 | Both messages are cleared and the error is set to the failing guard's message. Loading is set exactly when every check passes. |
| ChangePassword.Modal.CompleteChange | src/components/ChangePasswordModal.tsx:55-58 | The first timer ends loading, shows the success message and passes the current and new passwords to the callback. |
| ChangePassword.SubmitAndComplete | src/components/ChangePasswordModal.tsx:29-58 | The callback receives a pair exactly when the inputs passed validation, and that new password is strong and confirmed. |
| StationManagement.FilteredIff | src/Pages/StationManagement.tsx:32-37 | A station is listed iff its name or id contains the term, ignoring case, and the filter is `all` or its status; the list keeps its order. |
| StationManagement.EmptySearchListsAll | src/Pages/StationManagement.tsx:32-37 | An empty term under `all` lists every station. |
| StationManagement.SearchIgnoresCase | src/Pages/StationManagement.tsx:33-34 | Lower-casing the term does not change the result. |
| StationManagement.StatusCountsAddUp | src/Pages/StationManagement.tsx:310-357 | The online, offline and maintenance counts add up to the total. |
| StationManagement.RejectedConnections | src/Pages/StationManagement.tsx:55-68 | The test fails for a port outside 1..65535, for an address that does not split into four octets, and for an address starting with `192.168.1.99`, containing `0.0.0` or equal to `127.0.0.1`. |
| StationManagement.ValidIpHasThreeDots | src/Pages/StationManagement.tsx:55-60 | An accepted address has exactly three dots. |
| StationManagement.NumeralHasNoDot | src/Pages/StationManagement.tsx:55 | A decimal numeral contains no dot, so it stays one part when the address is split. |
| StationManagement.NumeralIsOctet | src/Pages/StationManagement.tsx:57-59 | The numeral of any number up to 255 `parseInt`s into range. |
| StationManagement.DottedQuadIsValid | src/Pages/StationManagement.tsx:55-60 | Any four numbers up to 255 joined by dots pass the address rule. |
| StationManagement.PortFromInput | src/Pages/StationManagement.tsx:497 | A non-numeric or zero port becomes 8080; otherwise the parsed number is kept. |
| StationManagement.TypedPortKept | src/Pages/StationManagement.tsx:497 | A typed positive decimal port is stored as typed. |
| StationManagement.CoordinateFromInput | src/Pages/StationManagement.tsx:444-462 | An unparsable coordinate becomes 0; a parsed one is kept. |
| StationManagement.ApplyEdit | src/Pages/StationManagement.tsx:138-150 | An edit copies name, coordinates, status, address, port and time, and keeps id, readings and battery. |
| StationManagement.EditOnlyTouchesId | src/Pages/StationManagement.tsx:136-150 | An edit keeps the length, rewrites exactly the stations with the edited id and leaves all the others as they were. |
| StationManagement.NewStationId | src/Pages/StationManagement.tsx:154 | A new id is `A` followed by three characters, the last three digits of `Date.now()`. |
| StationManagement.NewStation | src/Pages/StationManagement.tsx:153-167 | A new station has null readings, battery 100 and the form's fields. |
| StationManagement.DeleteRemovesId | src/Pages/StationManagement.tsx:111-115 | Deletion removes every station with the id and keeps all the others, in order. |
| StationManagement.SaveAlertCases | src/Pages/StationManagement.tsx:118-134 | Save is allowed iff the name and address are non-blank and the test succeeded. The name alert comes first, then the address alert. |
| StationManagement.SavedStations | src/Pages/StationManagement.tsx:136-168 | Edit mode rewrites the edited id; add mode appends exactly one new station and keeps the earlier ones. |
| StationManagement.Page.constructor | src/Pages/StationManagement.tsx:16-29 | The page starts with the initial list, nothing open, an empty search, the `all` filter, the idle test and the default form. |
| StationManagement.Page.SetSearchTerm | src/Pages/StationManagement.tsx:19 | The search term is stored. |
| StationManagement.Page.SetStatusFilter | src/Pages/StationManagement.tsx:20 | The filter is stored. |
| StationManagement.Page.HandleTestConnection | src/Pages/StationManagement.tsx:40-80 | An empty address only raises the alert. Otherwise success sets `success` and forces the status online, and failure sets `failed` and keeps the form. |
| StationManagement.Page.HandleAddStation | src/Pages/StationManagement.tsx:83-94 | Add opens a fresh form at the default position, with the idle test and no station being edited. |
| StationManagement.Page.HandleEditStation | src/Pages/StationManagement.tsx:97-108 | Edit loads the station into the form, with `''` for a missing address and 8080 for a missing or zero port. |
| StationManagement.Page.HandleDeleteStation | src/Pages/StationManagement.tsx:111-115 | The list loses the id only when the user confirms. |
| StationManagement.Page.HandleSaveStation | src/Pages/StationManagement.tsx:118-173 | A refused save changes nothing. An accepted one stores the saved list, closes the dialog and resets the test. |
| StationManagement.Page.SetName | src/Pages/StationManagement.tsx:425 | Only the name changes. |
| StationManagement.Page.SetLatitude | src/Pages/StationManagement.tsx:440-446 | Only the latitude changes. |
| StationManagement.Page.SetLongitude | src/Pages/StationManagement.tsx:458-464 | Only the longitude changes. |
| StationManagement.Page.SetIpAddress | src/Pages/StationManagement.tsx:481-484 | The address changes and the test goes back to idle. |
| StationManagement.Page.SetPort | src/Pages/StationManagement.tsx:496-499 | The port changes, falling back to 8080, and the test goes back to idle. |
| StationManagement.Page.SetStatus | src/Pages/StationManagement.tsx:561-563 | Only the status changes; the selector is disabled after a successful test. |
| StationManagement.Page.Cancel | src/Pages/StationManagement.tsx:603-605 | Cancel closes the dialog and resets the test. |
| StationManagement.Page.CloseByBackdrop | src/Pages/StationManagement.tsx:409 | A backdrop click closes the dialog and keeps the test result. |
| StationManagement.EditAfterTestBlocksSave | src/Pages/StationManagement.tsx:481-484 | After the address is edited, the test is back to idle, so the save guard refuses and the list is unchanged. |
| UserManagement.UnknownStatusShownAsIs | src/Pages/UserManagement.tsx:68-92 | A status outside Active/Inactive/Pending gets the gray chip and keeps its own text, and only such a status does. |
| UserManagement.KnownStatusesDistinct | src/Pages/UserManagement.tsx:68-92 | The three known statuses have distinct chips and labels. |
| UserManagement.RoleSplit | src/Pages/UserManagement.tsx:94-95 | The admin table holds exactly Admin/Moderator users and the viewer table exactly User users. No user is in both, and other roles are in neither. |
| UserManagement.TablesKeepOrder | src/Pages/UserManagement.tsx:94-95 | Both tables keep the list order. |
| UserManagement.StatusUpdateOnlyTouchesId | src/Pages/UserManagement.tsx:46-52 | A status update changes only the status, and only of users with the id. |
| UserManagement.RoleStatusUpdateOnlyTouchesId | src/Pages/UserManagement.tsx:38-44 | A role-and-status update changes only those fields, and only of users with the id. |
| UserManagement.MissingIdUpdatesNothing | src/Pages/UserManagement.tsx:46-52 | Updating an absent id changes nothing. |
| UserManagement.Page.constructor | src/Pages/UserManagement.tsx:9-14 | The page starts with no dialog open and nothing selected. |
| UserManagement.Page.OpenManagementModal | src/Pages/UserManagement.tsx:16-23 | As written: the dialog flag is set but the selection ends up null, so the dialog is not shown. |
| UserManagement.Page.OpenManagementModalKeepingSelection | src/Pages/UserManagement.tsx:16-23 | Corrected: the selection is kept and the dialog is shown. |
| UserManagement.Page.OpenStatusModal | src/Pages/UserManagement.tsx:25-28 | The status dialog opens for the id and status, with an empty role. |
| UserManagement.Page.CloseModals | src/Pages/UserManagement.tsx:30-36 | All three dialog flags are false and both selections are null. |
| UserManagement.Page.UpdateManagementUser | src/Pages/UserManagement.tsx:38-44 | With a selection, that id's role and status are rewritten; otherwise nothing changes. |
| UserManagement.Page.UpdateStatus | src/Pages/UserManagement.tsx:46-52 | With a selection, that id's status is rewritten; otherwise nothing changes. |
| UserManagement.Page.DeactivateUser | src/Pages/UserManagement.tsx:54-57 | The target is remembered and the confirmation opens. |
| UserManagement.Page.ConfirmDeactivateUser | src/Pages/UserManagement.tsx:59-66 | A non-empty target becomes `Inactive`, then every dialog closes and both selections clear. |
| UserManagement.ManagementEditAsWritten | src/Pages/UserManagement.tsx:16-44 | As written: opening and saving never shows the dialog and leaves the users unchanged. |
| UserManagement.ManagementEditCorrected | src/Pages/UserManagement.tsx:16-44 | Corrected: the dialog shows and the selected user's role and status are rewritten. |
| AccountTable.SetField | src/components/tables/AccountTable.tsx:25-29 | Only the named field changes; the id and the other fields are kept. |
| AccountTable.SetFieldSame | src/components/tables/AccountTable.tsx:28 | Writing back a field's own value changes nothing. |
| AccountTable.SavedAccountsSpec | src/components/tables/AccountTable.tsx:33-37 | An edit replaces exactly the accounts with the id and keeps the length. An add appends one account with id `Date.now()` and keeps the earlier ones. |
| AccountTable.EditOfMissingIdKeepsList | src/components/tables/AccountTable.tsx:34 | Editing an id no account has changes nothing. |
| AccountTable.Table.constructor | src/components/tables/AccountTable.tsx:14-23 | The table starts with the two initial accounts and the dialog closed. |
| AccountTable.Table.OpenAdd | src/components/tables/AccountTable.tsx:47-50 | Add edits the blank account (id 0, status Active) in add mode and opens the dialog. |
| AccountTable.Table.OpenEdit | src/components/tables/AccountTable.tsx:84-87 | Edit takes a copy of the row in edit mode and opens the dialog. |
| AccountTable.Table.HandleInputChange | src/components/tables/AccountTable.tsx:25-29 | Only the named field of the copy changes; nothing happens without a copy. |
| AccountTable.Table.HandleSave | src/components/tables/AccountTable.tsx:31-39 | Without a copy nothing changes; with one, the saved list is stored and the dialog closes. |
| AccountTable.Table.Close | src/components/tables/AccountTable.tsx:177 | Cancel closes the dialog. |
| BasicTableOne.SetField | src/components/tables/BasicTables/BasicTableOne.tsx:40-44 | Only the named field changes; the id and the other fields are kept. |
| BasicTableOne.UpdatedStationsSpec | src/components/tables/BasicTables/BasicTableOne.tsx:48-52 | An edit replaces exactly the stations with the id and keeps the length. An add appends one station with the new id and keeps the earlier ones. |
| BasicTableOne.SavingUnchangedCopyKeepsList | src/components/tables/BasicTables/BasicTableOne.tsx:49 | Saving an unchanged copy of a station with a unique id keeps the list. |
| BasicTableOne.Table.constructor | src/components/tables/BasicTables/BasicTableOne.tsx:22-32 | The table starts with the three initial stations and the dialog closed. |
| BasicTableOne.Table.HandleRowClick | src/components/tables/BasicTables/BasicTableOne.tsx:34-38 | A row click edits that station in edit mode and opens the dialog. |
| BasicTableOne.Table.OpenAdd | src/components/tables/BasicTables/BasicTableOne.tsx:62-66 | Add edits an empty Active station, with id `Date.now()`, in add mode. |
| BasicTableOne.Table.HandleInputChange | src/components/tables/BasicTables/BasicTableOne.tsx:40-44 | Only the named field of the copy changes; nothing happens without a copy. |
| BasicTableOne.Table.HandleUpdate | src/components/tables/BasicTables/BasicTableOne.tsx:46-54 | Without a copy nothing changes; with one, the updated list is stored and the dialog closes. |
| BasicTableOne.Table.Close | src/components/tables/BasicTables/BasicTableOne.tsx:130 | Closing the dialog. |
| BasicTableOne.EditOneField | src/components/tables/BasicTables/BasicTableOne.tsx:34-54 | Click, one field change and save rewrite that field, and only it, on the stations with the clicked id. |
| Reports.ShownIndicatorsCases | src/Pages/Reports.tsx:149-201 | `all` shows UV, PM1.0, PM2.5 in that order; any other data type shows its own indicator alone. |
| Reports.InRangeIffTimeValues | src/Pages/Reports.tsx:63-68 | The range test is `from ≤ date ≤ to` on the dates' day numbers, both ends included. |
| Reports.FilterByRangeSpec | src/Pages/Reports.tsx:63-68 | The kept rows are exactly those in the inclusive range, in source order. |
| Reports.WholeYearKeepsEveryMonth | src/Pages/Reports.tsx:54-72 | A monthly search from 1 January to 31 December keeps all twelve months of a known station. |
| Reports.StartAfterYearFindsNothing | src/Pages/Reports.tsx:54-68 | A monthly search starting after 1 December of its year finds nothing, since the year comes from the start date. |
| Reports.SeverityBands | src/Pages/Reports.tsx:156-195 | With descending thresholds the chips are half-open bands: red at or above the first, then orange, then yellow, then green. |
| Reports.SeverityMonotone | src/Pages/Reports.tsx:156-195 | A larger reading never gets a milder chip. |
| Reports.ShippedThresholdsDescend | src/Pages/Reports.tsx:156-195 | The thresholds UV 8/6/3, PM1.0 50/40/30 and PM2.5 35/25/15 descend, and the four chip classes are distinct. |
| Reports.GetColumns | src/Pages/Reports.tsx:139-212 | The columns are period, then the shown indicators in order, then date: 5 columns for `all` and 3 otherwise. |
| Reports.Keys | src/Pages/Reports.tsx:86-101 | An export row has as many keys as cells. |
| Reports.ExportRowKeys | src/Pages/Reports.tsx:86-101 | The keys are STT, the period key, the shown indicator keys in order, then NGÀY CẬP NHẬT: six for `all`, four otherwise, all distinct. |
| Reports.BuildExportRow | src/Pages/Reports.tsx:86-103 | Row `index` exports with STT = index+1, the period under the view's key, the shown readings and the date. |
| Reports.Page.constructor | src/Pages/Reports.tsx:23-31 | The page starts on monthly, `all`, 2024-01-01 to 2024-12-31, with an empty table and no search yet; this is the state before the mount effect runs. |
| Reports.Page.SetStation | src/Pages/Reports.tsx:33 | The station is stored. |
| Reports.Page.SetViewType | src/Pages/Reports.tsx:24 | The view is stored. |
| Reports.Page.SetDataType | src/Pages/Reports.tsx:25 | The data type is stored. |
| Reports.Page.SetFromDate | src/Pages/Reports.tsx:26 | The start date is stored. |
| Reports.Page.SetToDate | src/Pages/Reports.tsx:27 | The end date is stored. |
| Reports.Page.GenerateTableData | src/Pages/Reports.tsx:43-74 | With no station or an empty date, only the table is emptied. Otherwise the table is the range-filtered source data of the start year, and the search's view is recorded. |
| Reports.Page.Mount | src/Pages/Reports.tsx:36-40 | With a station and both dates set, the mount effect performs the search as `generateTableData` does; otherwise nothing changes. |
| Reports.ShowPage | src/Pages/Reports.tsx:22-40 | A page as first shown has already searched: the table is the station's monthly 2024 data over the whole year, the search is marked done and not loading. |
| Reports.Page.Columns | src/Pages/Reports.tsx:139-147 | The period title follows the view of the last search, not the current selector. |
| Reports.Page.ExportRows | src/Pages/Reports.tsx:82-104 | An empty table exports nothing. Otherwise there is one export row per table row, in order, keyed by the last search's view. |
| MapComponent.BandIff | FE/src/components/MapComponent.tsx:206-228 | Green up to the first limit, yellow up to the second, orange up to the third and red above: UV 2/5/7, PM2.5 12/35/55, PM1.0 20/50/100. |
| MapComponent.BandMonotone | FE/src/components/MapComponent.tsx:206-228 | A larger reading never gets a milder band. |
| MapComponent.BandColorsDistinct | FE/src/components/MapComponent.tsx:211-224 | Distinct bands have distinct colours. |
| MapComponent.ColorHelpersAgree | FE/src/components/MapComponent.tsx:41-62 | `getParameterColor` and `getAirQualityColor` (lines 206-228) agree exactly on non-null readings; on null they give `#6b7280` and `#gray`. |
| MapComponent.StatusColorCases | FE/src/components/MapComponent.tsx:38 | Online is green, offline red and anything else amber. |
| MapComponent.TrendArrowCases | FE/src/components/MapComponent.tsx:231-243 | A missing, zero or NaN trend shows a dash; a rise shows red ↗ and a fall green ↘, each with the absolute value. |
| MockAuth.LoginSucceedsIff | FE/src/services/mockAuthService.ts:4-34 | Only `admin` / `admin1122` succeeds. |
| MockAuth.FailuresLookAlike | FE/src/services/mockAuthService.ts:29-34 | An unknown user and a wrong password get the same failure and message. |
| MockAuth.SuccessShape | FE/src/services/mockAuthService.ts:37-54 | A success carries the account without its password, a `mock_token_` token and `expiresIn` 3600. |
| AuthService.UserFromStores | src/services/authService.ts:134-144 | A restored user is one stored under `userInfo`, read from local storage first and then session storage. |
| AuthService.RestoredState | src/services/authService.ts:85-105 | The restored state is authenticated iff either store's flag is exactly `'true'`, and logged out otherwise. |
| AuthService.SavedStoresSpec | src/services/authService.ts:113-131 | Remember-me writes the flags, user and token to local storage only. Otherwise it writes session storage and only removes `rememberMe` from local storage; unrelated keys are kept. |
| AuthService.RememberedLoginRestores | src/services/authService.ts:85-150 | After a remembered login, a restart restores the same user and token. |
| AuthService.SessionLoginRestores | src/services/authService.ts:85-150 | After a session login, a restart restores the same user and token when local storage holds no stale user or token. |
| AuthService.ClearedStoresRestoreLoggedOut | src/services/authService.ts:85-105 | Stores without the four keys restore to logged out. |
| AuthService.Service.constructor | src/services/authService.ts:13-22 | A new service holds the restored state of its stores. |
| AuthService.Service.Login | src/services/authService.ts:25-49 | A successful answer with data logs in with its user and non-empty token and saves per remember-me. A failure or a thrown error leaves state and stores unchanged; a throw returns the error message. |
| AuthService.Service.SaveToStorage | src/services/authService.ts:113-131 | The stores become the saved stores for the current user and token. |
| AuthService.Service.Logout | src/services/authService.ts:52-62 | Always logged out, with the four keys removed from both stores. |
| AuthService.Service.ClearAuthState | src/services/authService.ts:153-165 | The state is logged out and each key is removed from both stores, with nothing else removed. |
| AuthService.FreshServiceIsLoggedOut | src/services/authService.ts:85-105 | A service over empty stores is unauthenticated with no user and no token. |
| AuthService.LoginWithMock | src/services/authService.ts:25-42 | Against the mock back end, login succeeds exactly for the mock credentials. The getters then show that account and a `mock_token_` token; a failure changes nothing. |
| AuthService.LogoutThenReload | src/services/authService.ts:52-105 | After a logout, a reloaded service is logged out. |
| DatePicker.NeighbourMonth | FE/src/components/DatePicker.tsx:70-80 | The month before or after is a month 1..12. |
| DatePicker.SetMonthIsDayOffset | FE/src/components/DatePicker.tsx:70-80 | `setMonth(m ± 1)` gives a real date lying `day-1` days after the first of the target month, overflowing as `Date` does. |
| DatePicker.NavigateMovesOneMonth | FE/src/components/DatePicker.tsx:70-80 | On a day up to the 28th, navigation moves exactly one month, wrapping the year. |
| DatePicker.LastDayPrecedesNextMonth | FE/src/components/DatePicker.tsx:51-52 | Day 0 of the next month, `DaysInMonth`, is the day before that month's first. |
| Dates.DaysInMonth | FE/src/components/DatePicker.tsx:51-53 | A month has 28–31 days, and February has 29 exactly in Gregorian leap years. |
| Dates.Weekday | FE/src/components/DatePicker.tsx:54 | The weekday of the first is in 0..6, Sunday first. |
| DatePicker.FormatDate | FE/src/components/DatePicker.tsx:34-38 | The display is empty exactly for an empty value. |
| DatePicker.SelectedDay | FE/src/components/DatePicker.tsx:82-92 | There is a selected day iff the value lies in the shown month and year, and it is the value's day. |
| DatePicker.DayCell | FE/src/components/DatePicker.tsx:47-68 | Day `k` sits in cell `start+k-1`, and only there. |
| DatePicker.Picker.constructor | FE/src/components/DatePicker.tsx:16-17 | The picker starts closed on today's month. |
| DatePicker.Picker.Toggle | FE/src/components/DatePicker.tsx:108 | The field's button flips the dropdown. |
| DatePicker.Picker.ClickOutside | FE/src/components/DatePicker.tsx:21-32 | A click outside closes the dropdown. |
| DatePicker.Picker.DaysGrid | FE/src/components/DatePicker.tsx:47-68 | The grid is `startingDayOfWeek` empty cells followed by days 1..n in order, 28 to 37 cells in all. |
| DatePicker.Picker.NavigateMonth | FE/src/components/DatePicker.tsx:70-80 | The shown date becomes `SetMonth` of the old one and stays a real date. |
| DatePicker.Picker.HandleDateSelect | FE/src/components/DatePicker.tsx:40-45 | The chosen day of the shown month is emitted as `YYYY-MM-DD` and the dropdown closes. |
| DatePicker.SelectThenHighlight | FE/src/components/DatePicker.tsx:40-92 | Choosing a day emits its date and closes the dropdown. Fed back as the value, that date selects the chosen day, which sits in exactly one grid cell. |
| HistoricalData.UnlistedYearUsesBase | FE/src/data/historicalData.ts:16-29 | A year outside the table uses the 2024 multipliers; every listed year other than 2024 has its own. |
| HistoricalData.JitterBounds | FE/src/data/historicalData.ts:40-64 | For `Math.random()` in [0,1), a non-negative reading stays within ±5 % of `base × multiplier`. |
| HistoricalData.UnknownStationHasNoRows | FE/src/data/historicalData.ts:26-51 | An unknown station yields no rows, monthly or daily. |
| HistoricalData.MonthLabelsNumbered | FE/src/data/historicalData.ts:30-31 | Month label `k` is `Tháng k+1`. |
| HistoricalData.Pad2Small | FE/src/data/historicalData.ts:43-65 | `padStart(2, '0')` of a single digit prepends one zero. |
| HistoricalData.MonthlyRowDates | FE/src/data/historicalData.ts:33-45 | There are twelve monthly rows, and row `k` is dated the first of month `k+1`. |
| HistoricalData.MonthlyRows | FE/src/data/historicalData.ts:30-45 | There are exactly twelve rows in month order. Row `k` is `Tháng k+1`, dated `year-MM-01`, and carries month `k`'s UV reading scaled by the year's multiplier. |
| HistoricalData.DailyRows | FE/src/data/historicalData.ts:55-67 | There is one row per UV sample. Row `k` is `Ngày k+1`, dated `year-06-DD`. |
| HistoricalData.DailyDateValidIff | FE/src/data/historicalData.ts:65 | A daily row names a real June day exactly for the first 30 samples. |
| HistoricalData.FourDigits | FE/src/data/historicalData.ts:43 | A year from 1000 on is written with at least four digits. |
| HistoricalData.DateTextIsIso | FE/src/data/historicalData.ts:43-65 | For a four-digit year, the stored text is the ISO form of the row's date. |
| YearlyData.Numbers | FE/src/data/yearlyData.ts:93-105 | A station's array is carried over entry for entry. |
| YearlyData.UnknownStationIsNull | FE/src/data/yearlyData.ts:83-84 | The result is null exactly for an id that no station has. |
| YearlyData.KnownStationChart | FE/src/data/yearlyData.ts:82-111 | A known id gives the first matching station's chart: labels Jan..Dec, then datasets UV Index, PM2.5, PM1.0 with its arrays unchanged. |
| YearlyData.AverageChartShape | FE/src/data/yearlyData.ts:42-79 | The average chart has labels Jan..Dec and three datasets of twelve entries each. Entry `m` of the UV Index, PM2.5 and PM1.0 datasets is month `m`'s average of `uv`, `pm25` and `pm1_0` respectively. |
| YearlyData.MonthSumBounds | FE/src/data/yearlyData.ts:51-69 | When every station has a month value in [lo, hi], the sum is a number between `lo·n` and `hi·n`. |
| YearlyData.MonthAverageBounds | FE/src/data/yearlyData.ts:51-70 | The average of values in [lo, hi] lies in [lo, hi]. |
| YearlyData.ShippedDataIsComplete | FE/src/data/yearlyData.ts:12-39 | Every shipped station has twelve values per indicator, and no entry of the shipped average chart is NaN. |
| YearlyData.ShippedValuesBounded | FE/src/data/yearlyData.ts:12-39 | Every shipped reading lies in [0, 100], so each month's average of an indicator is a number in [0, 100]. |

## Left out

**Rendering and browser effects**

- JSX markup, Tailwind classes and layout: only the class choices that encode
  thresholds are modelled.
- Chart.js, Leaflet and the icon markup of `MapComponent`.
- The XLSX workbook, its column widths, sheet name and file name. Only the
  export rows are modelled.
- Statistics cards of the reports page (`getStatistics`): floating-point
  averages formatted with `toFixed`.
- Timers and `await` delays: each handler runs to completion at once. In the
  change-password dialog, the second timer calls the parent's `onClose` and is
  left out.

**Values the source gets from the environment**

- `Date.now()`, `Math.random()`, `new Date()` and `new Date().toISOString()`
  are parameters, as are the answers to `window.confirm`.
- `alert` is returned as an optional message.
- `console` output is left out.

**Locale, time zone and date parsing**

- `toLocaleDateString('vi-VN')`: the locale display is kept as the date
  itself.
- The UTC shift of `toISOString()` in `handleDateSelect`: the emitted string
  is the local date.
- Parsing a date string with `new Date(text)`: period rows and the reports
  page's dates are held as parsed (year, month, day) values. An empty date
  string is `None`, and an unparsable one is not modelled.

**JavaScript strings and numbers**

- `parseFloat` is a parameter already parsed: `None` is `NaN`.
- `toLowerCase` is modelled for ASCII letters only.
- Number formatting is modelled for integers only.
- The JSON form of a user kept in storage is an opaque value. A plain text
  where a user is expected reads as unparsable (`null`). A serialised user
  where a token is expected is not read as a token.
- The `try/catch` around storage access is left out: exceptions thrown by the
  browser's storage are not modelled.
- HistoricalData.Jittered: the readings are not rounded with `toFixed(1)`, so
  the model keeps the exact product.
- YearlyData.MonthAverage: the average is not rounded with `toFixed(1)`.

**Data**

- The mock station and user lists (`mockStations`, `mockUsers`) and
  `chartSampleData` are parameters of the pages and functions that use them.
  `chartSampleData` is not part of this model.
- `MOCK_USERS` is a map with the one account. Inherited property names of the
  JavaScript record behave like unknown names.

**Source the model deviates from or reads differently**

- `src/types/auth` is not part of this model. The types of
  `FE/src/types/auth.ts` are used; they declare the same keys and records.
- AccountTable.Table.HandleSave: a save without an account being edited
  returns before `setModalOpen(false)`, so the dialog does not close. The same
  holds for BasicTableOne.Table.HandleUpdate. The code is followed here, not a
  reading in which save always closes.
- AuthService.SessionLoginRestores: it requires that local storage holds no
  user or token of an earlier remembered login. A session login does not
  clear those, and a restart reads them first.

**Other**

- DataTable.Table.Prev: it requires the pagination controls to be shown, as
  the button only exists then. The same holds for DataTable.Table.Next,
  DataTable.Table.GoToPage and DataTable.Table.ChangePageSize.
- The export button and the loading view of `DataTable` are markup only and
  are left out.

## Findings

| source | as written | input that shows it | evidently intended | confidence | as-written member | corrected member |
|---|---|---|---|---|---|---|
| src/Pages/UserManagement.tsx:16-23 | `handleOpenManagementModal` sets the selected user and then sets it back to `null`. The dialog needs a selection, so it never shows, and `handleUpdateManagementUser` does nothing. | Open the management dialog for any user, then save any role and status. | Keep the selected user, so the dialog shows and the save rewrites that user's role and status. | not executed | UserManagement.ManagementEditAsWritten | UserManagement.ManagementEditCorrected |
