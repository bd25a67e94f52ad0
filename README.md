# Export of a domain's users and roles — Dafny model

This project models the "export users and roles" command of a Sitecore shell extension
(`ExportUsersRolesCommand.cs`). Given a domain name, the command resolves the domain,
collects one record per user account (profile fields, the administrator flag and the role
names), writes them to a one-sheet spreadsheet with a fixed eight-column header, saves it
in the reports folder under a time-stamped name and offers it for download. A missing
domain name, an unknown domain and an empty domain each end in an alert. An exception in
the collection or the save is logged and rethrown.

Modules, one per part of the command:

- `UserRecords` (`user_data.dfy`): the directory user, the exported `UserData` record and the
  field-by-field mapping, with the loop that appends each role's local name.
- `RolesCell` (`roles_cell.dfy`): the Roles cell, which is the role names joined with `;`,
  and a splitter that reads such a cell back.
- `ReportNames` (`report_name.dfy`): the UTC timestamp as integer fields, the
  `yyyy-MM-dd-hh-mm` stamp (with `hh` on a 12-hour clock) and the report file name.
- `Worksheets` (`worksheet.dfy`): the worksheet as a class whose cell map is updated in
  place, the header and row-filling loop (`GenerateExcel`), and the layout the finished grid has.
- `ExportCommand` (`export_command.dfy`): `Execute`, which picks one outcome and performs that
  branch's effects on the host state. The host state is whether the reports folder exists,
  the saved files by name, and the error log.

Collaborators with no visible semantics become inputs:
- Domain resolution and user enumeration are a map from domain name to the enumeration's
  result (the users, or the exception raised).
- The current UTC time is a `Timestamp` parameter.
- The data folder is a string parameter.
- The exceptions that creating the folder or saving the workbook may raise are
  `Option<Fault>` parameters.

Behaviour of the code that is easy to miss:
- The code creates the reports folder right after the domain resolves. This happens before
  any user is collected, so the folder also exists after the "no user accounts" alert.
- An exception from creating the folder is raised outside the `try` block, so it is not
  logged (`Outcome.Uncaught`). Only exceptions inside the `try` are logged and rethrown
  (`Outcome.Rethrown`).
- The code never reads the Roles cell back, and the cell does not always determine the
  roles. Splitting it on `;` returns the role names only when there is at least one role
  and no name contains `;`. An empty role list gives `""`, which splits to `[""]`, not `[]`
  (`RolesCell.EmptyCellAmbiguous`).

## Model

| member | source | states |
|---|---|---|
| `UserRecords.RoleNames` | ExportUsersRolesCommand.cs:164-167 | the role names appended one per role, in enumeration order; their count equals the number of roles (element-wise content in `RoleNamesAt`) |
| `UserRecords.RoleNamesAt` | ExportUsersRolesCommand.cs:164-167 | the collected role names have one entry per role, and entry k is role k's local name: same order, duplicates kept |
| `UserRecords.ToUserData` | ExportUsersRolesCommand.cs:151-168 | the record copies FullName, Email, LocalName (login), domain name, Description, State and IsAdministrator; its Roles has the same length as the user's roles, element k being role k's LocalName |
| `UserRecords.NewUserData` | ExportUsersRolesCommand.cs:151-168 | the constructor's loop, which appends one role name per iteration, builds exactly the record `ToUserData` describes |
| `UserRecords.UserDatas` | ExportUsersRolesCommand.cs:64 | the domain's records are one per user, in enumeration order, record j mapped from user j |
| `UserRecords.CollectUserDatas` | ExportUsersRolesCommand.cs:64 | materialising `Select(new UserData(user)).ToList()` gives exactly those records |
| `RolesCell.Join` | ExportUsersRolesCommand.cs:124 | the Roles cell: "" for no roles; otherwise its length is the names' total length plus one separator between each pair, and it starts with the first name |
| `RolesCell.SplitJoin` | ExportUsersRolesCommand.cs:124 | for one or more role names with no `;` in any of them, splitting the joined cell on `;` gives back the names in order |
| `RolesCell.EmptyCellAmbiguous` | ExportUsersRolesCommand.cs:124 | no roles and one empty role name both give the empty cell; splitting it gives one empty part |
| `ReportNames.Hour12` | ExportUsersRolesCommand.cs:59 | the `hh` hour lies in 1..12 and agrees with the 24-hour hour modulo 12 |
| `ReportNames.FormatStamp` | ExportUsersRolesCommand.cs:59 | the stamp has 16 characters, `-` at positions 4, 7, 10 and 13, and decimal digits everywhere else |
| `ReportNames.StampFields` | ExportUsersRolesCommand.cs:59 | the year, month, day, 12-hour hour and minute can be read back from the stamp's digit groups |
| `ReportNames.ReportFileName` | ExportUsersRolesCommand.cs:58-59 | the name is `UserReport-`, the domain name, `-`, the 16-character stamp and `.xlsx`, in that order (33 characters longer than the domain name) |
| `ReportNames.ReportFileNameCollision` | ExportUsersRolesCommand.cs:58-59 | two reports get the same file name if and only if they have the same domain, date and minute and the same hour modulo 12; seconds never matter |
| `ReportNames.HalfDayCollision` | ExportUsersRolesCommand.cs:59 | an export at hour h and one at hour h + 12 of the same day and minute get the same name |
| `Worksheets.HeaderLabel` | ExportUsersRolesCommand.cs:95-109 | the label of each column A..H: Name, Email, Login, Domain, Description, State, IsAdministrator, Roles; defined by its body, and the header row built from it is fixed by `ReportSheetLayout` |
| `Worksheets.ReportSheet` | ExportUsersRolesCommand.cs:95-126 | the grid after the header writes and N row writes, each row written after the previous ones; its closed form is `ReportSheetLayout` and `GenerateExcel` is proved to produce it |
| `Worksheets.FieldValue` | ExportUsersRolesCommand.cs:117-124 | only column G (IsAdministrator) holds a boolean cell, the record's flag; column H holds the roles joined with `;` |
| `Worksheets.WriteRowCell` | ExportUsersRolesCommand.cs:117-124 | the eight assignments of a row fill exactly that row's cells A..H and leave every other cell unchanged |
| `Worksheets.ReportSheetLayout` | ExportUsersRolesCommand.cs:95-126 | for N records, the cells written are exactly those of rows 1..N+1 in all columns A..H. Row 1 holds the labels Name, Email, Login, Domain, Description, State, IsAdministrator, Roles. Row j+2 holds record j's field values |
| `Worksheets.ExtranetReport` | ExportUsersRolesCommand.cs:113-126 | two users of "extranet" fill rows 2 and 3 only. Their cells are as expected: "Editor;Author" for two roles, the empty string for no roles or no email, and the administrator flag as a bool |
| `Worksheets.Worksheet.constructor` | ExportUsersRolesCommand.cs:91-92 | the first sheet of a new workbook has no cell written |
| `Worksheets.Worksheet.SetValue` | ExportUsersRolesCommand.cs:95-124 | assigning a cell's value replaces that one cell and nothing else |
| `Worksheets.GenerateExcel` | ExportUsersRolesCommand.cs:89-129 | the sheet is named "Users", and its cells after the header and the row loop are exactly the report grid of the records |
| `ExportCommand.AlertText` | ExportUsersRolesCommand.cs:30-69 | its contract states that exactly the three alert outcomes carry a text; the texts themselves ("Please select a domain first.", "Domain name '…' could not be resolved", "Domain name '…' contains no user accounts.") are given by its body |
| `ExportCommand.NoDomainGiven` | ExportUsersRolesCommand.cs:30-31 | no domain is given when the "domainname" parameter is absent (null) or empty, as `string.IsNullOrEmpty` decides; defined by its body |
| `ExportCommand.ReportFolder` | ExportUsersRolesCommand.cs:42 | the reports folder is the data folder followed by "/reports"; defined by its body |
| `ExportCommand.DownloadPath` | ExportUsersRolesCommand.cs:79 | the download path is the reports folder, "/" and the file name; defined by its body |
| `ExportCommand.ReportHost.CreateFolderIfMissing` | ExportUsersRolesCommand.cs:44-51 | the folder is created only when it is missing; a failure to create it is returned and leaves it missing |
| `ExportCommand.ReportHost.SaveAs` | ExportUsersRolesCommand.cs:128 | saving writes the workbook under its file name in the reports folder, overwriting a file of the same name |
| `ExportCommand.ReportHost.LogError` | ExportUsersRolesCommand.cs:83 | logging an error appends it to the error log once |
| `ExportCommand.Execute` | ExportUsersRolesCommand.cs:27-87 | exactly one outcome per call. No name gives only the first alert, and no name that fails to resolve touches the folder. A folder-creation failure escapes unlogged. An enumeration failure is logged once and rethrown with nothing saved. An empty domain gives the third alert with the folder created and nothing saved. A save failure is logged and rethrown. Otherwise the "Users" report grid is saved as `UserReport-{name}-{stamp}.xlsx` and `{dataFolder}/reports/{file}` is downloaded |

## Left out

- Sitecore's domain lookup, user enumeration, profile and role objects, and `GetDomainName`
  are foreign calls. They are inputs: a map from domain name to the users or the exception.
  The user and role attributes are plain fields.
- `Settings.DataFolder` is a parameter. `FileUtil.MapPath` and `Path.Combine` are not
  modelled: the saved file is identified by its name inside the reports folder.
- `DateTime.Now.ToUniversalTime()` is not modelled. The UTC time is a parameter. The .NET
  formatter is replaced by fixed-width decimal padding of the Gregorian year, month and day.
- `SheerResponse.Alert` and `SheerResponse.Download` are not performed. They are outcome
  tags, with the alert text and the download path.
- `Log.Info` and `Log.Audit` are left out, because they only write audit text. `Log.Error`
  is an append to the error log.
- SpreadsheetGear is reduced to the cell grid and the sheet name. Bold header fonts, the
  workbook object and the OpenXML serialisation by `SaveAs` are not modelled. A failing
  save leaves no file in the model; a partially written file is not modelled.
- Exceptions are modelled only where the code can raise them: enumerating users and reading
  each user (one fault for the whole collection), creating the folder, and saving. Other
  possible exceptions, such as a null profile or a failing lookup, are not separate cases.
- ReportNames.FormatStamp: assumes the current culture uses the Gregorian calendar. The
  stamp is formatted with the current culture, whose calendar decides what `yyyy`, `MM`
  and `dd` print: under a Thai Buddhist calendar the year is 543 higher, and under a Hijri
  or UmAlQura calendar all three fields differ.
- Worksheets.GenerateExcel: has no row limit. A worksheet holds at most 1,048,576 rows, so
  a domain with more than 1,048,575 users would address a row that does not exist, most
  likely raising inside the `try` (logged and rethrown, no download). The model writes every
  row, and `ExportCommand.Execute` ends in a download for any number of users.
- .NET strings may be null. The model has no null strings: an absent field is the empty
  string.
- The `UserData` fields `Password` and `RawLine` and its parameterless constructor are not
  modelled, because the export never reads them.
- Concurrent exports writing the same file are not modelled; the model has a single host
  state. Saving overwrites a file of the same name (`ReportHost.SaveAs`).
