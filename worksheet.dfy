/**
 * The report worksheet (GenerateExcel): a grid of cells in columns A..H, a fixed header
 * in row 1 and one row per record from row 2 on.
 */
module Worksheets {
  import opened UserRecords
  import RolesCell

  datatype Column = A | B | C | D | E | F | G | H

  /** A cell address such as "C7": its column and its 1-based row. */
  datatype CellRef = CellRef(col: Column, row: nat)

  /** What a cell holds: a string, or a native boolean. */
  datatype CellValue = Text(text: string) | Flag(flag: bool)

  type Grid = map<CellRef, CellValue>

  const HeaderRowIndex: nat := 1
  const FirstDataRow: nat := 2

  /** The fixed column labels of row 1. */
  function HeaderLabel(col: Column): string
  {
    match col
    case A => "Name"
    case B => "Email"
    case C => "Login"
    case D => "Domain"
    case E => "Description"
    case F => "State"
    case G => "IsAdministrator"
    case H => "Roles"
  }

  /** The value a record puts in a column; only IsAdministrator (G) is a boolean cell. */
  function FieldValue(d: UserData, col: Column): (v: CellValue)
    ensures v.Flag? <==> col == G
    ensures col == G ==> v == Flag(d.isAdministrator)
    ensures col == H ==> v == Text(RolesCell.Join(d.roles))
  {
    match col
    case A => Text(d.name)
    case B => Text(d.email)
    case C => Text(d.login)
    case D => Text(d.domainName)
    case E => Text(d.description)
    case F => Text(d.state)
    case G => Flag(d.isAdministrator)
    case H => Text(RolesCell.Join(d.roles))
  }

  /** The grid after the eight assignments A..H of one row, made in that order. */
  function WriteRow(cells: Grid, row: nat, value: Column -> CellValue): Grid
  {
    cells[CellRef(A, row) := value(A)][CellRef(B, row) := value(B)]
         [CellRef(C, row) := value(C)][CellRef(D, row) := value(D)]
         [CellRef(E, row) := value(E)][CellRef(F, row) := value(F)]
         [CellRef(G, row) := value(G)][CellRef(H, row) := value(H)]
  }

  /** Writing a row fills all eight cells of that row and leaves every other cell as it was. */
  lemma WriteRowCell(cells: Grid, row: nat, value: Column -> CellValue, c: CellRef)
    ensures c in WriteRow(cells, row, value) <==> c in cells || c.row == row
    ensures c in WriteRow(cells, row, value) ==>
      WriteRow(cells, row, value)[c] == if c.row == row then value(c.col) else cells[c]
  {
    if c.row == row {
      match c.col
      case A => assert c == CellRef(A, row);
      case B => assert c == CellRef(B, row);
      case C => assert c == CellRef(C, row);
      case D => assert c == CellRef(D, row);
      case E => assert c == CellRef(E, row);
      case F => assert c == CellRef(F, row);
      case G => assert c == CellRef(G, row);
      case H => assert c == CellRef(H, row);
    }
  }

  function HeaderValue(col: Column): CellValue
  {
    Text(HeaderLabel(col))
  }

  /** The grid after writing the header and then the records one row at a time. */
  function ReportSheet(records: seq<UserData>): Grid
  {
    if records == [] then WriteRow(map[], HeaderRowIndex, HeaderValue)
    else
      var last := records[|records| - 1];
      WriteRow(ReportSheet(records[..|records| - 1]), |records| + 1, col => FieldValue(last, col))
  }

  /** The report holds exactly rows 1 .. N+1: the header in row 1 and record j in row j + 2,
   *  every row filled in all eight columns and no gaps. */
  lemma {:induction false} ReportSheetLayout(records: seq<UserData>)
    ensures forall c :: c in ReportSheet(records) <==> 1 <= c.row <= |records| + 1
    ensures forall c :: c in ReportSheet(records) && c.row == 1 ==>
      ReportSheet(records)[c] == Text(HeaderLabel(c.col))
    ensures forall c :: c in ReportSheet(records) && c.row >= 2 ==>
      ReportSheet(records)[c] == FieldValue(records[c.row - 2], c.col)
  {
    var n := |records|;
    if n == 0 {
      forall c: CellRef {
        WriteRowCell(map[], HeaderRowIndex, HeaderValue, c);
      }
    } else {
      var prefix, last := records[..n - 1], records[n - 1];
      ReportSheetLayout(prefix);
      forall c: CellRef
        ensures c in ReportSheet(records) <==> 1 <= c.row <= n + 1
        ensures c in ReportSheet(records) && c.row == 1 ==>
          ReportSheet(records)[c] == Text(HeaderLabel(c.col))
        ensures c in ReportSheet(records) && c.row >= 2 ==>
          ReportSheet(records)[c] == FieldValue(records[c.row - 2], c.col)
      {
        WriteRowCell(ReportSheet(prefix), n + 1, col => FieldValue(last, col), c);
        if 2 <= c.row <= n {
          assert prefix[c.row - 2] == records[c.row - 2];
        }
      }
    }
  }

  /** Two users of domain "extranet": one editor and author, one administrator with no roles
   *  and no email. Their rows are 2 and 3, the flag is a boolean cell and the roles are
   *  joined in order. */
  lemma ExtranetReport()
    ensures
      var jane := User("Jane Doe", "jane@x.com", "jdoe", "extranet", "", "", false,
                       [Role("Editor"), Role("Author")]);
      var admin := User("Admin", "", "admin", "extranet", "", "", true, []);
      var sheet := ReportSheet(UserDatas([jane, admin]));
      && (forall c :: c in sheet <==> 1 <= c.row <= 3)
      && sheet[CellRef(A, 2)] == Text("Jane Doe") && sheet[CellRef(C, 2)] == Text("jdoe")
      && sheet[CellRef(G, 2)] == Flag(false) && sheet[CellRef(H, 2)] == Text("Editor;Author")
      && sheet[CellRef(A, 3)] == Text("Admin") && sheet[CellRef(B, 3)] == Text("")
      && sheet[CellRef(G, 3)] == Flag(true) && sheet[CellRef(H, 3)] == Text("")
  {
    var jane := User("Jane Doe", "jane@x.com", "jdoe", "extranet", "", "", false,
                     [Role("Editor"), Role("Author")]);
    var admin := User("Admin", "", "admin", "extranet", "", "", true, []);
    var records := UserDatas([jane, admin]);
    assert RoleNames(jane.roles) == RoleNames([Role("Editor")]) + ["Author"];
    assert records[0] == UserData("Jane Doe", "jane@x.com", "jdoe", "extranet", "", "", false,
                                  ["Editor", "Author"]);
    assert records[1] == UserData("Admin", "", "admin", "extranet", "", "", true, []);
    assert RolesCell.Join(["Editor", "Author"]) == "Editor;Author";
    ReportSheetLayout(records);
  }

  /** A worksheet of a workbook: its name and the cells written so far. */
  class Worksheet {
    var name: string
    var cells: Grid

    /** The first sheet of a new workbook: no cell written. */
    constructor ()
      ensures name == "Sheet1" && cells == map[]
    {
      name := "Sheet1";
      cells := map[];
    }

    /** Assigning worksheet.Cells[ref].Value. */
    method SetValue(ref: CellRef, v: CellValue)
      modifies this
      ensures cells == old(cells)[ref := v]
      ensures name == old(name)
    {
      cells := cells[ref := v];
    }
  }

  /** Builds the "Users" sheet for the records: the header, then one row per record. */
  method GenerateExcel(userdatas: seq<UserData>) returns (worksheet: Worksheet)
    ensures fresh(worksheet)
    ensures worksheet.name == "Users"
    ensures worksheet.cells == ReportSheet(userdatas)
  {
    worksheet := new Worksheet();
    worksheet.name := "Users";
    worksheet.SetValue(CellRef(A, 1), Text("Name"));
    worksheet.SetValue(CellRef(B, 1), Text("Email"));
    worksheet.SetValue(CellRef(C, 1), Text("Login"));
    worksheet.SetValue(CellRef(D, 1), Text("Domain"));
    worksheet.SetValue(CellRef(E, 1), Text("Description"));
    worksheet.SetValue(CellRef(F, 1), Text("State"));
    worksheet.SetValue(CellRef(G, 1), Text("IsAdministrator"));
    worksheet.SetValue(CellRef(H, 1), Text("Roles"));
    assert worksheet.cells == ReportSheet([]);

    var i := FirstDataRow;
    for k := 0 to |userdatas|
      invariant i == k + 2
      invariant worksheet.name == "Users"
      invariant worksheet.cells == ReportSheet(userdatas[..k])
    {
      var userData := userdatas[k];
      ghost var before := worksheet.cells;
      worksheet.SetValue(CellRef(A, i), Text(userData.name));
      worksheet.SetValue(CellRef(B, i), Text(userData.email));
      worksheet.SetValue(CellRef(C, i), Text(userData.login));
      worksheet.SetValue(CellRef(D, i), Text(userData.domainName));
      worksheet.SetValue(CellRef(E, i), Text(userData.description));
      worksheet.SetValue(CellRef(F, i), Text(userData.state));
      worksheet.SetValue(CellRef(G, i), Flag(userData.isAdministrator));
      worksheet.SetValue(CellRef(H, i), Text(RolesCell.Join(userData.roles)));
      assert worksheet.cells == WriteRow(before, i, col => FieldValue(userData, col));
      assert userdatas[..k + 1][..k] == userdatas[..k];
      i := i + 1;
    }
    assert userdatas[..|userdatas|] == userdatas;
  }
}
