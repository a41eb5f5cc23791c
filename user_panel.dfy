/**
 * The view page (user_panel.py): the story of flowables `generate_pdf_bytes`
 * hands to the PDF library, and the decisions of `view_employee_page`.
 */
module UserPanel {
  import opened Records

  /** The two sample-sheet styles the story uses. */
  datatype Style = TitleStyle | Heading3

  /** The PDF library's flowables, reduced to what the layout says. */
  datatype Flowable =
    | Paragraph(markup: string, style: Style)
    | Spacer(width: nat, height: nat)
    | Table(rows: seq<seq<string>>)

  /** How one table cell is made from the record. */
  datatype Cell =
    | Labelled(prefix: string, column: Column)  // f"{prefix}{emp.get(column, '')}", the prefix being "Label: "
    | Bare(column: Column)                     // emp.get(column, "")
    | Blank                                    // ""

  /** One call of `section`: its title and the cells of its rows. */
  datatype SectionLayout = SectionLayout(title: string, rows: seq<seq<Cell>>)

  /** The first section: who the employee is. */
  const EmployeeInformation: SectionLayout := SectionLayout("Employee Information", [
    [Labelled("Name: ", Name), Labelled("Shift: ", Shift)],
    [Labelled("Department: ", DeptName), Labelled("Position: ", Position)],
    [Labelled("Qualification: ", Qualification), Labelled("Other Post: ", OtherPost)]])

  /** The second section: the three dates. */
  const EmploymentDates: SectionLayout := SectionLayout("Employment Dates", [
    [Labelled("Date of Birth: ", DateOfBirth), Labelled("Joining Date: ", DateOfJoin)],
    [Labelled("Appointment Date: ", DateOfAppoint), Blank]])

  /** The third section: contact details and government numbers. */
  const ContactDetails: SectionLayout := SectionLayout("Contact & Government Details", [
    [Labelled("Mobile: ", MobileNum), Labelled("Email: ", EmailId)],
    [Labelled("Aadhar: ", AadharNum), Labelled("PAN: ", PanNum)],
    [Labelled("UAN / PF: ", UanPf), Blank]])

  /** The last section: the approval status, without a label. */
  const ApprovalSection: SectionLayout := SectionLayout("University Approval", [
    [Bare(UniversityApproval), Blank]])

  /** The four sections of the document, in order. */
  const Layout: seq<SectionLayout> := [EmployeeInformation, EmploymentDates, ContactDetails, ApprovalSection]

  const DocumentTitle: Flowable := Paragraph("<b>Staff Management</b>", TitleStyle)

  /** The text of a cell for the record `emp`; a missing column reads as "". */
  function Render(emp: Record, c: Cell): string {
    match c
    case Labelled(prefix, column) => prefix + Get(emp, column, "")
    case Bare(column) => Get(emp, column, "")
    case Blank => ""
  }

  /** The texts of a row of cells. */
  function RenderRow(emp: Record, row: seq<Cell>): (texts: seq<string>)
    ensures |texts| == |row|
    ensures forall j :: 0 <= j < |row| ==> texts[j] == Render(emp, row[j])
  {
    if row == [] then [] else [Render(emp, row[0])] + RenderRow(emp, row[1..])
  }

  /** The texts of a table's rows, as the list of lists passed to Table. */
  function RenderRows(emp: Record, rows: seq<seq<Cell>>): (table: seq<seq<string>>)
    ensures |table| == |rows|
    ensures forall i :: 0 <= i < |rows| ==> table[i] == RenderRow(emp, rows[i])
  {
    if rows == [] then [] else [RenderRow(emp, rows[0])] + RenderRows(emp, rows[1..])
  }

  /** What one call of `section` appends. */
  function SectionFlowables(title: string, rows: seq<seq<string>>): seq<Flowable> {
    [Spacer(1, 10), Paragraph("<b>" + title + "</b>", Heading3), Spacer(1, 6), Table(rows)]
  }

  /** The flowables of the sections of `layout`, in order. */
  function Sections(emp: Record, layout: seq<SectionLayout>): (story: seq<Flowable>)
    ensures |story| == 4 * |layout|
    decreases |layout|
  {
    if layout == [] then []
    else SectionFlowables(layout[0].title, RenderRows(emp, layout[0].rows)) + Sections(emp, layout[1..])
  }

  /** The story for `emp`: the title, a spacer, then the four sections of Layout. */
  function Story(emp: Record): seq<Flowable> {
    [DocumentTitle, Spacer(1, 10)] + Sections(emp, Layout)
  }

  /** A row of two cells renders as the list of their two texts. */
  lemma RowOfTwo(emp: Record, a: Cell, b: Cell)
    ensures RenderRow(emp, [a, b]) == [Render(emp, a), Render(emp, b)]
  {
  }

  /** Rows render one by one. */
  lemma RowsOfThree(emp: Record, r0: seq<Cell>, r1: seq<Cell>, r2: seq<Cell>)
    ensures RenderRows(emp, [r0, r1, r2]) == [RenderRow(emp, r0), RenderRow(emp, r1), RenderRow(emp, r2)]
  {
  }

  /** Every row of the layout has two cells and renders as the pair of their texts. */
  lemma LayoutRowsArePairs(emp: Record)
    ensures forall i, r :: 0 <= i < |Layout| && 0 <= r < |Layout[i].rows| ==>
      |Layout[i].rows[r]| == 2 &&
      RenderRow(emp, Layout[i].rows[r]) == [Render(emp, Layout[i].rows[r][0]), Render(emp, Layout[i].rows[r][1])]
  {
    forall i, r | 0 <= i < |Layout| && 0 <= r < |Layout[i].rows|
      ensures |Layout[i].rows[r]| == 2
      ensures RenderRow(emp, Layout[i].rows[r]) == [Render(emp, Layout[i].rows[r][0]), Render(emp, Layout[i].rows[r][1])]
    {
      var row := Layout[i].rows[r];
      assert row == [row[0], row[1]];
      RowOfTwo(emp, row[0], row[1]);
    }
  }

  /** Four sections contribute their flowables one after another. */
  lemma SectionsOfFour(emp: Record, a: SectionLayout, b: SectionLayout, c: SectionLayout, d: SectionLayout)
    ensures Sections(emp, [a, b, c, d]) ==
      SectionFlowables(a.title, RenderRows(emp, a.rows)) + SectionFlowables(b.title, RenderRows(emp, b.rows)) +
      SectionFlowables(c.title, RenderRows(emp, c.rows)) + SectionFlowables(d.title, RenderRows(emp, d.rows))
  {
    var fa, fb := SectionFlowables(a.title, RenderRows(emp, a.rows)), SectionFlowables(b.title, RenderRows(emp, b.rows));
    var fc, fd := SectionFlowables(c.title, RenderRows(emp, c.rows)), SectionFlowables(d.title, RenderRows(emp, d.rows));
    assert [a, b, c, d][1..] == [b, c, d];
    assert [b, c, d][1..] == [c, d];
    assert [c, d][1..] == [d];
    assert Sections(emp, [d]) == fd + Sections(emp, []) == fd;
    assert Sections(emp, [c, d]) == fc + fd;
    assert Sections(emp, [b, c, d]) == fb + (fc + fd);
    assert fa + (fb + (fc + fd)) == fa + fb + fc + fd;
  }

  /** The table of the first section, as the list of f-strings the source writes. */
  lemma EmployeeInformationTable(emp: Record)
    ensures RenderRows(emp, EmployeeInformation.rows) == [
      ["Name: " + Get(emp, Name, ""), "Shift: " + Get(emp, Shift, "")],
      ["Department: " + Get(emp, DeptName, ""), "Position: " + Get(emp, Position, "")],
      ["Qualification: " + Get(emp, Qualification, ""), "Other Post: " + Get(emp, OtherPost, "")]]
  {
    var s := EmployeeInformation.rows;
    RowsOfThree(emp, s[0], s[1], s[2]);
    RowOfTwo(emp, s[0][0], s[0][1]);
    RowOfTwo(emp, s[1][0], s[1][1]);
    RowOfTwo(emp, s[2][0], s[2][1]);
  }

  /** The table of the dates section. */
  lemma EmploymentDatesTable(emp: Record)
    ensures RenderRows(emp, EmploymentDates.rows) == [
      ["Date of Birth: " + Get(emp, DateOfBirth, ""), "Joining Date: " + Get(emp, DateOfJoin, "")],
      ["Appointment Date: " + Get(emp, DateOfAppoint, ""), ""]]
  {
    var s := EmploymentDates.rows;
    assert s[1..] == [s[1]];
    RowOfTwo(emp, s[0][0], s[0][1]);
    RowOfTwo(emp, s[1][0], s[1][1]);
  }

  /** The table of the contact section. */
  lemma ContactDetailsTable(emp: Record)
    ensures RenderRows(emp, ContactDetails.rows) == [
      ["Mobile: " + Get(emp, MobileNum, ""), "Email: " + Get(emp, EmailId, "")],
      ["Aadhar: " + Get(emp, AadharNum, ""), "PAN: " + Get(emp, PanNum, "")],
      ["UAN / PF: " + Get(emp, UanPf, ""), ""]]
  {
    var s := ContactDetails.rows;
    RowsOfThree(emp, s[0], s[1], s[2]);
    RowOfTwo(emp, s[0][0], s[0][1]);
    RowOfTwo(emp, s[1][0], s[1][1]);
    RowOfTwo(emp, s[2][0], s[2][1]);
  }

  /** The table of the approval section: the bare value and an empty cell. */
  lemma ApprovalTable(emp: Record)
    ensures RenderRows(emp, ApprovalSection.rows) == [[Get(emp, UniversityApproval, ""), ""]]
  {
    var s := ApprovalSection.rows;
    RowOfTwo(emp, s[0][0], s[0][1]);
  }

  /** The `story` list, appended to in place. */
  class StoryBuilder {
    var story: seq<Flowable>

    constructor ()
      ensures story == []
    {
      story := [];
    }

    method Append(f: Flowable)
      modifies this
      ensures story == old(story) + [f]
    {
      story := story + [f];
    }

    /** The nested `section` helper. */
    method Section(title: string, rows: seq<seq<string>>)
      modifies this
      ensures story == old(story) + SectionFlowables(title, rows)
    {
      Append(Spacer(1, 10));
      Append(Paragraph("<b>" + title + "</b>", Heading3));
      Append(Spacer(1, 6));
      Append(Table(rows));
    }
  }

  /** The story `generate_pdf_bytes` builds before handing it to the PDF library. */
  method GeneratePdfStory(emp: Record) returns (story: seq<Flowable>)
    ensures story == Story(emp)
  {
    var b := new StoryBuilder();
    b.Append(Paragraph("<b>Staff Management</b>", TitleStyle));
    b.Append(Spacer(1, 10));
    b.Section("Employee Information", [
      ["Name: " + Get(emp, Name, ""), "Shift: " + Get(emp, Shift, "")],
      ["Department: " + Get(emp, DeptName, ""), "Position: " + Get(emp, Position, "")],
      ["Qualification: " + Get(emp, Qualification, ""), "Other Post: " + Get(emp, OtherPost, "")]]);
    b.Section("Employment Dates", [
      ["Date of Birth: " + Get(emp, DateOfBirth, ""), "Joining Date: " + Get(emp, DateOfJoin, "")],
      ["Appointment Date: " + Get(emp, DateOfAppoint, ""), ""]]);
    b.Section("Contact & Government Details", [
      ["Mobile: " + Get(emp, MobileNum, ""), "Email: " + Get(emp, EmailId, "")],
      ["Aadhar: " + Get(emp, AadharNum, ""), "PAN: " + Get(emp, PanNum, "")],
      ["UAN / PF: " + Get(emp, UanPf, ""), ""]]);
    b.Section("University Approval", [
      [Get(emp, UniversityApproval, ""), ""]]);
    story := b.story;
    SectionsOfFour(emp, EmployeeInformation, EmploymentDates, ContactDetails, ApprovalSection);
    EmployeeInformationTable(emp);
    EmploymentDatesTable(emp);
    ContactDetailsTable(emp);
    ApprovalTable(emp);
  }

  /** The section titles, in the order the sections are appended. */
  const SectionTitles: seq<string> := [
    "Employee Information", "Employment Dates", "Contact & Government Details", "University Approval"
  ]

  /** Four flowables in front shift every later block of four by one. */
  lemma BlockOfTail(head: seq<Flowable>, tail: seq<Flowable>, i: nat)
    requires |head| == 4 && 0 < i && 4 * i <= |tail|
    ensures (head + tail)[4 * i .. 4 * i + 4] == tail[4 * (i - 1) .. 4 * (i - 1) + 4]
  {
  }

  /** Each section contributes four flowables, in the order of its layout. */
  lemma {:induction false} SectionsAt(emp: Record, layout: seq<SectionLayout>, i: nat)
    requires i < |layout|
    ensures Sections(emp, layout)[4 * i .. 4 * i + 4] == SectionFlowables(layout[i].title, RenderRows(emp, layout[i].rows))
    decreases |layout|
  {
    var head := SectionFlowables(layout[0].title, RenderRows(emp, layout[0].rows));
    var tail := Sections(emp, layout[1..]);
    assert Sections(emp, layout) == head + tail;
    if i == 0 {
      assert (head + tail)[..4] == head;
    } else {
      SectionsAt(emp, layout[1..], i - 1);
      assert layout[1..][i - 1] == layout[i];
      BlockOfTail(head, tail, i);
    }
  }

  /**
   * The story is the title paragraph, a spacer, and then for each section in
   * order: a spacer, its heading, a spacer and its table; 18 flowables in all.
   */
  lemma StoryShape(emp: Record, i: nat)
    requires i < 4
    ensures |Story(emp)| == 2 + 4 * 4
    ensures Story(emp)[0] == Paragraph("<b>Staff Management</b>", TitleStyle)
    ensures Story(emp)[1] == Spacer(1, 10)
    ensures Story(emp)[2 + 4 * i] == Spacer(1, 10)
    ensures Story(emp)[3 + 4 * i] == Paragraph("<b>" + SectionTitles[i] + "</b>", Heading3)
    ensures Story(emp)[4 + 4 * i] == Spacer(1, 6)
    ensures Story(emp)[5 + 4 * i] == Table(RenderRows(emp, Layout[i].rows))
  {
    var s := Sections(emp, Layout);
    var f := SectionFlowables(Layout[i].title, RenderRows(emp, Layout[i].rows));
    SectionsAt(emp, Layout, i);
    assert Story(emp) == [DocumentTitle, Spacer(1, 10)] + s;
    StoryBlock([DocumentTitle, Spacer(1, 10)], s, i, f);
    assert f[1] == Paragraph("<b>" + Layout[i].title + "</b>", Heading3);
    assert Layout[i].title == SectionTitles[i];
  }

  /** Block `i` of `s`, seen after a two-flowable head. */
  lemma StoryBlock(head: seq<Flowable>, s: seq<Flowable>, i: nat, f: seq<Flowable>)
    requires |head| == 2 && 4 * i + 4 <= |s| && s[4 * i .. 4 * i + 4] == f
    ensures (head + s)[2 + 4 * i] == f[0] && (head + s)[3 + 4 * i] == f[1]
    ensures (head + s)[4 + 4 * i] == f[2] && (head + s)[5 + 4 * i] == f[3]
  {
    assert f[0] == s[4 * i] && f[1] == s[4 * i + 1] && f[2] == s[4 * i + 2] && f[3] == s[4 * i + 3];
  }

  /** Every table row has two cells; the four sections have 3, 2, 3 and 1 rows. */
  lemma TableShapes(emp: Record, i: nat)
    requires i < 4
    ensures Story(emp)[5 + 4 * i].Table?
    ensures |Story(emp)[5 + 4 * i].rows| == [3, 2, 3, 1][i]
    ensures forall row :: row in Story(emp)[5 + 4 * i].rows ==> |row| == 2
  {
    StoryShape(emp, i);
    LayoutRowsArePairs(emp);
  }

  /** The text in row `r`, column `k` of the table of section `i` is that cell's rendering. */
  lemma StoryCell(emp: Record, i: nat, r: nat, k: nat)
    requires i < |Layout| && r < |Layout[i].rows| && k < |Layout[i].rows[r]|
    ensures 5 + 4 * i < |Story(emp)| && Story(emp)[5 + 4 * i].Table?
    ensures r < |Story(emp)[5 + 4 * i].rows| && k < |Story(emp)[5 + 4 * i].rows[r]|
    ensures Story(emp)[5 + 4 * i].rows[r][k] == Render(emp, Layout[i].rows[r][k])
  {
    StoryShape(emp, i);
  }

  /** The columns a row of cells shows, in order (a blank cell shows none). */
  function ColumnsOf(cells: seq<Cell>): seq<Column> {
    if cells == [] then []
    else (if cells[0].Blank? then [] else [cells[0].column]) + ColumnsOf(cells[1..])
  }

  /** The columns a layout shows, section by section and row by row. */
  function ColumnsOfRows(rows: seq<seq<Cell>>): seq<Column> {
    if rows == [] then [] else ColumnsOf(rows[0]) + ColumnsOfRows(rows[1..])
  }

  function ColumnsOfLayout(layout: seq<SectionLayout>): seq<Column> {
    if layout == [] then [] else ColumnsOfRows(layout[0].rows) + ColumnsOfLayout(layout[1..])
  }

  lemma ColumnsOfPair(a: Cell, b: Cell)
    ensures ColumnsOf([a, b]) == (if a.Blank? then [] else [a.column]) + (if b.Blank? then [] else [b.column])
  {
    assert [a, b][1..] == [b];
    assert ColumnsOf([b]) == (if b.Blank? then [] else [b.column]) + ColumnsOf([]);
  }

  lemma ColumnsOfThreeRows(r0: seq<Cell>, r1: seq<Cell>, r2: seq<Cell>)
    ensures ColumnsOfRows([r0, r1, r2]) == ColumnsOf(r0) + ColumnsOf(r1) + ColumnsOf(r2)
  {
    assert [r0, r1, r2][1..] == [r1, r2];
    assert [r1, r2][1..] == [r2];
    assert ColumnsOfRows([r2]) == ColumnsOf(r2) + ColumnsOfRows([]);
  }

  lemma ColumnsOfTwoRows(r0: seq<Cell>, r1: seq<Cell>)
    ensures ColumnsOfRows([r0, r1]) == ColumnsOf(r0) + ColumnsOf(r1)
  {
    assert [r0, r1][1..] == [r1];
    assert ColumnsOfRows([r1]) == ColumnsOf(r1) + ColumnsOfRows([]);
  }

  lemma ColumnsOfFourSections(a: SectionLayout, b: SectionLayout, c: SectionLayout, d: SectionLayout)
    ensures ColumnsOfLayout([a, b, c, d]) == ColumnsOfRows(a.rows) + ColumnsOfRows(b.rows) + ColumnsOfRows(c.rows) + ColumnsOfRows(d.rows)
  {
    var ca, cb, cc, cd := ColumnsOfRows(a.rows), ColumnsOfRows(b.rows), ColumnsOfRows(c.rows), ColumnsOfRows(d.rows);
    assert [a, b, c, d][1..] == [b, c, d];
    assert [b, c, d][1..] == [c, d];
    assert [c, d][1..] == [d];
    assert ColumnsOfLayout([d]) == cd + ColumnsOfLayout([]) == cd;
    assert ColumnsOfLayout([c, d]) == cc + cd;
    assert ColumnsOfLayout([b, c, d]) == cb + (cc + cd);
    assert ca + (cb + (cc + cd)) == ca + cb + cc + cd;
  }

  /** The columns the document shows, in reading order. */
  const DocumentColumns: seq<Column> := [
    Name, Shift, DeptName, Position, Qualification, OtherPost,
    DateOfBirth, DateOfJoin, DateOfAppoint,
    MobileNum, EmailId, AadharNum, PanNum, UanPf,
    UniversityApproval
  ]

  lemma EmployeeInformationColumns()
    ensures ColumnsOfRows(EmployeeInformation.rows) == [Name, Shift, DeptName, Position, Qualification, OtherPost]
  {
    var s := EmployeeInformation.rows;
    ColumnsOfThreeRows(s[0], s[1], s[2]);
    ColumnsOfPair(s[0][0], s[0][1]);
    ColumnsOfPair(s[1][0], s[1][1]);
    ColumnsOfPair(s[2][0], s[2][1]);
  }

  lemma EmploymentDatesColumns()
    ensures ColumnsOfRows(EmploymentDates.rows) == [DateOfBirth, DateOfJoin, DateOfAppoint]
  {
    var s := EmploymentDates.rows;
    ColumnsOfTwoRows(s[0], s[1]);
    ColumnsOfPair(s[0][0], s[0][1]);
    ColumnsOfPair(s[1][0], s[1][1]);
  }

  lemma ContactDetailsColumns()
    ensures ColumnsOfRows(ContactDetails.rows) == [MobileNum, EmailId, AadharNum, PanNum, UanPf]
  {
    var s := ContactDetails.rows;
    ColumnsOfThreeRows(s[0], s[1], s[2]);
    ColumnsOfPair(s[0][0], s[0][1]);
    ColumnsOfPair(s[1][0], s[1][1]);
    ColumnsOfPair(s[2][0], s[2][1]);
  }

  lemma ApprovalColumns()
    ensures ColumnsOfRows(ApprovalSection.rows) == [UniversityApproval]
  {
    var s := ApprovalSection.rows;
    ColumnsOfPair(s[0][0], s[0][1]);
    assert ColumnsOfRows(s) == ColumnsOf(s[0]) + ColumnsOfRows([]);
  }

  lemma LayoutColumns()
    ensures ColumnsOfLayout(Layout) == DocumentColumns
  {
    ColumnsOfFourSections(EmployeeInformation, EmploymentDates, ContactDetails, ApprovalSection);
    EmployeeInformationColumns();
    EmploymentDatesColumns();
    ContactDetailsColumns();
    ApprovalColumns();
  }

  /**
   * Each of the fifteen record columns is shown in exactly one cell of the
   * document: every column is shown, and no column twice.
   */
  lemma EveryColumnOnce()
    ensures |ColumnsOfLayout(Layout)| == |Fields|
    ensures forall c: Column :: c in ColumnsOfLayout(Layout)
    ensures forall i, j :: 0 <= i < j < |ColumnsOfLayout(Layout)| ==> ColumnsOfLayout(Layout)[i] != ColumnsOfLayout(Layout)[j]
  {
    LayoutColumns();
    DocumentColumnsDistinct();
    forall c: Column ensures c in DocumentColumns {
      DocumentColumnsCover(c);
    }
  }

  lemma DocumentColumnsCover(c: Column)
    ensures c in DocumentColumns
  {
  }

  lemma DocumentColumnsDistinct()
    ensures forall i, j :: 0 <= i < j < |DocumentColumns| ==> DocumentColumns[i] != DocumentColumns[j]
  {
  }

  /**
   * Of the cells of the document, only the university-approval cell shows a
   * bare value, and every labelled cell's label ends in ": ".
   */
  lemma CellKinds(i: nat, r: nat, k: nat)
    requires i < |Layout| && r < |Layout[i].rows| && k < |Layout[i].rows[r]|
    ensures Layout[i].rows[r][k].Bare? <==> (i, r, k) == (3, 0, 0)
    ensures Layout[i].rows[r][k].Blank? <==> (i, r, k) in {(1, 1, 1), (2, 2, 1), (3, 0, 1)}
    ensures var c := Layout[i].rows[r][k];
            c.Labelled? ==> |c.prefix| >= 2 && c.prefix[|c.prefix| - 2..] == ": "
  {
  }

  /** The cell's text with its label taken off: the value it shows. */
  function CellValue(text: string, c: Cell): string {
    match c
    case Labelled(prefix, _) => if prefix <= text then text[|prefix|..] else ""
    case Bare(_) => text
    case Blank => ""
  }

  /**
   * The value a cell shows is the record's value, or "" when the record
   * lacks that column: rendering never fails.
   */
  lemma CellShowsValue(emp: Record, c: Cell)
    ensures c.Labelled? ==> Render(emp, c) == c.prefix + Get(emp, c.column, "")
    ensures !c.Blank? ==> CellValue(Render(emp, c), c) == Get(emp, c.column, "")
    ensures !c.Blank? && c.column !in emp ==> CellValue(Render(emp, c), c) == ""
    ensures c.Blank? ==> Render(emp, c) == ""
  {
    if c.Labelled? {
      assert Render(emp, c)[..|c.prefix|] == c.prefix;
    }
  }

  /** The name of the downloaded file: the employee's name followed by "_profile.pdf". */
  function ProfileFileName(name: string): (f: string)
    ensures |f| == |name| + |"_profile.pdf"|
    ensures f[..|name|] == name && f[|name|..] == "_profile.pdf"
  {
    name + "_profile.pdf"
  }

  /** The downloaded file is named after the name the first cell of the document shows. */
  lemma FileNameMatchesNameCell(emp: Record)
    requires Name in emp
    ensures Story(emp)[5].Table? && |Story(emp)[5].rows| > 0 && |Story(emp)[5].rows[0]| > 0
    ensures ProfileFileName(CellValue(Story(emp)[5].rows[0][0], Layout[0].rows[0][0])) == ProfileFileName(emp[Name])
  {
    StoryCell(emp, 0, 0, 0);
    CellShowsValue(emp, Layout[0].rows[0][0]);
  }

  /** What the view page shows after one run. */
  datatype ViewOutcome =
    | Idle                 // Search not pressed
    | NotFound             // "No employee found"
    | NameMissing          // emp['name'] raises KeyError
    | Offered(emp: Record, story: seq<Flowable>, fileName: string)

  /**
   * `view_employee_page` given whether Search was pressed and the rows the
   * lookup of the chosen date returned.
   */
  method ViewEmployeePage(searchPressed: bool, found: seq<Record>) returns (v: ViewOutcome)
    ensures !searchPressed ==> v == Idle
    ensures searchPressed && found == [] ==> v == NotFound
    ensures searchPressed && found != [] && Name !in found[0] ==> v == NameMissing
    ensures searchPressed && found != [] && Name in found[0] ==>
            v == Offered(found[0], Story(found[0]), ProfileFileName(found[0][Name]))
  {
    if !searchPressed {
      return Idle;
    }
    if found == [] {
      return NotFound;
    }
    var emp := found[0];
    if Name !in emp {
      return NameMissing;
    }
    var story := GeneratePdfStory(emp);
    return Offered(emp, story, ProfileFileName(emp[Name]));
  }
}
