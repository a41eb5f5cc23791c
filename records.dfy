/** The employee row as the application sees it: column to column value. */
module Records {
  import opened Wrappers

  /** The fifteen columns of the `employees` table that the application reads or writes. */
  datatype Column =
    | DeptName | Shift | Position | OtherPost | UniversityApproval
    | Name | Qualification | DateOfBirth | DateOfAppoint | DateOfJoin
    | UanPf | AadharNum | PanNum | MobileNum | EmailId

  /** The dict key the Python code uses for each column. */
  function Key(c: Column): string {
    match c
    case DeptName => "dept_name"
    case Shift => "shift"
    case Position => "position"
    case OtherPost => "other_post"
    case UniversityApproval => "university_approval"
    case Name => "name"
    case Qualification => "qualification"
    case DateOfBirth => "date_of_birth"
    case DateOfAppoint => "date_of_appoint"
    case DateOfJoin => "date_of_join"
    case UanPf => "uan_pf"
    case AadharNum => "aadhar_num"
    case PanNum => "pan_num"
    case MobileNum => "mobile_num"
    case EmailId => "email_id"
  }

  /** One row of the `employees` table, or the dict built by the employee form. */
  type Record = map<Column, string>

  /** The columns in the order of the employee form's dict literal. */
  const Fields: seq<Column> := [
    DeptName, Shift, Position, OtherPost, UniversityApproval,
    Name, Qualification, DateOfBirth, DateOfAppoint, DateOfJoin,
    UanPf, AadharNum, PanNum, MobileNum, EmailId
  ]

  /** Python's `r.get(key, default)`. */
  function Get(r: Record, c: Column, default: string): string {
    if c in r then r[c] else default
  }

  /** Python's `r.get(key)`, whose missing value is `None`. */
  function Lookup(r: Record, c: Column): Option<string> {
    if c in r then Some(r[c]) else None
  }

  /** Python's `r.get(key) in options`: `None` is never a member of a list of strings. */
  predicate LookupIn(r: Record, c: Column, options: seq<string>) {
    match Lookup(r, c)
    case None => false
    case Some(v) => v in options
  }

  /** Every column, as a set. */
  const AllColumns: set<Column> := {
    DeptName, Shift, Position, OtherPost, UniversityApproval,
    Name, Qualification, DateOfBirth, DateOfAppoint, DateOfJoin,
    UanPf, AadharNum, PanNum, MobileNum, EmailId
  }

  /** A row holding every column. */
  predicate IsComplete(r: Record) {
    forall c: Column :: c in r
  }

  /** Every column is in AllColumns and in Fields. */
  lemma ColumnListed(c: Column)
    ensures c in AllColumns && c in Fields
  {
    match c
    case DeptName => assert Fields[0] == c;
    case Shift => assert Fields[1] == c;
    case Position => assert Fields[2] == c;
    case OtherPost => assert Fields[3] == c;
    case UniversityApproval => assert Fields[4] == c;
    case Name => assert Fields[5] == c;
    case Qualification => assert Fields[6] == c;
    case DateOfBirth => assert Fields[7] == c;
    case DateOfAppoint => assert Fields[8] == c;
    case DateOfJoin => assert Fields[9] == c;
    case UanPf => assert Fields[10] == c;
    case AadharNum => assert Fields[11] == c;
    case PanNum => assert Fields[12] == c;
    case MobileNum => assert Fields[13] == c;
    case EmailId => assert Fields[14] == c;
  }

  /** A row whose keys are AllColumns holds every column. */
  lemma CompleteByKeys(r: Record)
    requires r.Keys == AllColumns
    ensures IsComplete(r)
  {
    forall c: Column ensures c in r {
      ColumnListed(c);
    }
  }

  /** Distinct columns have distinct dict keys, so keying rows by Column loses nothing. */
  lemma KeysAreDistinct(c: Column, d: Column)
    requires c != d
    ensures Key(c) != Key(d)
  {
  }
}
