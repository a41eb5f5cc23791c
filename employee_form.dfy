/**
 * The record form of the admin panel (`employee_form` in admin_panel.py):
 * the initial selections chosen from a stored row, the UG/PG rule, and the
 * fifteen-column record the form returns.
 */
module EmployeeForm {
  import opened Wrappers
  import opened Records

  const ShiftOptions: seq<string> := ["I", "SF-I", "II"]
  const ApprovalOptions: seq<string> := ["Yes", "No", "In-Progress"]
  const UgOptions: seq<string> := ["BA", "BSC", "BCA", "B.COM", "NA"]
  const PgOptions: seq<string> := ["MA", "MSC", "MCA", "M.COM", "M.PHIL", "NET", "CET", "NA"]
  const NA: string := "NA"

  /** The qualifications a record may hold once resolved: a real UG or PG option, or none. */
  predicate IsQualification(q: string) {
    q == "" || (q != NA && (q in UgOptions || q in PgOptions))
  }

  /** Why the form produces no record. */
  datatype FormError =
    | BothQualificationsSet  // "Either UG or PG must be NA", then st.stop()
    | ApprovalNotAnOption    // list.index raises ValueError on the stored approval

  /** The values of the form's widgets, as the admin leaves them when the script runs. */
  datatype Widgets = Widgets(
    deptName: string, shift: string, position: string, otherPost: string,
    universityApproval: string, name: string,
    ugQualification: string, pgQualification: string,
    dateOfBirth: string, dateOfAppoint: string, dateOfJoin: string,
    uanPf: string, aadharNum: string, panNum: string, mobileNum: string, emailId: string)

  /** The selections a selectbox or radio can hold: one of its options each. */
  predicate SelectionsAreOptions(w: Widgets) {
    && w.shift in ShiftOptions
    && w.universityApproval in ApprovalOptions
    && w.ugQualification in UgOptions
    && w.pgQualification in PgOptions
  }

  /**
   * Python's `list.index`: the position of the first occurrence of `x`,
   * and `None` where Python raises ValueError.
   */
  function IndexOf(s: seq<string>, x: string): (r: Option<nat>)
    ensures r.Some? <==> x in s
    ensures r.Some? ==> r.value < |s| && s[r.value] == x && x !in s[..r.value]
  {
    if s == [] then None
    else if s[0] == x then Some(0)
    else match IndexOf(s[1..], x)
      case None => None
      case Some(i) => Some(i + 1)
  }

  /** The initial index of the Shift selectbox. */
  function ShiftIndex(d: Record): (i: nat)
    ensures i < |ShiftOptions|
    ensures ShiftOptions[i] == (if Shift in d && d[Shift] in ShiftOptions then d[Shift] else "I")
  {
    if LookupIn(d, Shift, ShiftOptions) then IndexOf(ShiftOptions, Get(d, Shift, "I")).value else 0
  }

  /**
   * The initial index of the University Approval radio, or `None` when the
   * stored value is not one of its options and `list.index` raises.
   */
  function ApprovalIndex(d: Record): (r: Option<nat>)
    ensures r.Some? <==> (UniversityApproval !in d || d[UniversityApproval] in ApprovalOptions)
    ensures r.Some? ==> r.value < |ApprovalOptions|
    ensures r.Some? ==> ApprovalOptions[r.value] == (if UniversityApproval in d then d[UniversityApproval] else "No")
  {
    IndexOf(ApprovalOptions, Get(d, UniversityApproval, "No"))
  }

  /** The initial index of a qualification selectbox (UG or PG): the stored value when it is an option, else "NA". */
  function QualificationIndex(options: seq<string>, d: Record): (i: nat)
    requires NA in options
    ensures i < |options|
    ensures options[i] == (if Qualification in d && d[Qualification] in options then d[Qualification] else NA)
  {
    if LookupIn(d, Qualification, options) then IndexOf(options, Get(d, Qualification, "")).value
    else IndexOf(options, NA).value
  }

  /** The initial value of a date input: the stored date when it is a non-empty string, else today. */
  function DateDefault(d: Record, c: Column, today: string): (date: string)
    ensures c in d && d[c] != "" ==> date == d[c]
    ensures c !in d || d[c] == "" ==> date == today
  {
    if c in d && d[c] != "" then d[c] else today
  }

  /**
   * The widgets' initial values for the stored row `d` (`{}` for the Add form),
   * or the error raised while rendering them.
   */
  function Prefill(d: Record, today: string): (r: Result<Widgets, FormError>)
    ensures r.Err? <==> UniversityApproval in d && d[UniversityApproval] !in ApprovalOptions
    ensures r.Err? ==> r.error == ApprovalNotAnOption
    ensures r.Ok? ==> SelectionsAreOptions(r.value)
  {
    match ApprovalIndex(d)
    case None => Err(ApprovalNotAnOption)
    case Some(approval) =>
      Ok(Widgets(
        deptName := Get(d, DeptName, ""),
        shift := ShiftOptions[ShiftIndex(d)],
        position := Get(d, Position, ""),
        otherPost := Get(d, OtherPost, ""),
        universityApproval := ApprovalOptions[approval],
        name := Get(d, Name, ""),
        ugQualification := UgOptions[QualificationIndex(UgOptions, d)],
        pgQualification := PgOptions[QualificationIndex(PgOptions, d)],
        dateOfBirth := DateDefault(d, DateOfBirth, today),
        dateOfAppoint := DateDefault(d, DateOfAppoint, today),
        dateOfJoin := DateDefault(d, DateOfJoin, today),
        uanPf := Get(d, UanPf, ""),
        aadharNum := Get(d, AadharNum, ""),
        panNum := Get(d, PanNum, ""),
        mobileNum := Get(d, MobileNum, ""),
        emailId := Get(d, EmailId, "")))
  }

  /**
   * The UG/PG rule: rejected when both selections are set; otherwise the
   * one that is set, or "" when neither is.
   */
  function ResolveQualification(ug: string, pg: string): (r: Result<string, FormError>)
    ensures r.Err? <==> ug != NA && pg != NA
    ensures r.Err? ==> r.error == BothQualificationsSet
    ensures r.Ok? ==> (ug != NA ==> r.value == ug) && (pg != NA ==> r.value == pg)
    ensures r.Ok? && ug == NA && pg == NA ==> r.value == ""
  {
    if ug != NA && pg != NA then Err(BothQualificationsSet)
    else if ug != NA then Ok(ug)
    else if pg != NA then Ok(pg)
    else Ok("")
  }

  /** The widget a column of the record is taken from (every column but Qualification). */
  function WidgetFor(w: Widgets, c: Column): string {
    match c
    case DeptName => w.deptName
    case Shift => w.shift
    case Position => w.position
    case OtherPost => w.otherPost
    case UniversityApproval => w.universityApproval
    case Name => w.name
    case Qualification => ""
    case DateOfBirth => w.dateOfBirth
    case DateOfAppoint => w.dateOfAppoint
    case DateOfJoin => w.dateOfJoin
    case UanPf => w.uanPf
    case AadharNum => w.aadharNum
    case PanNum => w.panNum
    case MobileNum => w.mobileNum
    case EmailId => w.emailId
  }

  /**
   * What `employee_form` returns for the widget values `w`: the fifteen-column
   * record, or the UG/PG rejection (which stops the script, so no record exists).
   */
  function Submit(w: Widgets): (r: Result<Record, FormError>)
    ensures r.Err? <==> w.ugQualification != NA && w.pgQualification != NA
    ensures r.Err? ==> r.error == BothQualificationsSet
    ensures r.Ok? ==> IsComplete(r.value)
  {
    match ResolveQualification(w.ugQualification, w.pgQualification)
    case Err(e) => Err(e)
    case Ok(qualification) =>
      var m := map[
        DeptName := w.deptName,
        Shift := w.shift,
        Position := w.position,
        OtherPost := w.otherPost,
        UniversityApproval := w.universityApproval,
        Name := w.name,
        Qualification := qualification,
        DateOfBirth := w.dateOfBirth,
        DateOfAppoint := w.dateOfAppoint,
        DateOfJoin := w.dateOfJoin,
        UanPf := w.uanPf,
        AadharNum := w.aadharNum,
        PanNum := w.panNum,
        MobileNum := w.mobileNum,
        EmailId := w.emailId
      ];
      CompleteByKeys(m);
      Ok(m)
  }

  /**
   * Every column of a submitted record but Qualification holds the value of
   * its own widget, and Qualification holds the resolved UG/PG selection.
   */
  lemma SubmitTakesWidgets(w: Widgets)
    requires Submit(w).Ok?
    ensures Submit(w).value[Qualification] == ResolveQualification(w.ugQualification, w.pgQualification).value
    ensures forall c :: c != Qualification ==> Submit(w).value[c] == WidgetFor(w, c)
  {
    forall c | c != Qualification ensures Submit(w).value[c] == WidgetFor(w, c) {
      match c
      case DeptName =>
      case Shift =>
      case Position =>
      case OtherPost =>
      case UniversityApproval =>
      case Name =>
      case DateOfBirth =>
      case DateOfAppoint =>
      case DateOfJoin =>
      case UanPf =>
      case AadharNum =>
      case PanNum =>
      case MobileNum =>
      case EmailId =>
    }
  }

  /** A resolved qualification from real selections is never "NA": it is "" or a UG or PG option. */
  lemma ResolvedIsQualification(ug: string, pg: string)
    requires ug in UgOptions && pg in PgOptions
    ensures ResolveQualification(ug, pg).Ok? ==> IsQualification(ResolveQualification(ug, pg).value)
  {
  }

  /**
   * For any stored row, the pre-selected UG and PG values are never both set,
   * and they resolve back to the stored qualification when it is a real
   * option, and to "" otherwise.
   */
  lemma QualificationRoundTrip(d: Record)
    ensures var ug := UgOptions[QualificationIndex(UgOptions, d)];
            var pg := PgOptions[QualificationIndex(PgOptions, d)];
            && (ug == (if Qualification in d && d[Qualification] in UgOptions then d[Qualification] else NA))
            && (pg == (if Qualification in d && d[Qualification] in PgOptions then d[Qualification] else NA))
            && ResolveQualification(ug, pg) ==
               Ok(if Qualification in d && d[Qualification] != NA && IsQualification(d[Qualification])
                  then d[Qualification] else "")
  {
    var ug := UgOptions[QualificationIndex(UgOptions, d)];
    var pg := PgOptions[QualificationIndex(PgOptions, d)];
    if Qualification in d {
      var q := d[Qualification];
      if q in UgOptions && q in PgOptions {
        OnlyNAIsShared(q);
      } else if q in UgOptions {
        assert ug == q && pg == NA;
      } else if q in PgOptions {
        assert ug == NA && pg == q;
      } else {
        assert ug == NA && pg == NA;
      }
    }
  }

  /** A row as the form stores it: every column, selections among the options, dates set. */
  predicate IsStoredRecord(d: Record) {
    && IsComplete(d)
    && d[Shift] in ShiftOptions
    && d[UniversityApproval] in ApprovalOptions
    && IsQualification(d[Qualification])
    && d[DateOfBirth] != "" && d[DateOfAppoint] != "" && d[DateOfJoin] != ""
  }

  /** The Edit form of a stored row opens showing that row's value in every widget but UG and PG. */
  lemma PrefillShowsStored(d: Record, today: string)
    requires IsStoredRecord(d)
    ensures Prefill(d, today).Ok?
    ensures forall c :: c != Qualification ==> WidgetFor(Prefill(d, today).value, c) == d[c]
  {
    var w := Prefill(d, today).value;
    forall c | c != Qualification ensures WidgetFor(w, c) == d[c] {
      match c
      case DeptName =>
      case Shift =>
      case Position =>
      case OtherPost =>
      case UniversityApproval =>
      case Name =>
      case DateOfBirth =>
      case DateOfAppoint =>
      case DateOfJoin =>
      case UanPf =>
      case AadharNum =>
      case PanNum =>
      case MobileNum =>
      case EmailId =>
    }
  }

  /**
   * Any row the Edit form can open, complete or not: every text widget opens
   * on the stored value or "", and every date on the stored date, or today
   * when the date is missing or "".
   */
  lemma PrefillOpensOnDefaults(d: Record, today: string)
    requires Prefill(d, today).Ok?
    ensures var w := Prefill(d, today).value;
            && w.deptName == Get(d, DeptName, "") && w.position == Get(d, Position, "")
            && w.otherPost == Get(d, OtherPost, "") && w.name == Get(d, Name, "")
            && w.uanPf == Get(d, UanPf, "") && w.aadharNum == Get(d, AadharNum, "")
            && w.panNum == Get(d, PanNum, "") && w.mobileNum == Get(d, MobileNum, "")
            && w.emailId == Get(d, EmailId, "")
    ensures var w := Prefill(d, today).value;
            && w.dateOfBirth == (if DateOfBirth in d && d[DateOfBirth] != "" then d[DateOfBirth] else today)
            && w.dateOfAppoint == (if DateOfAppoint in d && d[DateOfAppoint] != "" then d[DateOfAppoint] else today)
            && w.dateOfJoin == (if DateOfJoin in d && d[DateOfJoin] != "" then d[DateOfJoin] else today)
  {
  }

  /** A submitted record is determined by its columns: the qualification and every widget's value. */
  lemma SubmitRebuilds(w: Widgets, d: Record)
    requires IsComplete(d) && Submit(w).Ok?
    requires Submit(w).value[Qualification] == d[Qualification]
    requires forall c :: c != Qualification ==> WidgetFor(w, c) == d[c]
    ensures Submit(w).value == d
  {
    SubmitTakesWidgets(w);
    assert Submit(w).value.Keys == d.Keys;
  }

  /**
   * An Edit form submitted as it was pre-populated writes back exactly the
   * stored row.
   */
  lemma UntouchedFormRoundTrip(d: Record, today: string)
    requires IsStoredRecord(d)
    ensures Prefill(d, today).Ok?
    ensures Submit(Prefill(d, today).value) == Ok(d)
  {
    PrefillShowsStored(d, today);
    var w := Prefill(d, today).value;
    QualificationRoundTrip(d);
    assert ResolveQualification(w.ugQualification, w.pgQualification) == Ok(d[Qualification]);
    SubmitTakesWidgets(w);
    SubmitRebuilds(w, d);
  }

  /** "NA" is the only option the UG and PG lists share. */
  lemma OnlyNAIsShared(q: string)
    requires q in UgOptions && q in PgOptions
    ensures q == NA
  {
  }

  /** Widget values agreeing on every column and on both qualification selections are the same. */
  lemma WidgetsByColumns(v: Widgets, w: Widgets)
    requires forall c :: c != Qualification ==> WidgetFor(v, c) == WidgetFor(w, c)
    requires v.ugQualification == w.ugQualification && v.pgQualification == w.pgQualification
    ensures v == w
  {
    assert WidgetFor(v, DeptName) == WidgetFor(w, DeptName);
    assert WidgetFor(v, Shift) == WidgetFor(w, Shift);
    assert WidgetFor(v, Position) == WidgetFor(w, Position);
    assert WidgetFor(v, OtherPost) == WidgetFor(w, OtherPost);
    assert WidgetFor(v, UniversityApproval) == WidgetFor(w, UniversityApproval);
    assert WidgetFor(v, Name) == WidgetFor(w, Name);
    assert WidgetFor(v, DateOfBirth) == WidgetFor(w, DateOfBirth);
    assert WidgetFor(v, DateOfAppoint) == WidgetFor(w, DateOfAppoint);
    assert WidgetFor(v, DateOfJoin) == WidgetFor(w, DateOfJoin);
    assert WidgetFor(v, UanPf) == WidgetFor(w, UanPf);
    assert WidgetFor(v, AadharNum) == WidgetFor(w, AadharNum);
    assert WidgetFor(v, PanNum) == WidgetFor(w, PanNum);
    assert WidgetFor(v, MobileNum) == WidgetFor(w, MobileNum);
    assert WidgetFor(v, EmailId) == WidgetFor(w, EmailId);
  }

  /** A record submitted from real selections and non-empty dates is a stored row. */
  lemma SubmittedIsStored(w: Widgets)
    requires SelectionsAreOptions(w)
    requires w.dateOfBirth != "" && w.dateOfAppoint != "" && w.dateOfJoin != ""
    requires Submit(w).Ok?
    ensures IsStoredRecord(Submit(w).value)
  {
    var r := Submit(w).value;
    SubmitTakesWidgets(w);
    ResolvedIsQualification(w.ugQualification, w.pgQualification);
    assert r[Shift] == WidgetFor(w, Shift) && r[UniversityApproval] == WidgetFor(w, UniversityApproval);
    assert r[DateOfBirth] == WidgetFor(w, DateOfBirth);
    assert r[DateOfAppoint] == WidgetFor(w, DateOfAppoint);
    assert r[DateOfJoin] == WidgetFor(w, DateOfJoin);
  }

  /** The UG and PG selectboxes of a submitted record re-select what was submitted. */
  lemma SubmittedQualificationReselected(w: Widgets)
    requires SelectionsAreOptions(w) && Submit(w).Ok?
    ensures UgOptions[QualificationIndex(UgOptions, Submit(w).value)] == w.ugQualification
    ensures PgOptions[QualificationIndex(PgOptions, Submit(w).value)] == w.pgQualification
  {
    var q := Submit(w).value[Qualification];
    SubmitTakesWidgets(w);
    if q in UgOptions && q in PgOptions {
      OnlyNAIsShared(q);
    }
  }

  /**
   * What the form saves is what it shows again: a record submitted from real
   * selections and non-empty dates pre-populates the Edit form with the same
   * widget values.
   */
  lemma SavedRecordPrefillsSameForm(w: Widgets, today: string)
    requires SelectionsAreOptions(w)
    requires w.dateOfBirth != "" && w.dateOfAppoint != "" && w.dateOfJoin != ""
    requires Submit(w).Ok?
    ensures IsStoredRecord(Submit(w).value)
    ensures Prefill(Submit(w).value, today) == Ok(w)
  {
    var r := Submit(w).value;
    SubmittedIsStored(w);
    PrefillShowsStored(r, today);
    SubmittedQualificationReselected(w);
    SubmitTakesWidgets(w);
    var p := Prefill(r, today).value;
    assert p.ugQualification == UgOptions[QualificationIndex(UgOptions, r)];
    assert p.pgQualification == PgOptions[QualificationIndex(PgOptions, r)];
    WidgetsByColumns(p, w);
  }

  /** The blank Add form: shift "I", approval "No", no qualification, every date today, every text widget empty. */
  lemma BlankFormDefaults(today: string)
    ensures Prefill(map[], today).Ok?
    ensures var w := Prefill(map[], today).value;
            && w.shift == "I" && w.universityApproval == "No"
            && w.ugQualification == NA && w.pgQualification == NA
            && w.dateOfBirth == today && w.dateOfAppoint == today && w.dateOfJoin == today
            && w.deptName == "" && w.position == "" && w.otherPost == "" && w.name == ""
            && w.uanPf == "" && w.aadharNum == "" && w.panNum == "" && w.mobileNum == "" && w.emailId == ""
            && Submit(w).Ok? && Submit(w).value[Qualification] == ""
  {
    var d: Record := map[];
    assert ApprovalIndex(d).Some?;
    var w := Prefill(d, today).value;
    assert w.ugQualification == UgOptions[QualificationIndex(UgOptions, d)] == NA;
    assert w.pgQualification == PgOptions[QualificationIndex(PgOptions, d)] == NA;
    SubmitTakesWidgets(w);
  }
}
