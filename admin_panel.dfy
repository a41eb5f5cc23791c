/**
 * The admin page (`admin_auth` and `admin_panel_page` in admin_panel.py):
 * the session's access flag and the store calls the Add, Edit and Delete
 * tabs issue in one run of the script.
 */
module AdminPanel {
  import opened Records
  import opened EmployeeForm

  /** How `admin_auth` ends one run of the script. */
  datatype AuthOutcome =
    | Proceed  // the flag was already set: the page goes on to its tabs
    | Granted  // the right code with Login: the flag is set and the script re-runs
    | Refused  // a wrong code with Login: an error, then st.stop()
    | Waiting  // Login not pressed: st.stop()

  datatype AuthStepResult = AuthStepResult(flag: bool, outcome: AuthOutcome)

  /** One run of `admin_auth` from the session flag `flag`, with the code typed and whether Login was pressed. */
  function AuthStep(flag: bool, code: string, loginPressed: bool, adminCode: string): (r: AuthStepResult)
    ensures r.flag <==> flag || (loginPressed && code == adminCode)
    ensures r.outcome == Proceed <==> flag
    ensures r.outcome == Granted <==> !flag && loginPressed && code == adminCode
    ensures r.outcome == Refused <==> !flag && loginPressed && code != adminCode
  {
    if flag then AuthStepResult(true, Proceed)
    else if loginPressed then
      if code == adminCode then AuthStepResult(true, Granted) else AuthStepResult(false, Refused)
    else AuthStepResult(false, Waiting)
  }

  /** The part of `st.session_state` the admin page uses. */
  class Session {
    var hasAdminAuth: bool  // "admin_auth" in st.session_state
    var adminAuth: bool     // st.session_state.admin_auth

    /** A new browser session: no flag stored yet. */
    constructor ()
      ensures !hasAdminAuth && !Authenticated()
    {
      hasAdminAuth := false;
      adminAuth := false;
    }

    /** The flag as `admin_auth` reads it, after storing False when it is missing. */
    function Authenticated(): bool
      reads this
    {
      hasAdminAuth && adminAuth
    }

    /** One run of `admin_auth`. */
    method AdminAuth(code: string, loginPressed: bool, adminCode: string) returns (outcome: AuthOutcome)
      modifies this
      ensures hasAdminAuth
      ensures adminAuth == AuthStep(old(Authenticated()), code, loginPressed, adminCode).flag
      ensures outcome == AuthStep(old(Authenticated()), code, loginPressed, adminCode).outcome
    {
      if !hasAdminAuth {
        hasAdminAuth := true;
        adminAuth := false;
      }
      if !adminAuth {
        if loginPressed {
          if code == adminCode {
            adminAuth := true;
            return Granted;
          }
          return Refused;
        }
        return Waiting;
      }
      return Proceed;
    }
  }

  /** What one visit to the login box does: the code typed and whether Login was pressed. */
  datatype Attempt = Attempt(code: string, loginPressed: bool)

  /** The flag after a series of runs of `admin_auth`, starting from `flag`. */
  function FlagAfter(flag: bool, attempts: seq<Attempt>, adminCode: string): bool
    decreases |attempts|
  {
    if attempts == [] then flag
    else FlagAfter(AuthStep(flag, attempts[0].code, attempts[0].loginPressed, adminCode).flag, attempts[1..], adminCode)
  }

  /** Some attempt pressed Login with the right code. */
  predicate SomeCorrectLogin(attempts: seq<Attempt>, adminCode: string) {
    exists i :: 0 <= i < |attempts| && attempts[i].loginPressed && attempts[i].code == adminCode
  }

  /**
   * The flag is set after a series of runs exactly when it was set before or
   * some run pressed Login with the right code; nothing resets it.
   */
  lemma {:induction false} FlagAfterIffCorrectLogin(flag: bool, attempts: seq<Attempt>, adminCode: string)
    ensures FlagAfter(flag, attempts, adminCode) <==> flag || SomeCorrectLogin(attempts, adminCode)
    decreases |attempts|
  {
    if attempts != [] {
      var next := AuthStep(flag, attempts[0].code, attempts[0].loginPressed, adminCode).flag;
      FlagAfterIffCorrectLogin(next, attempts[1..], adminCode);
      if SomeCorrectLogin(attempts[1..], adminCode) {
        var i :| 0 <= i < |attempts[1..]| && attempts[1..][i].loginPressed && attempts[1..][i].code == adminCode;
        assert attempts[i + 1] == attempts[1..][i];
      }
      if SomeCorrectLogin(attempts, adminCode) && !(attempts[0].loginPressed && attempts[0].code == adminCode) {
        var i :| 0 <= i < |attempts| && attempts[i].loginPressed && attempts[i].code == adminCode;
        assert i > 0 && attempts[1..][i - 1] == attempts[i];
      }
    }
  }

  /** A call to the `employees` table. */
  datatype StoreCall =
    | Insert(row: Record)
    | Update(dob: string, row: Record)  // update(row).eq("date_of_birth", dob)
    | Delete(dob: string)               // delete().eq("date_of_birth", dob)

  /** How a run of the script ends. */
  datatype Halt =
    | Completed  // every tab rendered
    | Stopped    // st.stop(): login box, or the UG/PG error
    | Rerun      // st.rerun() after a granted login
    | Crashed    // an uncaught KeyError or ValueError

  /** The store calls a run (or a tab) issued, and how it ended. */
  datatype Run = Run(halt: Halt, calls: seq<StoreCall>)

  /** What the admin does and what the store answers in one run of the page. */
  datatype PageInputs = PageInputs(
    code: string, loginPressed: bool, today: string,
    addWidgets: Widgets, addPressed: bool,
    editDob: string, editFound: seq<Record>, editWidgets: Widgets, updatePressed: bool,
    deleteDob: string, deleteFound: seq<Record>, confirmTicked: bool, deletePressed: bool)

  /** The Add tab: the blank form, and an insert when "Add Employee" is pressed. */
  function AddTab(p: PageInputs): (r: Run)
    ensures r.halt == (if Submit(p.addWidgets).Err? then Stopped else Completed)
    ensures r.calls == (if Submit(p.addWidgets).Ok? && p.addPressed then [Insert(Submit(p.addWidgets).value)] else [])
  {
    match Submit(p.addWidgets)
    case Err(_) => Run(Stopped, [])
    case Ok(data) => Run(Completed, if p.addPressed then [Insert(data)] else [])
  }

  /**
   * The Edit tab: nothing unless the lookup of the searched date found a row;
   * then the form pre-populated from the first row, and an update filtered on
   * the searched date when "Update Employee" is pressed.
   */
  function EditTab(p: PageInputs): (r: Run)
    ensures p.editFound == [] ==> r == Run(Completed, [])
    ensures r.halt == (if p.editFound == [] then Completed
                       else if DateOfBirth !in p.editFound[0] || Prefill(p.editFound[0], p.today).Err? then Crashed
                       else if Submit(p.editWidgets).Err? then Stopped
                       else Completed)
    ensures r.calls != [] <==> p.editFound != [] && DateOfBirth in p.editFound[0]
                               && Prefill(p.editFound[0], p.today).Ok?
                               && Submit(p.editWidgets).Ok? && p.updatePressed
    ensures r.calls != [] ==> r.calls == [Update(p.editDob, Submit(p.editWidgets).value)]
  {
    if p.editFound == [] then Run(Completed, [])
    else
      var emp := p.editFound[0];
      if DateOfBirth !in emp then Run(Crashed, [])
      else match Prefill(emp, p.today)
        case Err(_) => Run(Crashed, [])
        case Ok(_) =>
          match Submit(p.editWidgets)
          case Err(_) => Run(Stopped, [])
          case Ok(updated) => Run(Completed, if p.updatePressed then [Update(p.editDob, updated)] else [])
  }

  /**
   * The Delete tab: nothing unless the lookup found a row; then a delete
   * filtered on the searched date only when "Confirm delete" is ticked and
   * "Delete" is pressed.
   */
  function DeleteTab(p: PageInputs): (r: Run)
    ensures r.halt == (if p.deleteFound != [] && Name !in p.deleteFound[0] then Crashed else Completed)
    ensures r.calls != [] <==> p.deleteFound != [] && Name in p.deleteFound[0] && p.confirmTicked && p.deletePressed
    ensures r.calls != [] ==> r.calls == [Delete(p.deleteDob)]
  {
    if p.deleteFound == [] then Run(Completed, [])
    else if Name !in p.deleteFound[0] then Run(Crashed, [])
    else Run(Completed, if p.confirmTicked && p.deletePressed then [Delete(p.deleteDob)] else [])
  }

  /** Runs `b` after `a` unless `a` ended the script. */
  function Then(a: Run, b: Run): Run {
    if a.halt != Completed then a else Run(b.halt, a.calls + b.calls)
  }

  /** One run of `admin_panel_page` from the session flag `flag`. */
  function PageRun(flag: bool, p: PageInputs, adminCode: string): Run {
    var auth := AuthStep(flag, p.code, p.loginPressed, adminCode);
    if auth.outcome != Proceed then Run(if auth.outcome == Granted then Rerun else Stopped, [])
    else Then(Then(AddTab(p), EditTab(p)), DeleteTab(p))
  }

  /** One run of `admin_panel_page`: the session's flag is updated and the tabs issue their calls in order. */
  method AdminPanelPage(session: Session, p: PageInputs, adminCode: string) returns (run: Run)
    modifies session
    ensures session.Authenticated() == AuthStep(old(session.Authenticated()), p.code, p.loginPressed, adminCode).flag
    ensures run == PageRun(old(session.Authenticated()), p, adminCode)
  {
    var outcome := session.AdminAuth(p.code, p.loginPressed, adminCode);
    if outcome == Granted {
      return Run(Rerun, []);
    } else if outcome != Proceed {
      return Run(Stopped, []);
    }
    var add := AddTab(p);
    var calls := add.calls;
    if add.halt != Completed {
      return Run(add.halt, calls);
    }
    var edit := EditTab(p);
    calls := calls + edit.calls;
    if edit.halt != Completed {
      return Run(edit.halt, calls);
    }
    var delete := DeleteTab(p);
    calls := calls + delete.calls;
    return Run(delete.halt, calls);
  }

  /** Without the flag no tab is rendered and nothing reaches the store; a granted login re-runs the page. */
  lemma LockedPageIssuesNothing(p: PageInputs, adminCode: string)
    ensures PageRun(false, p, adminCode).calls == []
    ensures PageRun(false, p, adminCode).halt ==
            (if p.loginPressed && p.code == adminCode then Rerun else Stopped)
  {
  }

  /**
   * A delete is issued only for the searched date, and only when the run got
   * past the Add and Edit tabs, the lookup found a row, "Confirm delete" is
   * ticked and "Delete" is pressed.
   */
  lemma DeleteGate(flag: bool, p: PageInputs, adminCode: string, dob: string)
    ensures Delete(dob) in PageRun(flag, p, adminCode).calls <==>
            && flag && dob == p.deleteDob
            && AddTab(p).halt == Completed && EditTab(p).halt == Completed
            && p.deleteFound != [] && Name in p.deleteFound[0]
            && p.confirmTicked && p.deletePressed
  {
    var a, e, d := AddTab(p), EditTab(p), DeleteTab(p);
    assert Delete(dob) !in a.calls && Delete(dob) !in e.calls;
    if flag && a.halt == Completed && e.halt == Completed {
      assert PageRun(flag, p, adminCode).calls == a.calls + e.calls + d.calls;
    }
  }

  /**
   * An update is issued only when the lookup for the searched date found a
   * row and "Update Employee" is pressed; it is filtered on the searched date
   * (not on the form's date of birth) and writes the submitted form.
   */
  lemma UpdateGate(flag: bool, p: PageInputs, adminCode: string, dob: string, row: Record)
    ensures Update(dob, row) in PageRun(flag, p, adminCode).calls <==>
            && flag && AddTab(p).halt == Completed
            && p.editFound != [] && DateOfBirth in p.editFound[0] && Prefill(p.editFound[0], p.today).Ok?
            && p.updatePressed && Submit(p.editWidgets).Ok?
            && dob == p.editDob && row == Submit(p.editWidgets).value
  {
    var a, e, d := AddTab(p), EditTab(p), DeleteTab(p);
    assert Update(dob, row) !in a.calls && Update(dob, row) !in d.calls;
    if flag && a.halt == Completed {
      assert e.halt == Completed ==> PageRun(flag, p, adminCode).calls == a.calls + e.calls + d.calls;
      assert e.halt != Completed ==> PageRun(flag, p, adminCode).calls == a.calls + e.calls;
    }
  }

  /** A UG/PG conflict on the Add form stops the script, so the Edit and Delete tabs never run. */
  lemma AddConflictBlocksOtherTabs(flag: bool, p: PageInputs, adminCode: string)
    requires Submit(p.addWidgets).Err?
    ensures PageRun(flag, p, adminCode).calls == []
  {
  }

  /**
   * The Edit tab of a stored row, submitted as it was pre-populated, updates
   * the searched date with the stored row itself.
   */
  lemma UntouchedEditTab(p: PageInputs)
    requires p.editFound != [] && IsStoredRecord(p.editFound[0])
    requires p.editWidgets == Prefill(p.editFound[0], p.today).value
    requires p.updatePressed
    ensures EditTab(p) == Run(Completed, [Update(p.editDob, p.editFound[0])])
  {
    UntouchedFormRoundTrip(p.editFound[0], p.today);
  }

  /**
   * An Edit form left as pre-populated updates the searched row with the
   * stored row itself, and nothing else reaches the store.
   */
  lemma UntouchedEditWritesStoredRow(p: PageInputs, adminCode: string)
    requires AddTab(p).halt == Completed && !p.addPressed
    requires p.editFound != [] && IsStoredRecord(p.editFound[0])
    requires p.editWidgets == Prefill(p.editFound[0], p.today).value
    requires p.updatePressed && p.deleteFound == []
    ensures PageRun(true, p, adminCode) == Run(Completed, [Update(p.editDob, p.editFound[0])])
  {
    UntouchedEditTab(p);
    assert AddTab(p) == Run(Completed, []);
    assert DeleteTab(p) == Run(Completed, []);
  }
}
