// The check-out route, app/api/v1/lpu/check-out/route.ts: the same frame as check-in, but the
// password is typed as received and the attendance tab accepts every dialog it raises.

module CheckOut {
  import opened Wrappers
  import opened Automation
  import opened Seqs

  const SuccessSubject := "Check-out successfully"
  const SuccessMessage := "Check-out successful"

  /** The password is typed exactly as the request carried it. */
  function PasswordPlan(password: string): seq<Call> {
    [TypeInto(PasswordField, password, TypingDelay)]
  }

  function LoginPlan(w: World, regNo: string, password: string): seq<Call> {
    ConnectPlan(regNo) + PasswordPlan(password) + SubmitPlan
  }

  /** The attendance tab: a handler accepting every dialog is registered, then the geolocation is
      set, then the page is loaded. */
  const OpenAttendancePlan := [NewPage, OnDialogAccept, SetGeolocation(Latitude, Longitude), Goto(AttendancePage, SubmitTimeout)]

  /** The text of a present field; the request is rejected before an absent one is used. */
  function Field(f: Option<string>): string {
    if f.Some? then f.value else ""
  }

  /** The reference behaviour of the route: every call it makes and how it ends. */
  function Expected(w: World, req: Request): Handling {
    Route(w, req, LoginPlan(w, Field(req.regNo), Field(req.password)), OpenAttendancePlan, SuccessSubject, SuccessMessage)
  }

  // ---------------------------------------------------------------------------------------------
  // The handler

  method PasswordSteps(env: Session, password: string) returns (thrown: Option<Thrown>)
    requires env.Valid()
    modifies env
    ensures env.Valid()
    ensures Ran(env.world, old(env.calls), env.calls, PasswordPlan(password), thrown)
  {
    env.Begin(PasswordPlan(password));
    thrown := env.Perform(TypeInto(PasswordField, password, TypingDelay));
    if thrown.Some? { return; }
    env.Finished();
  }

  method LoginSteps(env: Session, regNo: string, password: string) returns (thrown: Option<Thrown>)
    requires env.Valid()
    modifies env
    ensures env.Valid()
    ensures Ran(env.world, old(env.calls), env.calls, LoginPlan(env.world, regNo, password), thrown)
  {
    var w := env.world;
    var c0 := env.calls;
    thrown := ConnectSteps(env, regNo);
    if thrown.Some? {
      RanStopped(w, c0, env.calls, ConnectPlan(regNo), PasswordPlan(password), thrown);
      RanStopped(w, c0, env.calls, ConnectPlan(regNo) + PasswordPlan(password), SubmitPlan, thrown);
      return;
    }
    var c1 := env.calls;
    thrown := PasswordSteps(env, password);
    RanThen(w, c0, c1, env.calls, ConnectPlan(regNo), PasswordPlan(password), thrown);
    if thrown.Some? {
      RanStopped(w, c0, env.calls, ConnectPlan(regNo) + PasswordPlan(password), SubmitPlan, thrown);
      return;
    }
    var c2 := env.calls;
    thrown := SubmitSteps(env);
    RanThen(w, c0, c2, env.calls, ConnectPlan(regNo) + PasswordPlan(password), SubmitPlan, thrown);
  }

  method OpenAttendanceSteps(env: Session) returns (thrown: Option<Thrown>)
    requires env.Valid()
    modifies env
    ensures env.Valid()
    ensures Ran(env.world, old(env.calls), env.calls, OpenAttendancePlan, thrown)
  {
    env.Begin(OpenAttendancePlan);
    thrown := env.Perform(NewPage);
    if thrown.Some? { return; }
    thrown := env.Perform(OnDialogAccept);
    if thrown.Some? { return; }
    thrown := env.Perform(SetGeolocation(Latitude, Longitude));
    if thrown.Some? { return; }
    thrown := env.Perform(Goto(AttendancePage, SubmitTimeout));
    if thrown.Some? { return; }
    env.Finished();
  }

  /** After the error-dialog probe: the 401 branch, or the attendance page. `done` is the answer
      when nothing threw. */
  method AfterLoginSteps(env: Session, regNo: string, to: Option<string>) returns (thrown: Option<Thrown>, done: Response)
    requires env.Valid()
    modifies env
    ensures env.Valid()
    ensures Ran(env.world, old(env.calls), env.calls, AfterLogin(env.world, OpenAttendancePlan, regNo, to, SuccessSubject), thrown)
    ensures done == RouteDone(env.world, SuccessMessage)
  {
    var w := env.world;
    if w.errorDialog.Some? {
      var details;
      thrown, details := DialogSteps(env, regNo, to);
      done := CredentialsRejected(details);
      return;
    }
    done := Response(200, MessageBody(SuccessMessage));
    var c0 := env.calls;
    var rest := MarkPlan + FinishPlan(to, regNo, SuccessSubject);
    thrown := OpenAttendanceSteps(env);
    if thrown.Some? {
      RanStopped(w, c0, env.calls, OpenAttendancePlan, rest, thrown);
      return;
    }
    var c1 := env.calls;
    thrown := MarkAndFinishSteps(env, regNo, to, SuccessSubject);
    RanThen(w, c0, c1, env.calls, OpenAttendancePlan, rest, thrown);
  }

  /** The `try` block. */
  method TryBlock(env: Session, regNo: string, password: string, to: Option<string>) returns (completion: Completion)
    requires env.Valid()
    modifies env
    ensures env.Valid()
    ensures var t := Run(env.world, RoutePlan(env.world, LoginPlan(env.world, regNo, password), OpenAttendancePlan, regNo, to, SuccessSubject), |old(env.calls)|);
      && env.calls == old(env.calls) + t.calls
      && completion == Completes(t, RouteDone(env.world, SuccessMessage))
  {
    var w := env.world;
    var login := LoginPlan(w, regNo, password);
    var after := AfterLogin(w, OpenAttendancePlan, regNo, to, SuccessSubject);
    var c0 := env.calls;
    var thrown := LoginSteps(env, regNo, password);
    if thrown.Some? {
      RanStopped(w, c0, env.calls, login, after, thrown);
      completion := Threw(thrown.value);
      return;
    }
    var c1 := env.calls;
    var done;
    thrown, done := AfterLoginSteps(env, regNo, to);
    RanThen(w, c0, c1, env.calls, login, after, thrown);
    completion := if thrown.Some? then Threw(thrown.value) else Normal(done);
  }

  /** `POST /api/v1/lpu/check-out` on a fresh session: the calls it makes and its outcome are the
      reference behaviour, and the email log and close counter follow the calls. */
  method Post(env: Session, req: Request) returns (outcome: Outcome)
    requires env.Valid() && env.calls == []
    modifies env
    ensures env.Valid()
    ensures env.calls == Expected(env.world, req).calls
    ensures outcome == Expected(env.world, req).outcome
    ensures env.emails == EmailsIn(env.calls) && env.closeCalls == CloseCount(env.calls)
  {
    if Missing(req.regNo) || Missing(req.password) {
      return Responded(BadRequest);
    }
    var regNo := req.regNo.value;
    var launched := env.Invoke(Launch);
    if launched.Some? {
      return Raised(launched.value);
    }
    var completion := TryBlock(env, regNo, req.password.value, req.email);
    outcome := Conclude(env, completion, regNo, req.email);
  }

  // ---------------------------------------------------------------------------------------------
  // Properties

  /** Neither the login steps nor the opening of the attendance tab mails or closes the browser. */
  lemma {:induction false} PlansQuiet(w: World, regNo: string, password: string)
    ensures Quiet(LoginPlan(w, regNo, password)) && Quiet(OpenAttendancePlan)
  {
  }

  /** The plan of a valid request, with the names the lemmas below use. */
  function PlanOf(w: World, req: Request): seq<Call>
    requires !Missing(req.regNo) && !Missing(req.password)
  {
    RoutePlan(w, LoginPlan(w, req.regNo.value, req.password.value), OpenAttendancePlan, req.regNo.value, req.email, SuccessSubject)
  }

  /** A missing registration number or password, and only that, is answered 400 before the
      browser is launched. */
  lemma {:induction false} RejectsMissingFields(w: World, req: Request)
    ensures Expected(w, req).outcome == Responded(BadRequest) <==> Missing(req.regNo) || Missing(req.password)
    ensures Missing(req.regNo) || Missing(req.password) ==> Expected(w, req).calls == []
  {
    RouteValidation(w, req, LoginPlan(w, Field(req.regNo), Field(req.password)), OpenAttendancePlan, SuccessSubject, SuccessMessage);
  }

  /** Without an error dialog, "Check-out successful" is answered exactly when the run is clean;
      then the only email is the success mail "Check-out successfully". */
  lemma {:induction false} SucceedsWhenClean(w: World, req: Request)
    requires !Missing(req.regNo) && !Missing(req.password) && w.errorDialog.None?
    ensures Expected(w, req).outcome == Responded(Response(200, MessageBody(SuccessMessage))) <==> CleanRun(w, PlanOf(w, req))
    ensures CleanRun(w, PlanOf(w, req)) ==>
      && EmailsIn(Expected(w, req).calls) == [SuccessEmail(req.email, req.regNo.value, SuccessSubject)]
      && CloseCount(Expected(w, req).calls) == 2
  {
    PlansQuiet(w, req.regNo.value, req.password.value);
    RouteSucceeds(w, req, LoginPlan(w, req.regNo.value, req.password.value), OpenAttendancePlan, SuccessSubject, SuccessMessage);
  }

  /** With the error dialog present, 401 with the dialog's text is answered exactly when the run
      is clean; then the only email is the "Invalid credentials" failure mail. */
  lemma {:induction false} RejectsCredentials(w: World, req: Request)
    requires !Missing(req.regNo) && !Missing(req.password) && w.errorDialog.Some?
    ensures Expected(w, req).outcome == Responded(CredentialsRejected(w.errorDialog.value)) <==> CleanRun(w, PlanOf(w, req))
    ensures CleanRun(w, PlanOf(w, req)) ==>
      && EmailsIn(Expected(w, req).calls) == [ErrorEmail(req.email, req.regNo.value, InvalidCredentials)]
      && CloseCount(Expected(w, req).calls) == 2
  {
    PlansQuiet(w, req.regNo.value, req.password.value);
    RouteRejectsCredentials(w, req, LoginPlan(w, req.regNo.value, req.password.value), OpenAttendancePlan, SuccessSubject, SuccessMessage);
  }

  /** Once launched, the route always ends by closing the browser, and it closes it once or twice. */
  lemma {:induction false} AlwaysCloses(w: World, req: Request)
    requires !Missing(req.regNo) && !Missing(req.password) && ResultAt(w, Launch, 0).None?
    ensures var calls := Expected(w, req).calls;
      && calls[|calls| - 1] == Close
      && (ResultAt(w, Close, |calls| - 1).None? ==> !IsOpen(w, calls))
      && 1 <= CloseCount(calls) <= 2
  {
    PlansQuiet(w, req.regNo.value, req.password.value);
    RouteClosesBrowser(w, req, LoginPlan(w, req.regNo.value, req.password.value), OpenAttendancePlan, SuccessSubject, SuccessMessage);
  }

  /** The login plan types into the password field only once: the raw password, with the typing
      delay; nothing after the login types at all. */
  lemma PasswordPlanTyped(w: World, regNo: string, password: string, to: Option<string>, x: Call)
    requires x.TypeInto? && x.element == PasswordField
    requires x in RoutePlan(w, LoginPlan(w, regNo, password), OpenAttendancePlan, regNo, to, SuccessSubject)
    ensures x == TypeInto(PasswordField, password, TypingDelay)
  {
    AfterLoginTypesIn(w, OpenAttendancePlan, regNo, to, SuccessSubject, x);
    assert x in LoginPlan(w, regNo, password);
    assert x !in ConnectPlan(regNo) && x !in SubmitPlan;
  }

  /** The password field gets the password exactly as the request carried it. */
  lemma {:induction false} PasswordTypedRaw(w: World, req: Request, text: string, delay: nat)
    requires !Missing(req.regNo) && !Missing(req.password)
    requires TypeInto(PasswordField, text, delay) in Expected(w, req).calls
    ensures text == req.password.value && delay == TypingDelay
  {
    var regNo := req.regNo.value;
    var x := TypeInto(PasswordField, text, delay);
    var p := PlanOf(w, req);
    MadeInTry(w, p, RouteDone(w, SuccessMessage), regNo, req.email, x);
    RunPrefix(w, p, 1);
    InPrefix(x, Run(w, p, 1).calls, p);
    PasswordPlanTyped(w, regNo, req.password.value, req.email, x);
  }

  /** On the error dialog the attendance page is never loaded. */
  lemma {:induction false} NoAttendanceOnDialog(w: World, req: Request)
    requires !Missing(req.regNo) && !Missing(req.password) && w.errorDialog.Some?
    ensures Goto(AttendancePage, SubmitTimeout) !in Expected(w, req).calls
  {
    var regNo := req.regNo.value;
    var p := PlanOf(w, req);
    assert p == LoginPlan(w, regNo, req.password.value) + DialogPlan(req.email, regNo);
    UnplannedNotMade(w, p, RouteDone(w, SuccessMessage), regNo, req.email, Goto(AttendancePage, SubmitTimeout));
  }

  /** Without the error dialog the plan loads the attendance page right after the login, the new
      tab, the dialog handler and the geolocation, and the login never loads it. */
  lemma AttendancePlanSplit(w: World, regNo: string, password: string, to: Option<string>)
    requires w.errorDialog.None?
    ensures var x := Goto(AttendancePage, SubmitTimeout);
      var login := LoginPlan(w, regNo, password);
      && RoutePlan(w, login, OpenAttendancePlan, regNo, to, SuccessSubject)
           == (login + [NewPage, OnDialogAccept, SetGeolocation(Latitude, Longitude)])
              + ([x] + (MarkPlan + FinishPlan(to, regNo, SuccessSubject)))
      && x !in login
  {
    var x := Goto(AttendancePage, SubmitTimeout);
    var login := LoginPlan(w, regNo, password);
    var first := [NewPage, OnDialogAccept, SetGeolocation(Latitude, Longitude)];
    var rest := MarkPlan + FinishPlan(to, regNo, SuccessSubject);
    SplitLast4(NewPage, OnDialogAccept, SetGeolocation(Latitude, Longitude), x);
    AppendAssoc(first, [x], rest);
    AppendAssoc(login, first, [x] + rest);
  }

  /** Without the error dialog, a loaded attendance page follows the launch, the whole login, the
      new tab, the dialog handler and the geolocation. */
  lemma {:induction false} AttendanceLoadedLast(w: World, req: Request)
    requires !Missing(req.regNo) && !Missing(req.password) && w.errorDialog.None?
    requires Goto(AttendancePage, SubmitTimeout) in Expected(w, req).calls
    ensures [Launch] + LoginPlan(w, req.regNo.value, req.password.value) + [NewPage, OnDialogAccept, SetGeolocation(Latitude, Longitude)]
      <= Expected(w, req).calls
  {
    var regNo := req.regNo.value;
    var login := LoginPlan(w, regNo, req.password.value);
    var x := Goto(AttendancePage, SubmitTimeout);
    AppendAssoc([Launch], login, [NewPage, OnDialogAccept, SetGeolocation(Latitude, Longitude)]);
    AttendancePlanSplit(w, regNo, req.password.value, req.email);
    RouteReaches(w, req, login, OpenAttendancePlan, SuccessSubject, SuccessMessage,
                 login + [NewPage, OnDialogAccept, SetGeolocation(Latitude, Longitude)],
                 [x] + (MarkPlan + FinishPlan(req.email, regNo, SuccessSubject)), x);
  }

  /** The attendance page is only loaded after the whole login, the new tab, the dialog handler
      and the geolocation, in that order. */
  lemma {:induction false} DialogHandlerBeforeNavigation(w: World, req: Request)
    requires !Missing(req.regNo) && !Missing(req.password)
    ensures var calls := Expected(w, req).calls;
      Goto(AttendancePage, SubmitTimeout) in calls ==>
        [Launch] + LoginPlan(w, req.regNo.value, req.password.value) + [NewPage, OnDialogAccept, SetGeolocation(Latitude, Longitude)] <= calls
  {
    if w.errorDialog.Some? {
      NoAttendanceOnDialog(w, req);
    } else if Goto(AttendancePage, SubmitTimeout) in Expected(w, req).calls {
      AttendanceLoadedLast(w, req);
    }
  }

  /** Without the error dialog the plan clicks the mark button right after the login, the opening
      of the attendance page and the three marking steps, and nothing before clicks it. */
  lemma MarkPlanSplit(w: World, regNo: string, password: string, to: Option<string>)
    requires w.errorDialog.None?
    ensures var x := Click(MarkButton);
      var login := LoginPlan(w, regNo, password);
      var marking := [WaitForSelector(Dropdown, FieldTimeout), SelectValue(Dropdown, Present), WaitForSelector(MarkButton, FieldTimeout)];
      && RoutePlan(w, login, OpenAttendancePlan, regNo, to, SuccessSubject)
           == (login + OpenAttendancePlan + marking) + ([x] + FinishPlan(to, regNo, SuccessSubject))
      && x !in login + OpenAttendancePlan + marking
  {
    var x := Click(MarkButton);
    var login := LoginPlan(w, regNo, password);
    var marking := [WaitForSelector(Dropdown, FieldTimeout), SelectValue(Dropdown, Present), WaitForSelector(MarkButton, FieldTimeout)];
    var finish := FinishPlan(to, regNo, SuccessSubject);
    SplitLast4(marking[0], marking[1], marking[2], x);
    AppendAssoc(marking, [x], finish);
    AppendAssoc(OpenAttendancePlan, marking, [x] + finish);
    AppendAssoc(login, OpenAttendancePlan + marking, [x] + finish);
    AppendAssoc(login, OpenAttendancePlan, marking);
  }

  /** The dropdown is set to Present, and the mark button waited for, before the button is
      clicked, all after the attendance page was opened. */
  lemma {:induction false} MarkedInOrder(w: World, req: Request)
    requires !Missing(req.regNo) && !Missing(req.password) && w.errorDialog.None?
    requires Click(MarkButton) in Expected(w, req).calls
    ensures [Launch] + LoginPlan(w, req.regNo.value, req.password.value) + OpenAttendancePlan
          + [WaitForSelector(Dropdown, FieldTimeout), SelectValue(Dropdown, Present), WaitForSelector(MarkButton, FieldTimeout)]
      <= Expected(w, req).calls
  {
    var regNo := req.regNo.value;
    var login := LoginPlan(w, regNo, req.password.value);
    var marking := [WaitForSelector(Dropdown, FieldTimeout), SelectValue(Dropdown, Present), WaitForSelector(MarkButton, FieldTimeout)];
    AppendAssoc4([Launch], login, OpenAttendancePlan, marking);
    MarkPlanSplit(w, regNo, req.password.value, req.email);
    RouteReaches(w, req, login, OpenAttendancePlan, SuccessSubject, SuccessMessage,
                 login + OpenAttendancePlan + marking, [Click(MarkButton)] + FinishPlan(req.email, regNo, SuccessSubject), Click(MarkButton));
  }

  /** The only failure the route swallows is the wait after submitting the registration number,
      the seventh planned step; the wait for the password field follows it. */
  lemma {:induction false} OnlyRefreshSwallowed(w: World, req: Request)
    requires !Missing(req.regNo) && !Missing(req.password)
    ensures var p := PlanOf(w, req);
      && (forall j :: 0 <= j < |p| ==> (Swallowed(p[j]) <==> j == 6))
      && p[7] == WaitForSelector(PasswordField, FieldTimeout)
  {
    var regNo := req.regNo.value;
    var after := AfterLogin(w, OpenAttendancePlan, regNo, req.email, SuccessSubject);
    var rest := PasswordPlan(req.password.value) + SubmitPlan + after;
    assert PlanOf(w, req) == ConnectPlan(regNo) + rest;
    assert NoneSwallowed(rest);
    OneSwallowedStep(regNo, rest);
  }

  /** Every answer is 400, 401, 500 or 200; 401 only with the error dialog and 200 only without. */
  lemma {:induction false} Statuses(w: World, req: Request)
    ensures Expected(w, req).outcome.Responded? ==>
      var status := Expected(w, req).outcome.response.status;
      && (status == 400 || status == 401 || status == 500 || status == 200)
      && (status == 401 ==> w.errorDialog.Some?)
      && (status == 200 ==> w.errorDialog.None?)
  {
    RouteStatuses(w, req, LoginPlan(w, Field(req.regNo), Field(req.password)), OpenAttendancePlan, SuccessSubject, SuccessMessage);
  }

  /** If only the closing notification mail throws, a second, failure mail follows it. */
  lemma {:induction false} NotificationFailureMailed(w: World, req: Request)
    requires !Missing(req.regNo) && !Missing(req.password) && ResultAt(w, Launch, 0).None?
    requires Run(w, PlanOf(w, req), 1).thrown.Some? && |Run(w, PlanOf(w, req), 1).calls| == |PlanOf(w, req)|
    ensures EmailsIn(Expected(w, req).calls)
      == [if w.errorDialog.Some? then ErrorEmail(req.email, req.regNo.value, InvalidCredentials)
          else SuccessEmail(req.email, req.regNo.value, SuccessSubject),
          ErrorEmail(req.email, req.regNo.value, ErrorText(Run(w, PlanOf(w, req), 1).thrown.value))]
  {
    PlansQuiet(w, req.regNo.value, req.password.value);
    NotificationFails(w, req, LoginPlan(w, req.regNo.value, req.password.value), OpenAttendancePlan, SuccessSubject, SuccessMessage);
  }
}
