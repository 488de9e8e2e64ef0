// What the two attendance routes share: the browser session they drive, the emails they send,
// and the try / catch / finally frame around their steps.
//
// Every awaited browser call is one entry of a call log. Whether the call at a given position
// of the log throws, and what it throws, is decided by an oracle; the error-dialog probe and the
// secret key are fixed by the world the request runs in.

module Automation {
  import opened Wrappers
  import Crypto
  import opened Seqs

  // ---------------------------------------------------------------------------------------------
  // Values

  /** What a failing step throws: an Error with a message, or some other value. */
  datatype Thrown = ErrorObject(message: string) | NonError

  /** The text the catch block puts in its email. */
  function ErrorText(t: Thrown): (m: string)
    ensures t.ErrorObject? ==> m == t.message
    ensures t.NonError? ==> m == UnknownError
  {
    match t
    case ErrorObject(message) => message
    case NonError => UnknownError
  }

  const UnknownError := "Unknown error"

  datatype Status = SuccessStatus | ErrorStatus

  /** An email as the handler hands it to the mailer: recipient, subject and the fields of the
      attendance template. */
  datatype Email = Email(to: Option<string>, subject: string, regNo: string, status: Status, message: Option<string>)

  const FailedSubject := "Failed to mark attendance"
  const InvalidCredentials := "Invalid credentials"

  function ErrorEmail(to: Option<string>, regNo: string, message: string): Email {
    Email(to, FailedSubject, regNo, ErrorStatus, Some(message))
  }

  function SuccessEmail(to: Option<string>, regNo: string, subject: string): Email {
    Email(to, subject, regNo, SuccessStatus, None)
  }

  /** The external calls the handlers make, with the arguments that distinguish them.
      Coordinates are in ten-millionths of a degree. */
  datatype Call =
    | Launch
    | OverridePermissions(origin: string)
    | NewPage
    | Goto(page: Page, timeout: nat)
    | TypeInto(element: Element, text: string, delay: nat)
    | Focus(element: Element)
    | Click(element: Element)
    | WaitForNavigation(timeout: nat)
    | WaitForSelector(element: Element, timeout: nat)
    | ClickAndWaitForNavigation(element: Element, timeout: nat)
    | QuerySelector(element: Element)
    | ReadTextContent
    | DecryptPassword(encrypted: string)
    | OnDialogAccept
    | SetGeolocation(latitude: int, longitude: int)
    | SelectValue(element: Element, value: string)
    | Close
    | SendEmail(email: Email)

  const Origin := "https://ums.lpu.in"

  /** The two pages of the university portal the handlers navigate to. */
  datatype Page = LoginPage | AttendancePage

  function Url(p: Page): string {
    match p
    case LoginPage => "https://ums.lpu.in/lpuums/default3.aspx"
    case AttendancePage => "https://ums.lpu.in/lpuums/frmMarkOJTAttendance.aspx"
  }

  /** The page elements the handlers address, each by a fixed CSS selector. */
  datatype Element = UserField | LoginButton | PasswordField | ErrorDialog | Dropdown | MarkButton

  function Selector(e: Element): string {
    match e
    case UserField => "#txtU"
    case LoginButton => "#iBtnLogins150203125"
    case PasswordField => "#TxtpwdAutoId_8767"
    case ErrorDialog => "#swal2-html-container"
    case Dropdown => "#ctl00_cphHeading_Repeater1_ctl00_drpdwnAttendance"
    case MarkButton => "#ctl00_cphHeading_Repeater1_ctl00_btnMarkAtt"
  }

  const Present := "P"
  const LoginTimeout: nat := 60000
  const RefreshTimeout: nat := 10000
  const FieldTimeout: nat := 10000
  const SubmitTimeout: nat := 30000
  const TypingDelay: nat := 100
  const Latitude := 129033318
  const Longitude := 775856633

  datatype Body =
    | ErrorBody(error: string)
    | CredentialsBody(error: string, details: string)
    | MessageBody(message: string)

  datatype Response = Response(status: int, body: Body)

  /** How the handler ends: with a response, or by letting an exception escape. */
  datatype Outcome = Responded(response: Response) | Raised(thrown: Thrown)

  const RequiredMessage := "Registration number and password are required"
  const BadRequest := Response(400, ErrorBody(RequiredMessage))
  const ServerError := Response(500, MessageBody("An error occurred"))

  function CredentialsRejected(details: string): Response {
    Response(401, CredentialsBody(InvalidCredentials, details))
  }

  /** The fields of the JSON body; None stands for a field that is absent or null. */
  datatype Request = Request(regNo: Option<string>, password: Option<string>, email: Option<string>)

  /** `!field`: absent or the empty string. */
  predicate Missing(field: Option<string>) {
    field.None? || field.value == ""
  }

  /** The world a request runs in: which call of the log throws, what the error-dialog probe finds
      (its text content when present), and what `decrypt` returns for each stored secret. */
  datatype World = World(fails: nat -> Option<Thrown>, errorDialog: Option<string>,
                         decrypt: string -> Result<string, Crypto.CryptoError>)

  /** The world's `decrypt` is the one of lib/crypto.ts under the secret key `key` and the AES
      decipher `decipher`. */
  ghost predicate DecryptsWith(w: World, key: seq<Crypto.byte>, decipher: Crypto.Decipher) {
    forall e :: w.decrypt(e) == Crypto.Decrypt(key, e, decipher)
  }

  /** What the call at position `pos` of the log throws. Registering a dialog handler cannot fail,
      and decryption fails exactly when the framed secret does not decrypt. */
  function ResultAt(w: World, c: Call, pos: nat): Option<Thrown> {
    if c.OnDialogAccept? then None
    else if c.DecryptPassword? then DecryptFailure(w, c.encrypted)
    else w.fails(pos)
  }

  /** What `decrypt` throws on the framed secret: an Error with the runtime's message. */
  function DecryptFailure(w: World, encrypted: string): (r: Option<Thrown>)
    ensures r.None? <==> w.decrypt(encrypted).Success?
    ensures r.Some? ==> r.value == ErrorObject(Crypto.CryptoMessage(w.decrypt(encrypted).error))
  {
    match w.decrypt(encrypted)
    case Success(_) => None
    case Failure(e) => Some(ErrorObject(Crypto.CryptoMessage(e)))
  }

  /** The one failure the handlers swallow: the navigation wait after submitting the user name. */
  predicate Swallowed(c: Call) {
    c == WaitForNavigation(RefreshTimeout)
  }

  predicate Aborts(w: World, c: Call, pos: nat) {
    ResultAt(w, c, pos).Some? && !Swallowed(c)
  }

  // ---------------------------------------------------------------------------------------------
  // The try block as a plan

  /** The calls a run made and, if it was cut short, what was thrown. */
  datatype Trace = Trace(calls: seq<Call>, thrown: Option<Thrown>)

  /** Running the straight-line steps `plan` with the first at log position `pos`: the steps run in
      order, and the first failure that is not swallowed ends the run with that failure. */
  function Run(w: World, plan: seq<Call>, pos: nat): (r: Trace)
    ensures |r.calls| <= |plan|
    ensures r.thrown.None? ==> r.calls == plan
    decreases |plan|
  {
    if plan == [] then Trace([], None)
    else if Aborts(w, plan[0], pos) then Trace([plan[0]], ResultAt(w, plan[0], pos))
    else
      var rest := Run(w, plan[1..], pos + 1);
      Trace([plan[0]] + rest.calls, rest.thrown)
  }

  /** A run makes the planned calls in order: its log is a prefix of the plan. */
  lemma {:induction false} RunPrefix(w: World, plan: seq<Call>, pos: nat)
    ensures Run(w, plan, pos).calls <= plan
    decreases |plan|
  {
    if plan != [] && !Aborts(w, plan[0], pos) {
      RunPrefix(w, plan[1..], pos + 1);
      HeadTail(plan);
    }
  }

  /** A run cut short ends at a step that aborts, with what that step threw. */
  lemma {:induction false} RunEndsAtAbort(w: World, plan: seq<Call>, pos: nat)
    ensures var r := Run(w, plan, pos);
      r.thrown.Some? ==>
        (r.calls != [] && Aborts(w, plan[|r.calls| - 1], pos + |r.calls| - 1)
         && r.thrown == ResultAt(w, plan[|r.calls| - 1], pos + |r.calls| - 1))
    decreases |plan|
  {
    if plan == [] {
    } else if Aborts(w, plan[0], pos) {
      assert Run(w, plan, pos) == Trace([plan[0]], ResultAt(w, plan[0], pos));
    } else {
      var rest := Run(w, plan[1..], pos + 1);
      assert Run(w, plan, pos) == Trace([plan[0]] + rest.calls, rest.thrown);
      RunEndsAtAbort(w, plan[1..], pos + 1);
      if rest.thrown.Some? {
        assert plan[1..][|rest.calls| - 1] == plan[|rest.calls|];
      }
    }
  }

  /** Every step a run made before its last, and every step of a run that was not cut short,
      either succeeded or had its failure swallowed. */
  lemma {:induction false} RunCleanBefore(w: World, plan: seq<Call>, pos: nat, j: nat)
    requires var r := Run(w, plan, pos); j < |r.calls| && (r.thrown.None? || j < |r.calls| - 1)
    ensures !Aborts(w, plan[j], pos + j)
    decreases j
  {
    if j > 0 {
      assert plan != [] && !Aborts(w, plan[0], pos);
      var rest := Run(w, plan[1..], pos + 1);
      assert Run(w, plan, pos) == Trace([plan[0]] + rest.calls, rest.thrown);
      RunCleanBefore(w, plan[1..], pos + 1, j - 1);
      assert plan[1..][j - 1] == plan[j];
    }
  }

  /** A run is not cut short exactly when no planned step aborts. */
  lemma {:induction false} RunCompletes(w: World, plan: seq<Call>, pos: nat)
    ensures Run(w, plan, pos).thrown.None? <==> forall j :: 0 <= j < |plan| ==> !Aborts(w, plan[j], pos + j)
    decreases |plan|
  {
    if plan == [] {
    } else if Aborts(w, plan[0], pos) {
      assert Run(w, plan, pos) == Trace([plan[0]], ResultAt(w, plan[0], pos));
      assert Aborts(w, plan[0], pos + 0);
    } else {
      var tail := plan[1..];
      var rest := Run(w, tail, pos + 1);
      assert Run(w, plan, pos) == Trace([plan[0]] + rest.calls, rest.thrown);
      RunCompletes(w, tail, pos + 1);
      if rest.thrown.None? {
        forall j | 0 <= j < |plan| ensures !Aborts(w, plan[j], pos + j) {
          if j > 0 {
            assert plan[j] == tail[j - 1];
          }
        }
      } else {
        var j :| 0 <= j < |tail| && Aborts(w, tail[j], pos + 1 + j);
        assert plan[j + 1] == tail[j];
        assert Aborts(w, plan[j + 1], pos + (j + 1));
      }
    }
  }

  /** A plan of two parts runs the first part and, if that was not cut short, the second. */
  lemma {:induction false} RunAppend(w: World, a: seq<Call>, b: seq<Call>, pos: nat)
    ensures Run(w, a + b, pos) ==
      if Run(w, a, pos).thrown.Some? then Run(w, a, pos)
      else Trace(a + Run(w, b, pos + |a|).calls, Run(w, b, pos + |a|).thrown)
    decreases |a|
  {
    if a == [] {
      assert a + b == b;
    } else {
      AppendFront(a, b);
      if !Aborts(w, a[0], pos) {
        var tail := Run(w, a[1..] + b, pos + 1);
        assert Run(w, a + b, pos) == Trace([a[0]] + tail.calls, tail.thrown);
        RunAppend(w, a[1..], b, pos + 1);
        var rb := Run(w, b, pos + |a|);
        if Run(w, a[1..], pos + 1).thrown.None? {
          assert tail.calls == a[1..] + rb.calls;
          AppendAssoc([a[0]], a[1..], rb.calls);
          HeadTail(a);
        }
      }
    }
  }

  /** A step a run made that occurs nowhere among the first `k` planned steps lies at or after
      position `k`: the run made those `k` steps, and none of them aborted. */
  lemma {:induction false} RunReaches(w: World, plan: seq<Call>, pos: nat, x: Call, k: nat)
    requires k <= |plan| && x in Run(w, plan, pos).calls && x !in plan[..k]
    ensures plan[..k] <= Run(w, plan, pos).calls
    ensures forall j :: 0 <= j < k ==> !Aborts(w, plan[j], pos + j)
  {
    var r := Run(w, plan, pos);
    RunPrefix(w, plan, pos);
    RunEndsAtAbort(w, plan, pos);
    var i :| 0 <= i < |r.calls| && r.calls[i] == x;
    assert plan[i] == x;
    assert r.calls[..k] == plan[..k];
    forall j | 0 <= j < k
      ensures !Aborts(w, plan[j], pos + j)
    {
      RunCleanBefore(w, plan, pos, j);
    }
  }

  /** A step a run made that is not among the front steps of its plan was made after all of them,
      none of which aborted. */
  lemma {:induction false} RunPastFront(w: World, front: seq<Call>, back: seq<Call>, pos: nat, x: Call)
    requires x in Run(w, front + back, pos).calls && x !in front
    ensures front <= Run(w, front + back, pos).calls
    ensures forall j :: 0 <= j < |front| ==> !Aborts(w, front[j], pos + j)
    ensures x in back
  {
    var tf := Run(w, front, pos);
    RunAppend(w, front, back, pos);
    if tf.thrown.Some? {
      RunPrefix(w, front, pos);
      InPrefix(x, tf.calls, front);
    } else {
      var tb := Run(w, back, pos + |front|);
      assert Run(w, front + back, pos).calls == front + tb.calls;
      PrefixOfAppend(front, tb.calls);
      InBack(x, front, tb.calls, Run(w, front + back, pos).calls);
      RunPrefix(w, back, pos + |front|);
      InPrefix(x, tb.calls, back);
      RunCompletes(w, front, pos);
    }
  }

  /** How the try block completes: normally with its response, or with an exception. */
  datatype Completion = Normal(response: Response) | Threw(thrown: Thrown)

  function Completes(t: Trace, done: Response): Completion {
    match t.thrown
    case None => Normal(done)
    case Some(e) => Threw(e)
  }

  /** `log` extends `before` by running `piece` from the end of `before`, with `thrown` as the result. */
  predicate Ran(w: World, before: seq<Call>, log: seq<Call>, piece: seq<Call>, thrown: Option<Thrown>) {
    var t := Run(w, piece, |before|);
    log == before + t.calls && thrown == t.thrown
  }

  /** A piece run to its end followed by another piece is a run of the two together. */
  lemma {:induction false} RanThen(w: World, c0: seq<Call>, c1: seq<Call>, c2: seq<Call>, a: seq<Call>, b: seq<Call>, thrown: Option<Thrown>)
    requires Ran(w, c0, c1, a, None) && Ran(w, c1, c2, b, thrown)
    ensures Ran(w, c0, c2, a + b, thrown)
  {
    var ta := Run(w, a, |c0|);
    var tb := Run(w, b, |c1|);
    assert ta.calls == a;
    assert |c1| == |c0| + |a|;
    RunAppend(w, a, b, |c0|);
    assert Run(w, a + b, |c0|) == Trace(a + tb.calls, tb.thrown);
    assert c2 == (c0 + a) + tb.calls;
    AppendAssoc(c0, a, tb.calls);
  }

  /** A piece cut short is a run of that piece followed by anything. */
  lemma {:induction false} RanStopped(w: World, c0: seq<Call>, c1: seq<Call>, a: seq<Call>, b: seq<Call>, thrown: Option<Thrown>)
    requires Ran(w, c0, c1, a, thrown) && thrown.Some?
    ensures Ran(w, c0, c1, a + b, thrown)
  {
    RunAppend(w, a, b, |c0|);
  }

  // The pieces of the try block that both routes share.

  /** Open the login page. */
  const OpenLoginPlan := [OverridePermissions(Origin), NewPage, Goto(LoginPage, LoginTimeout)]

  /** Type the registration number and press the login button. */
  function TypeUserPlan(regNo: string): seq<Call> {
    [TypeInto(UserField, regNo, TypingDelay), Focus(UserField), Click(LoginButton)]
  }

  /** Let the page settle, a wait whose failure is swallowed, then wait for the password field. */
  const SettlePlan := [WaitForNavigation(RefreshTimeout), WaitForSelector(PasswordField, FieldTimeout)]

  /** Submit the registration number and wait for the password field. */
  function EnterUserPlan(regNo: string): seq<Call> {
    TypeUserPlan(regNo) + SettlePlan
  }

  /** Everything before the password is typed. */
  function ConnectPlan(regNo: string): seq<Call> {
    OpenLoginPlan + EnterUserPlan(regNo)
  }

  /** Submit the password and probe for the error dialog. */
  const SubmitPlan := [ClickAndWaitForNavigation(LoginButton, SubmitTimeout), QuerySelector(ErrorDialog)]

  /** When the error dialog is found: read its text, close the browser, mail the failure. */
  function DialogPlan(to: Option<string>, regNo: string): seq<Call> {
    [ReadTextContent, Close, SendEmail(ErrorEmail(to, regNo, InvalidCredentials))]
  }

  /** On the attendance page: wait for the dropdown, choose Present, wait for the button, click it. */
  const MarkPlan := [WaitForSelector(Dropdown, FieldTimeout), SelectValue(Dropdown, Present),
                     WaitForSelector(MarkButton, FieldTimeout), Click(MarkButton)]

  /** Close the browser and mail the success. */
  function FinishPlan(to: Option<string>, regNo: string, subject: string): seq<Call> {
    [Close, SendEmail(SuccessEmail(to, regNo, subject))]
  }

  // ---------------------------------------------------------------------------------------------
  // The whole handler after validation

  datatype Handling = Handling(calls: seq<Call>, outcome: Outcome)

  /** `finally`: the browser is closed once more, and a failing close replaces the outcome. */
  function Finally(w: World, log: seq<Call>, pending: Outcome): (h: Handling)
    ensures h.calls == log + [Close]
  {
    var r := ResultAt(w, Close, |log|);
    Handling(log + [Close], if r.Some? then Raised(r.value) else pending)
  }

  /** `catch` and `finally` after a try block that left the log `log`: an exception has its message
      mailed and is answered 500 (or escapes, when the mail throws); then the browser is closed. */
  function CatchFinally(w: World, log: seq<Call>, completion: Completion, regNo: string, to: Option<string>): (h: Handling)
    ensures h.calls != [] && h.calls[|h.calls| - 1] == Close
  {
    match completion
    case Normal(response) => Finally(w, log, Responded(response))
    case Threw(e) =>
      var mail := SendEmail(ErrorEmail(to, regNo, ErrorText(e)));
      var sent := ResultAt(w, mail, |log|);
      Finally(w, log + [mail], if sent.Some? then Raised(sent.value) else Responded(ServerError))
  }

  /** A validated request: launch outside the `try`, run the planned try block, then `catch` and
      `finally`. */
  function Handle(w: World, plan: seq<Call>, done: Response, regNo: string, to: Option<string>): Handling {
    var launch := ResultAt(w, Launch, 0);
    if launch.Some? then Handling([Launch], Raised(launch.value))
    else
      var t := Run(w, plan, 1);
      CatchFinally(w, [Launch] + t.calls, Completes(t, done), regNo, to)
  }

  /** The launch failure escapes before the `try`, so nothing else happens. */
  lemma {:induction false} LaunchFailureEscapes(w: World, plan: seq<Call>, done: Response, regNo: string, to: Option<string>)
    requires ResultAt(w, Launch, 0).Some?
    ensures Handle(w, plan, done, regNo, to) == Handling([Launch], Raised(ResultAt(w, Launch, 0).value))
  {
  }

  /** After a successful launch, the log starts with the launch, runs the plan up to its first
      unswallowed failure, and then holds only the catch block's email (after a failure) and the
      final close. */
  lemma {:induction false} HandleShape(w: World, plan: seq<Call>, done: Response, regNo: string, to: Option<string>)
    requires ResultAt(w, Launch, 0).None?
    ensures var h := Handle(w, plan, done, regNo, to); var t := Run(w, plan, 1);
      && (t.thrown.None? ==> h.calls == [Launch] + plan + [Close])
      && (t.thrown.Some? ==> h.calls == [Launch] + t.calls + [SendEmail(ErrorEmail(to, regNo, ErrorText(t.thrown.value))), Close])
      && h.calls[0] == Launch && h.calls[|h.calls| - 1] == Close
  {
  }

  /** Which outcome a launched request gets. */
  lemma {:induction false} HandleOutcome(w: World, plan: seq<Call>, done: Response, regNo: string, to: Option<string>)
    requires ResultAt(w, Launch, 0).None?
    ensures var h := Handle(w, plan, done, regNo, to); var t := Run(w, plan, 1);
      var closed := ResultAt(w, Close, |h.calls| - 1);
      && (closed.Some? ==> h.outcome == Raised(closed.value))
      && (closed.None? && t.thrown.None? ==> h.outcome == Responded(done))
      && (closed.None? && t.thrown.Some? ==>
            var sent := ResultAt(w, h.calls[|h.calls| - 2], |h.calls| - 2);
            h.outcome == if sent.Some? then Raised(sent.value) else Responded(ServerError))
  {
    var t := Run(w, plan, 1);
    CatchFinallyOutcome(w, [Launch] + t.calls, Completes(t, done), regNo, to);
  }

  /** Which outcome the catch and finally blocks give after a try block that ended with `completion`. */
  lemma {:induction false} CatchFinallyOutcome(w: World, log: seq<Call>, completion: Completion, regNo: string, to: Option<string>)
    ensures var h := CatchFinally(w, log, completion, regNo, to);
      var closed := ResultAt(w, Close, |h.calls| - 1);
      && |h.calls| >= |log| + 1
      && (closed.Some? ==> h.outcome == Raised(closed.value))
      && (closed.None? && completion.Normal? ==> h.outcome == Responded(completion.response))
      && (closed.None? && completion.Threw? ==>
            |h.calls| == |log| + 2 &&
            var sent := ResultAt(w, h.calls[|h.calls| - 2], |h.calls| - 2);
            h.outcome == if sent.Some? then Raised(sent.value) else Responded(ServerError))
  {
    if completion.Threw? {
      var mail := SendEmail(ErrorEmail(to, regNo, ErrorText(completion.thrown)));
      assert ((log + [mail]) + [Close])[|log|] == mail;
    }
  }

  // ---------------------------------------------------------------------------------------------
  // Logs

  /** The emails a log sends, in order. */
  function EmailsIn(log: seq<Call>): seq<Email> {
    if log == [] then []
    else EmailsIn(log[..|log| - 1]) + (if log[|log| - 1].SendEmail? then [log[|log| - 1].email] else [])
  }

  /** How many times a log closes the browser. */
  function CloseCount(log: seq<Call>): nat {
    if log == [] then 0
    else CloseCount(log[..|log| - 1]) + (if log[|log| - 1].Close? then 1 else 0)
  }

  /** Whether the browser is open after a log: a launch that succeeded and no close since that
      succeeded. */
  function IsOpen(w: World, log: seq<Call>): bool {
    if log == [] then false
    else
      var k := |log| - 1;
      if log[k].Launch? then ResultAt(w, Launch, k).None?
      else if log[k].Close? && ResultAt(w, Close, k).None? then false
      else IsOpen(w, log[..k])
  }

  /** One more call extends the email log and the close count by that call, and sets whether the
      browser is open when it launches or closes it. */
  lemma {:induction false} LogStep(w: World, log: seq<Call>, c: Call)
    ensures EmailsIn(log + [c]) == EmailsIn(log) + (if c.SendEmail? then [c.email] else [])
    ensures CloseCount(log + [c]) == CloseCount(log) + (if c.Close? then 1 else 0)
    ensures IsOpen(w, log + [c]) ==
      if c.Launch? then ResultAt(w, Launch, |log|).None?
      else if c.Close? && ResultAt(w, Close, |log|).None? then false
      else IsOpen(w, log)
  {
    AppendTake(log, [c]);
  }

  lemma {:induction false} LogAppend(a: seq<Call>, b: seq<Call>)
    ensures EmailsIn(a + b) == EmailsIn(a) + EmailsIn(b)
    ensures CloseCount(a + b) == CloseCount(a) + CloseCount(b)
    decreases |b|
  {
    if b == [] {
      assert a + b == a;
    } else {
      var k := |b| - 1;
      AppendBack(a, b);
      LogAppend(a, b[..k]);
    }
  }

  /** A log that neither mails nor closes contributes nothing to either log. */
  lemma {:induction false} QuietLog(log: seq<Call>)
    requires forall c :: c in log ==> !c.SendEmail? && !c.Close?
    ensures EmailsIn(log) == [] && CloseCount(log) == 0
    decreases |log|
  {
    if log != [] {
      var k := |log| - 1;
      forall c | c in log[..k] ensures !c.SendEmail? && !c.Close? {
        InPrefix(c, log[..k], log);
      }
      QuietLog(log[..k]);
    }
  }

  lemma {:induction false} CloseCountPrefix(a: seq<Call>, b: seq<Call>)
    requires a <= b
    ensures CloseCount(a) <= CloseCount(b)
    decreases |b|
  {
    if |a| < |b| {
      var k := |b| - 1;
      assert a <= b[..k];
      CloseCountPrefix(a, b[..k]);
    } else {
      assert a == b;
    }
  }

  /** The logs of a launched request: the emails and closes of the planned calls it made, the
      catch block's mail after a failure, and the final close, after which the browser is shut
      when that close succeeds. */
  lemma {:induction false} HandleLogs(w: World, plan: seq<Call>, done: Response, regNo: string, to: Option<string>)
    requires ResultAt(w, Launch, 0).None?
    ensures var h := Handle(w, plan, done, regNo, to); var t := Run(w, plan, 1);
      && EmailsIn(h.calls) == EmailsIn(t.calls) + (if t.thrown.Some? then [ErrorEmail(to, regNo, ErrorText(t.thrown.value))] else [])
      && CloseCount(h.calls) == CloseCount(t.calls) + 1
      && (ResultAt(w, Close, |h.calls| - 1).None? ==> !IsOpen(w, h.calls))
  {
    var t := Run(w, plan, 1);
    HandleShape(w, plan, done, regNo, to);
    if t.thrown.None? {
      LaunchedThenClosed(w, t.calls, [Close]);
      SingleLog(Close);
    } else {
      var mail := SendEmail(ErrorEmail(to, regNo, ErrorText(t.thrown.value)));
      LaunchedThenClosed(w, t.calls, [mail, Close]);
      MailThenClose(mail);
    }
  }

  /** A launched log that ends with a close: the logs of its parts, and a browser shut when that
      close succeeds. */
  lemma {:induction false} LaunchedThenClosed(w: World, made: seq<Call>, tail: seq<Call>)
    requires tail != [] && tail[|tail| - 1] == Close
    ensures var log := [Launch] + made + tail;
      && EmailsIn(log) == EmailsIn(made) + EmailsIn(tail)
      && CloseCount(log) == CloseCount(made) + CloseCount(tail)
      && (ResultAt(w, Close, |log| - 1).None? ==> !IsOpen(w, log))
  {
    var k := |tail| - 1;
    LaunchedLogs(made, tail);
    DropLast(tail);
    AppendAssoc([Launch] + made, tail[..k], [Close]);
    LogStep(w, [Launch] + made + tail[..k], Close);
  }

  /** The catch block's mail followed by the final close. */
  lemma {:induction false} MailThenClose(mail: Call)
    requires mail.SendEmail?
    ensures EmailsIn([mail, Close]) == [mail.email] && CloseCount([mail, Close]) == 1
  {
    SplitLast2(mail, Close);
    LogAppend([mail], [Close]);
    SingleLog(mail);
    SingleLog(Close);
  }

  /** A call other than the launch, a mail or a close appears in a handled request's log only as
      a step its try block made. */
  lemma {:induction false} MadeInTry(w: World, plan: seq<Call>, done: Response, regNo: string, to: Option<string>, x: Call)
    requires !x.Launch? && !x.SendEmail? && !x.Close?
    requires x in Handle(w, plan, done, regNo, to).calls
    ensures ResultAt(w, Launch, 0).None?
    ensures x in Run(w, plan, 1).calls
  {
    if ResultAt(w, Launch, 0).None? {
      HandleShape(w, plan, done, regNo, to);
    }
  }

  /** A call other than the launch, a mail or a close that is not planned never appears. */
  lemma {:induction false} UnplannedNotMade(w: World, plan: seq<Call>, done: Response, regNo: string, to: Option<string>, x: Call)
    requires !x.Launch? && !x.SendEmail? && !x.Close? && x !in plan
    ensures x !in Handle(w, plan, done, regNo, to).calls
  {
    if ResultAt(w, Launch, 0).None? {
      HandleShape(w, plan, done, regNo, to);
      RunPrefix(w, plan, 1);
    }
  }

  /** The steps a launched request's try block made follow the launch directly in its log. */
  lemma {:induction false} MadeAfterLaunch(w: World, plan: seq<Call>, done: Response, regNo: string, to: Option<string>, made: seq<Call>)
    requires ResultAt(w, Launch, 0).None? && made <= Run(w, plan, 1).calls
    ensures [Launch] + made <= Handle(w, plan, done, regNo, to).calls
  {
    HandleShape(w, plan, done, regNo, to);
    var t := Run(w, plan, 1);
    var h := Handle(w, plan, done, regNo, to);
    if t.thrown.None? {
      PrefixOfAppend([Launch] + t.calls, [Close]);
    } else {
      var mail := SendEmail(ErrorEmail(to, regNo, ErrorText(t.thrown.value)));
      PrefixOfAppend([Launch] + t.calls, [mail, Close]);
    }
    PrefixCons(Launch, made, t.calls);
    PrefixTrans([Launch] + made, [Launch] + t.calls, h.calls);
  }

  /** A try block cut short only at its last planned step: the whole plan's emails, then the
      catch block's, and a 500 answer exactly when that mail and the final close succeed. */
  lemma {:induction false} HandleLastStepFails(w: World, plan: seq<Call>, done: Response, regNo: string, to: Option<string>)
    requires ResultAt(w, Launch, 0).None?
    requires Run(w, plan, 1).thrown.Some? && |Run(w, plan, 1).calls| == |plan|
    ensures var h := Handle(w, plan, done, regNo, to);
      var mail := ErrorEmail(to, regNo, ErrorText(Run(w, plan, 1).thrown.value));
      && EmailsIn(h.calls) == EmailsIn(plan) + [mail]
      && (h.outcome == Responded(ServerError) <==>
            ResultAt(w, SendEmail(mail), |plan| + 1).None? && ResultAt(w, Close, |plan| + 2).None?)
  {
    var t := Run(w, plan, 1);
    RunPrefix(w, plan, 1);
    assert t.calls == plan;
    HandleShape(w, plan, done, regNo, to);
    HandleOutcome(w, plan, done, regNo, to);
    HandleLogs(w, plan, done, regNo, to);
  }

  // ---------------------------------------------------------------------------------------------
  // The browser session

  class Session {
    const world: World

    /** Every external call so far, in order. */
    var calls: seq<Call>
    /** Every email handed to the mailer. */
    var emails: seq<Email>
    /** How many times `browser.close` was called. */
    var closeCalls: nat
    /** Whether a launched browser is still open. */
    var open: bool

    // Bookkeeping for the proofs: the planned try block being run, how far it got, where it
    // started and how it is meant to end.
    ghost var plan: seq<Call>
    ghost var next: nat
    ghost var start: seq<Call>
    ghost var goal: Trace

    /** The email log, the close counter and the open flag agree with the call log. */
    ghost predicate Valid()
      reads this
    {
      emails == EmailsIn(calls) && closeCalls == CloseCount(calls) && open == IsOpen(world, calls)
    }

    /** Running the rest of the plan from here completes the run that began at `start`. */
    ghost predicate OnScript()
      reads this
    {
      && next <= |plan|
      && start + goal.calls == calls + Run(world, plan[next..], |calls|).calls
      && goal.thrown == Run(world, plan[next..], |calls|).thrown
    }

    constructor (world: World)
      ensures this.world == world
      ensures calls == [] && emails == [] && closeCalls == 0 && !open
      ensures Valid()
    {
      this.world := world;
      calls := [];
      emails := [];
      closeCalls := 0;
      open := false;
    }

    /** One external call: it is logged and gets the oracle's result. */
    method Invoke(c: Call) returns (result: Option<Thrown>)
      requires Valid()
      modifies this
      ensures Valid()
      ensures calls == old(calls) + [c]
      ensures result == ResultAt(world, c, |old(calls)|)
      ensures emails == old(emails) + (if c.SendEmail? then [c.email] else [])
      ensures closeCalls == old(closeCalls) + (if c.Close? then 1 else 0)
      ensures plan == old(plan) && next == old(next) && start == old(start) && goal == old(goal)
    {
      result := ResultAt(world, c, |calls|);
      LogStep(world, calls, c);
      var mailed := if c.SendEmail? then [c.email] else [];
      var closed := if c.Close? then 1 else 0;
      var stillOpen := if c.Launch? then result.None? else if c.Close? && result.None? then false else open;
      emails, closeCalls, open, calls := emails + mailed, closeCalls + closed, stillOpen, calls + [c];
    }

    /** Start following `p` as the plan of the try block. */
    ghost method Begin(p: seq<Call>)
      requires Valid()
      modifies this
      ensures Valid() && OnScript()
      ensures plan == p && next == 0 && start == calls && goal == Run(world, p, |calls|)
      ensures calls == old(calls) && emails == old(emails) && closeCalls == old(closeCalls) && open == old(open)
    {
      plan := p;
      next := 0;
      start := calls;
      goal := Run(world, p, |calls|);
      assert p[0..] == p;
    }

    /** The next planned step, one whose failure is not caught. If it throws, the run is over and
        the log is the planned one. */
    method Perform(c: Call) returns (result: Option<Thrown>)
      requires Valid() && OnScript() && next < |plan| && plan[next] == c && !Swallowed(c)
      modifies this
      ensures Valid()
      ensures calls == old(calls) + [c]
      ensures result == ResultAt(world, c, |old(calls)|)
      ensures plan == old(plan) && start == old(start) && goal == old(goal)
      ensures result.Some? ==> calls == start + goal.calls && goal.thrown == result
      ensures result.None? ==> OnScript() && next == old(next) + 1
    {
      var pos := |calls|;
      var rest := plan[next..];
      assert rest[0] == c && rest[1..] == plan[next + 1..];
      result := Invoke(c);
      if result.None? {
        assert calls + Run(world, plan[next + 1..], |calls|).calls
          == old(calls) + ([c] + Run(world, plan[next + 1..], |calls|).calls);
        next := next + 1;
      }
    }

    /** The next planned step, one whose failure is caught and ignored: the run goes on either way. */
    method PerformCaught(c: Call) returns (result: Option<Thrown>)
      requires Valid() && OnScript() && next < |plan| && plan[next] == c && Swallowed(c)
      modifies this
      ensures Valid()
      ensures calls == old(calls) + [c]
      ensures result == ResultAt(world, c, |old(calls)|)
      ensures plan == old(plan) && start == old(start) && goal == old(goal)
      ensures OnScript() && next == old(next) + 1
    {
      var rest := plan[next..];
      assert rest[0] == c && rest[1..] == plan[next + 1..];
      result := Invoke(c);
      assert calls + Run(world, plan[next + 1..], |calls|).calls
        == old(calls) + ([c] + Run(world, plan[next + 1..], |calls|).calls);
      next := next + 1;
    }

    /** The plan has run to its end without an abort. */
    lemma Finished()
      requires OnScript() && next == |plan|
      ensures calls == start + goal.calls && goal.thrown.None?
    {
      assert plan[next..] == [];
      assert calls + [] == calls;
    }
  }

  method OpenLoginSteps(env: Session) returns (thrown: Option<Thrown>)
    requires env.Valid()
    modifies env
    ensures env.Valid()
    ensures Ran(env.world, old(env.calls), env.calls, OpenLoginPlan, thrown)
  {
    env.Begin(OpenLoginPlan);
    thrown := env.Perform(OverridePermissions(Origin));
    if thrown.Some? { return; }
    thrown := env.Perform(NewPage);
    if thrown.Some? { return; }
    thrown := env.Perform(Goto(LoginPage, LoginTimeout));
    if thrown.Some? { return; }
    env.Finished();
  }

  method TypeUserSteps(env: Session, regNo: string) returns (thrown: Option<Thrown>)
    requires env.Valid()
    modifies env
    ensures env.Valid()
    ensures Ran(env.world, old(env.calls), env.calls, TypeUserPlan(regNo), thrown)
  {
    env.Begin(TypeUserPlan(regNo));
    thrown := env.Perform(TypeInto(UserField, regNo, TypingDelay));
    if thrown.Some? { return; }
    thrown := env.Perform(Focus(UserField));
    if thrown.Some? { return; }
    thrown := env.Perform(Click(LoginButton));
    if thrown.Some? { return; }
    env.Finished();
  }

  method SettleSteps(env: Session) returns (thrown: Option<Thrown>)
    requires env.Valid()
    modifies env
    ensures env.Valid()
    ensures Ran(env.world, old(env.calls), env.calls, SettlePlan, thrown)
  {
    env.Begin(SettlePlan);
    var settled := env.PerformCaught(WaitForNavigation(RefreshTimeout));  // a failure here is caught and ignored
    thrown := env.Perform(WaitForSelector(PasswordField, FieldTimeout));
    if thrown.Some? { return; }
    env.Finished();
  }

  method EnterUserSteps(env: Session, regNo: string) returns (thrown: Option<Thrown>)
    requires env.Valid()
    modifies env
    ensures env.Valid()
    ensures Ran(env.world, old(env.calls), env.calls, EnterUserPlan(regNo), thrown)
  {
    var c0 := env.calls;
    thrown := TypeUserSteps(env, regNo);
    if thrown.Some? {
      RanStopped(env.world, c0, env.calls, TypeUserPlan(regNo), SettlePlan, thrown);
      return;
    }
    var c1 := env.calls;
    thrown := SettleSteps(env);
    RanThen(env.world, c0, c1, env.calls, TypeUserPlan(regNo), SettlePlan, thrown);
  }

  method ConnectSteps(env: Session, regNo: string) returns (thrown: Option<Thrown>)
    requires env.Valid()
    modifies env
    ensures env.Valid()
    ensures Ran(env.world, old(env.calls), env.calls, ConnectPlan(regNo), thrown)
  {
    var c0 := env.calls;
    thrown := OpenLoginSteps(env);
    if thrown.Some? {
      RanStopped(env.world, c0, env.calls, OpenLoginPlan, EnterUserPlan(regNo), thrown);
      return;
    }
    var c1 := env.calls;
    thrown := EnterUserSteps(env, regNo);
    RanThen(env.world, c0, c1, env.calls, OpenLoginPlan, EnterUserPlan(regNo), thrown);
  }

  method SubmitSteps(env: Session) returns (thrown: Option<Thrown>)
    requires env.Valid()
    modifies env
    ensures env.Valid()
    ensures Ran(env.world, old(env.calls), env.calls, SubmitPlan, thrown)
  {
    env.Begin(SubmitPlan);
    thrown := env.Perform(ClickAndWaitForNavigation(LoginButton, SubmitTimeout));
    if thrown.Some? { return; }
    thrown := env.Perform(QuerySelector(ErrorDialog));
    if thrown.Some? { return; }
    env.Finished();
  }

  /** The error dialog was found: its text becomes the details of the 401 answer. */
  method DialogSteps(env: Session, regNo: string, to: Option<string>) returns (thrown: Option<Thrown>, details: string)
    requires env.Valid() && env.world.errorDialog.Some?
    modifies env
    ensures env.Valid()
    ensures Ran(env.world, old(env.calls), env.calls, DialogPlan(to, regNo), thrown)
    ensures details == env.world.errorDialog.value
  {
    details := env.world.errorDialog.value;
    env.Begin(DialogPlan(to, regNo));
    thrown := env.Perform(ReadTextContent);
    if thrown.Some? { return; }
    thrown := env.Perform(Close);
    if thrown.Some? { return; }
    thrown := env.Perform(SendEmail(ErrorEmail(to, regNo, InvalidCredentials)));
    if thrown.Some? { return; }
    env.Finished();
  }

  method MarkSteps(env: Session) returns (thrown: Option<Thrown>)
    requires env.Valid()
    modifies env
    ensures env.Valid()
    ensures Ran(env.world, old(env.calls), env.calls, MarkPlan, thrown)
  {
    env.Begin(MarkPlan);
    thrown := env.Perform(WaitForSelector(Dropdown, FieldTimeout));
    if thrown.Some? { return; }
    thrown := env.Perform(SelectValue(Dropdown, Present));
    if thrown.Some? { return; }
    thrown := env.Perform(WaitForSelector(MarkButton, FieldTimeout));
    if thrown.Some? { return; }
    thrown := env.Perform(Click(MarkButton));
    if thrown.Some? { return; }
    env.Finished();
  }

  method FinishSteps(env: Session, regNo: string, to: Option<string>, subject: string) returns (thrown: Option<Thrown>)
    requires env.Valid()
    modifies env
    ensures env.Valid()
    ensures Ran(env.world, old(env.calls), env.calls, FinishPlan(to, regNo, subject), thrown)
  {
    env.Begin(FinishPlan(to, regNo, subject));
    thrown := env.Perform(Close);
    if thrown.Some? { return; }
    thrown := env.Perform(SendEmail(SuccessEmail(to, regNo, subject)));
    if thrown.Some? { return; }
    env.Finished();
  }

  /** The attendance page after it is open: mark present, close the browser, mail the success. */
  method MarkAndFinishSteps(env: Session, regNo: string, to: Option<string>, subject: string) returns (thrown: Option<Thrown>)
    requires env.Valid()
    modifies env
    ensures env.Valid()
    ensures Ran(env.world, old(env.calls), env.calls, MarkPlan + FinishPlan(to, regNo, subject), thrown)
  {
    var c0 := env.calls;
    thrown := MarkSteps(env);
    if thrown.Some? {
      RanStopped(env.world, c0, env.calls, MarkPlan, FinishPlan(to, regNo, subject), thrown);
      return;
    }
    var c1 := env.calls;
    thrown := FinishSteps(env, regNo, to, subject);
    RanThen(env.world, c0, c1, env.calls, MarkPlan, FinishPlan(to, regNo, subject), thrown);
  }

  /** The catch and finally blocks, shared by both routes. */
  method Conclude(env: Session, completion: Completion, regNo: string, to: Option<string>) returns (outcome: Outcome)
    requires env.Valid()
    modifies env
    ensures env.Valid()
    ensures Handling(env.calls, outcome) == CatchFinally(env.world, old(env.calls), completion, regNo, to)
  {
    var pending: Outcome;
    match completion {
      case Normal(response) =>
        pending := Responded(response);
      case Threw(thrown) =>
        var sent := env.Invoke(SendEmail(ErrorEmail(to, regNo, ErrorText(thrown))));
        pending := if sent.Some? then Raised(sent.value) else Responded(ServerError);
    }
    var closed := env.Invoke(Close);
    outcome := if closed.Some? then Raised(closed.value) else pending;
  }
  // ---------------------------------------------------------------------------------------------
  // A whole route: validation, then the login plan, then the dialog branch or the attendance page

  /** What follows the error-dialog probe: the dialog branch, or the attendance page opened by
      `open`, marked present, then the explicit close and the success mail with `subject`. */
  function AfterLogin(w: World, open: seq<Call>, regNo: string, to: Option<string>, subject: string): seq<Call> {
    if w.errorDialog.Some? then DialogPlan(to, regNo)
    else open + (MarkPlan + FinishPlan(to, regNo, subject))
  }

  function RoutePlan(w: World, login: seq<Call>, open: seq<Call>, regNo: string, to: Option<string>, subject: string): seq<Call> {
    login + AfterLogin(w, open, regNo, to, subject)
  }

  /** The answer of a try block that ran to its end: 401 with the dialog's text, or 200. */
  function RouteDone(w: World, message: string): Response {
    if w.errorDialog.Some? then CredentialsRejected(w.errorDialog.value) else Response(200, MessageBody(message))
  }

  /** The reference behaviour of a route whose login steps are `login` and whose attendance page
      is opened by `open`. */
  function Route(w: World, req: Request, login: seq<Call>, open: seq<Call>, subject: string, message: string): (h: Handling)
    ensures h.calls == [] <==> Missing(req.regNo) || Missing(req.password)
    ensures h.calls == [] ==> h.outcome == Responded(BadRequest)
  {
    if Missing(req.regNo) || Missing(req.password) then Handling([], Responded(BadRequest))
    else Handle(w, RoutePlan(w, login, open, req.regNo.value, req.email, subject), RouteDone(w, message),
                req.regNo.value, req.email)
  }

  /** Steps that neither mail nor close the browser. */
  ghost predicate Quiet(s: seq<Call>) {
    forall c :: c in s ==> !c.SendEmail? && !c.Close?
  }

  lemma MarkPlanQuiet()
    ensures Quiet(MarkPlan)
    ensures Goto(AttendancePage, SubmitTimeout) !in MarkPlan
  {
  }

  /** A single call's contribution to the logs. */
  lemma {:induction false} SingleLog(c: Call)
    ensures EmailsIn([c]) == (if c.SendEmail? then [c.email] else [])
    ensures CloseCount([c]) == (if c.Close? then 1 else 0)
  {
    assert [c][..0] == [];
  }

  lemma {:induction false} DialogPlanLogs(to: Option<string>, regNo: string)
    ensures CloseCount(DialogPlan(to, regNo)) == 1
    ensures EmailsIn(DialogPlan(to, regNo)) == [ErrorEmail(to, regNo, InvalidCredentials)]
  {
    var d := DialogPlan(to, regNo);
    assert d == [ReadTextContent] + ([Close] + [d[2]]);
    LogAppend([ReadTextContent], [Close] + [d[2]]);
    LogAppend([Close], [d[2]]);
    SingleLog(ReadTextContent);
    SingleLog(Close);
    SingleLog(d[2]);
  }

  lemma {:induction false} FinishPlanLogs(to: Option<string>, regNo: string, subject: string)
    ensures CloseCount(FinishPlan(to, regNo, subject)) == 1
    ensures EmailsIn(FinishPlan(to, regNo, subject)) == [SuccessEmail(to, regNo, subject)]
  {
    var f := FinishPlan(to, regNo, subject);
    assert f == [Close] + [f[1]];
    LogAppend([Close], [f[1]]);
    SingleLog(Close);
    SingleLog(f[1]);
  }

  lemma {:induction false} AttendanceLogs(open: seq<Call>, to: Option<string>, regNo: string, subject: string)
    requires Quiet(open)
    ensures CloseCount(open + (MarkPlan + FinishPlan(to, regNo, subject))) == 1
    ensures EmailsIn(open + (MarkPlan + FinishPlan(to, regNo, subject))) == [SuccessEmail(to, regNo, subject)]
  {
    var f := FinishPlan(to, regNo, subject);
    QuietLog(open);
    MarkPlanQuiet();
    QuietLog(MarkPlan);
    FinishPlanLogs(to, regNo, subject);
    LogAppend(open, MarkPlan + f);
    LogAppend(MarkPlan, f);
  }

  /** The planned steps close the browser once and send one email: the failure mail in the dialog
      branch, the success mail otherwise. */
  lemma {:induction false} PlanLogs(w: World, login: seq<Call>, open: seq<Call>, regNo: string, to: Option<string>, subject: string)
    requires Quiet(login) && Quiet(open)
    ensures var p := RoutePlan(w, login, open, regNo, to, subject);
      && CloseCount(p) == 1
      && EmailsIn(p) == [if w.errorDialog.Some? then ErrorEmail(to, regNo, InvalidCredentials) else SuccessEmail(to, regNo, subject)]
  {
    QuietLog(login);
    LogAppend(login, AfterLogin(w, open, regNo, to, subject));
    if w.errorDialog.Some? {
      DialogPlanLogs(to, regNo);
    } else {
      AttendanceLogs(open, to, regNo, subject);
    }
  }

  /** The log of a launched run: the launch, the planned calls made, then `tail`. */
  lemma {:induction false} LaunchedLogs(made: seq<Call>, tail: seq<Call>)
    ensures EmailsIn([Launch] + made + tail) == EmailsIn(made) + EmailsIn(tail)
    ensures CloseCount([Launch] + made + tail) == CloseCount(made) + CloseCount(tail)
  {
    LogAppend([Launch] + made, tail);
    LogAppend([Launch], made);
    SingleLog(Launch);
  }

  /** A missing registration number or password, and only that, gets 400; nothing is launched. */
  lemma {:induction false} RouteValidation(w: World, req: Request, login: seq<Call>, open: seq<Call>, subject: string, message: string)
    ensures var h := Route(w, req, login, open, subject, message);
      && (h.outcome == Responded(BadRequest) <==> Missing(req.regNo) || Missing(req.password))
      && (Missing(req.regNo) || Missing(req.password) ==> h.calls == [])
      && (!Missing(req.regNo) && !Missing(req.password) ==> h.calls != [] && h.calls[0] == Launch)
  {
    if !(Missing(req.regNo) || Missing(req.password)) && ResultAt(w, Launch, 0).None? {
      var p := RoutePlan(w, login, open, req.regNo.value, req.email, subject);
      HandleShape(w, p, RouteDone(w, message), req.regNo.value, req.email);
      HandleOutcome(w, p, RouteDone(w, message), req.regNo.value, req.email);
    }
  }

  /** Every answer is one of 400, 401, 500 and 200; 401 comes only with the error dialog, and 200
      only without it. */
  lemma {:induction false} RouteStatuses(w: World, req: Request, login: seq<Call>, open: seq<Call>, subject: string, message: string)
    ensures var h := Route(w, req, login, open, subject, message);
      h.outcome.Responded? ==>
        var status := h.outcome.response.status;
        && (status == 400 || status == 401 || status == 500 || status == 200)
        && (status == 401 ==> w.errorDialog.Some?)
        && (status == 200 ==> w.errorDialog.None?)
  {
    if !(Missing(req.regNo) || Missing(req.password)) && ResultAt(w, Launch, 0).None? {
      var p := RoutePlan(w, login, open, req.regNo.value, req.email, subject);
      HandleOutcome(w, p, RouteDone(w, message), req.regNo.value, req.email);
    }
  }

  /** Every path after launch ends with `browser.close`; when that last close succeeds the browser
      is no longer open; the browser is closed once or twice. */
  lemma {:induction false} RouteClosesBrowser(w: World, req: Request, login: seq<Call>, open: seq<Call>, subject: string, message: string)
    requires !Missing(req.regNo) && !Missing(req.password) && ResultAt(w, Launch, 0).None?
    requires Quiet(login) && Quiet(open)
    ensures var h := Route(w, req, login, open, subject, message);
      && h.calls[0] == Launch && h.calls[|h.calls| - 1] == Close
      && (ResultAt(w, Close, |h.calls| - 1).None? ==> !IsOpen(w, h.calls))
      && 1 <= CloseCount(h.calls) <= 2
  {
    var regNo := req.regNo.value;
    var p := RoutePlan(w, login, open, regNo, req.email, subject);
    PlanLogs(w, login, open, regNo, req.email, subject);
    HandleClosesBrowser(w, p, RouteDone(w, message), regNo, req.email);
  }

  /** A launched request whose plan closes the browser once closes it once or twice in all. */
  lemma {:induction false} HandleClosesBrowser(w: World, plan: seq<Call>, done: Response, regNo: string, to: Option<string>)
    requires ResultAt(w, Launch, 0).None? && CloseCount(plan) == 1
    ensures var h := Handle(w, plan, done, regNo, to);
      && h.calls[0] == Launch && h.calls[|h.calls| - 1] == Close
      && (ResultAt(w, Close, |h.calls| - 1).None? ==> !IsOpen(w, h.calls))
      && 1 <= CloseCount(h.calls) <= 2
  {
    HandleShape(w, plan, done, regNo, to);
    HandleLogs(w, plan, done, regNo, to);
    RunPrefix(w, plan, 1);
    CloseCountPrefix(Run(w, plan, 1).calls, plan);
  }

  /** A launched run in which no planned step aborts and the final close succeeds. */
  predicate CleanRun(w: World, p: seq<Call>) {
    && ResultAt(w, Launch, 0).None?
    && (forall j :: 0 <= j < |p| ==> !Aborts(w, p[j], 1 + j))
    && ResultAt(w, Close, |p| + 1).None?
  }

  /** The outcome of a route is the try block's own answer exactly when its run was clean. */
  lemma {:induction false} CleanRunAnswers(w: World, req: Request, login: seq<Call>, open: seq<Call>, subject: string, message: string)
    requires !Missing(req.regNo) && !Missing(req.password)
    ensures var p := RoutePlan(w, login, open, req.regNo.value, req.email, subject);
      (Route(w, req, login, open, subject, message).outcome == Responded(RouteDone(w, message))
       <==> CleanRun(w, p))
  {
    var regNo := req.regNo.value;
    var p := RoutePlan(w, login, open, regNo, req.email, subject);
    assert Route(w, req, login, open, subject, message) == Handle(w, p, RouteDone(w, message), regNo, req.email);
    assert RouteDone(w, message).status != 500;
    HandleAnswers(w, p, RouteDone(w, message), regNo, req.email);
  }

  /** A handled request gets the try block's own answer, when that is not the catch block's 500,
      exactly when its run was clean. */
  lemma {:induction false} HandleAnswers(w: World, plan: seq<Call>, done: Response, regNo: string, to: Option<string>)
    requires done.status != 500
    ensures Handle(w, plan, done, regNo, to).outcome == Responded(done) <==> CleanRun(w, plan)
  {
    if ResultAt(w, Launch, 0).None? {
      RunCompletes(w, plan, 1);
      HandleShape(w, plan, done, regNo, to);
      HandleOutcome(w, plan, done, regNo, to);
    }
  }

  /** A clean run logs the launch, the whole plan and the final close. */
  lemma {:induction false} CleanRunLogs(w: World, req: Request, login: seq<Call>, open: seq<Call>, subject: string, message: string)
    requires !Missing(req.regNo) && !Missing(req.password)
    requires Quiet(login) && Quiet(open)
    requires CleanRun(w, RoutePlan(w, login, open, req.regNo.value, req.email, subject))
    ensures var h := Route(w, req, login, open, subject, message);
      var p := RoutePlan(w, login, open, req.regNo.value, req.email, subject);
      && h.calls == [Launch] + p + [Close]
      && EmailsIn(h.calls) == [if w.errorDialog.Some? then ErrorEmail(req.email, req.regNo.value, InvalidCredentials)
                               else SuccessEmail(req.email, req.regNo.value, subject)]
      && CloseCount(h.calls) == 2
  {
    var regNo := req.regNo.value;
    var p := RoutePlan(w, login, open, regNo, req.email, subject);
    assert Route(w, req, login, open, subject, message) == Handle(w, p, RouteDone(w, message), regNo, req.email);
    RunCompletes(w, p, 1);
    assert Run(w, p, 1).thrown.None?;
    HandleShape(w, p, RouteDone(w, message), regNo, req.email);
    HandleLogs(w, p, RouteDone(w, message), regNo, req.email);
    PlanLogs(w, login, open, regNo, req.email, subject);
  }

  /** Without an error dialog the route answers 200 exactly when its run was clean; then the log is
      the whole plan between the launch and the final close, the browser was closed twice, and the
      one email sent is the success mail. */
  lemma {:induction false} RouteSucceeds(w: World, req: Request, login: seq<Call>, open: seq<Call>, subject: string, message: string)
    requires !Missing(req.regNo) && !Missing(req.password) && w.errorDialog.None?
    requires Quiet(login) && Quiet(open)
    ensures var h := Route(w, req, login, open, subject, message);
      var p := RoutePlan(w, login, open, req.regNo.value, req.email, subject);
      && (h.outcome == Responded(Response(200, MessageBody(message))) <==> CleanRun(w, p))
      && (CleanRun(w, p) ==>
            && h.calls == [Launch] + p + [Close]
            && EmailsIn(h.calls) == [SuccessEmail(req.email, req.regNo.value, subject)]
            && CloseCount(h.calls) == 2)
  {
    CleanRunAnswers(w, req, login, open, subject, message);
    if CleanRun(w, RoutePlan(w, login, open, req.regNo.value, req.email, subject)) {
      CleanRunLogs(w, req, login, open, subject, message);
    }
  }

  /** With the error dialog present, the route answers 401 with the dialog's text exactly when its
      run was clean; then the browser was closed twice and the one email is the failure mail with
      "Invalid credentials". */
  lemma {:induction false} RouteRejectsCredentials(w: World, req: Request, login: seq<Call>, open: seq<Call>, subject: string, message: string)
    requires !Missing(req.regNo) && !Missing(req.password) && w.errorDialog.Some?
    requires Quiet(login) && Quiet(open)
    ensures var h := Route(w, req, login, open, subject, message);
      var p := RoutePlan(w, login, open, req.regNo.value, req.email, subject);
      && (h.outcome == Responded(CredentialsRejected(w.errorDialog.value)) <==> CleanRun(w, p))
      && (CleanRun(w, p) ==>
            && h.calls == [Launch] + p + [Close]
            && EmailsIn(h.calls) == [ErrorEmail(req.email, req.regNo.value, InvalidCredentials)]
            && CloseCount(h.calls) == 2)
  {
    CleanRunAnswers(w, req, login, open, subject, message);
    if CleanRun(w, RoutePlan(w, login, open, req.regNo.value, req.email, subject)) {
      CleanRunLogs(w, req, login, open, subject, message);
    }
  }

  /** A run cut short made a prefix of its plan and ended at the step that threw. */
  lemma {:induction false} RunCutShort(w: World, plan: seq<Call>, pos: nat)
    requires Run(w, plan, pos).thrown.Some?
    ensures var t := Run(w, plan, pos); var n := |t.calls|;
      && 1 <= n <= |plan| && t.calls == plan[..n]
      && Aborts(w, plan[n - 1], pos + n - 1) && t.thrown == ResultAt(w, plan[n - 1], pos + n - 1)
  {
    RunEndsAtAbort(w, plan, pos);
    RunPrefix(w, plan, pos);
  }

  /** A try block that throws: the catch block mails the failure after the steps made, and the
      answer is 500 exactly when that mail and the final close succeed. */
  lemma {:induction false} HandleCaught(w: World, plan: seq<Call>, done: Response, regNo: string, to: Option<string>)
    requires ResultAt(w, Launch, 0).None? && Run(w, plan, 1).thrown.Some?
    ensures var h := Handle(w, plan, done, regNo, to); var t := Run(w, plan, 1); var n := |t.calls|;
      var mail := ErrorEmail(to, regNo, ErrorText(t.thrown.value));
      && h.calls == [Launch] + t.calls + [SendEmail(mail), Close]
      && EmailsIn(h.calls) == EmailsIn(t.calls) + [mail]
      && (h.outcome == Responded(ServerError) <==>
            ResultAt(w, SendEmail(mail), n + 1).None? && ResultAt(w, Close, n + 2).None?)
  {
    var t := Run(w, plan, 1);
    var log := [Launch] + t.calls;
    assert Completes(t, done) == Threw(t.thrown.value);
    CaughtLog(w, log, t.thrown.value, regNo, to);
    HandleLogs(w, plan, done, regNo, to);
  }

  /** The catch block after a throw: the failure mail, then the close; 500 when both succeed. */
  lemma {:induction false} CaughtLog(w: World, log: seq<Call>, e: Thrown, regNo: string, to: Option<string>)
    ensures var h := CatchFinally(w, log, Threw(e), regNo, to);
      var mail := SendEmail(ErrorEmail(to, regNo, ErrorText(e)));
      && h.calls == log + [mail, Close]
      && (h.outcome == Responded(ServerError) <==> ResultAt(w, mail, |log|).None? && ResultAt(w, Close, |log| + 1).None?)
  {
    var mail := SendEmail(ErrorEmail(to, regNo, ErrorText(e)));
    assert log + [mail] + [Close] == log + [mail, Close];
  }

  /** When a planned step throws, the log is the launch and the steps the run made (the plan up to
      the step that threw), then the failure mail with the thrown message, then the final close;
      the route answers 500 exactly when that mail and the close succeed. */
  lemma {:induction false} RouteServerError(w: World, req: Request, login: seq<Call>, open: seq<Call>, subject: string, message: string)
    requires !Missing(req.regNo) && !Missing(req.password) && ResultAt(w, Launch, 0).None?
    requires Run(w, RoutePlan(w, login, open, req.regNo.value, req.email, subject), 1).thrown.Some?
    ensures var h := Route(w, req, login, open, subject, message);
      var p := RoutePlan(w, login, open, req.regNo.value, req.email, subject);
      var t := Run(w, p, 1);
      var n := |t.calls|;
      var mail := ErrorEmail(req.email, req.regNo.value, ErrorText(t.thrown.value));
      && h.calls == [Launch] + t.calls + [SendEmail(mail), Close]
      && EmailsIn(h.calls) == EmailsIn(t.calls) + [mail]
      && (h.outcome == Responded(ServerError) <==>
            ResultAt(w, SendEmail(mail), n + 1).None? && ResultAt(w, Close, n + 2).None?)
  {
    var p := RoutePlan(w, login, open, req.regNo.value, req.email, subject);
    HandleCaught(w, p, RouteDone(w, message), req.regNo.value, req.email);
  }

  /** When every planned step ran but the last, the notification mail, threw, the catch block mails
      the failure as a second email. */
  lemma {:induction false} NotificationFails(w: World, req: Request, login: seq<Call>, open: seq<Call>, subject: string, message: string)
    requires !Missing(req.regNo) && !Missing(req.password) && ResultAt(w, Launch, 0).None?
    requires Quiet(login) && Quiet(open)
    requires var t := Run(w, RoutePlan(w, login, open, req.regNo.value, req.email, subject), 1);
      t.thrown.Some? && |t.calls| == |RoutePlan(w, login, open, req.regNo.value, req.email, subject)|
    ensures var t := Run(w, RoutePlan(w, login, open, req.regNo.value, req.email, subject), 1);
      EmailsIn(Route(w, req, login, open, subject, message).calls)
        == [if w.errorDialog.Some? then ErrorEmail(req.email, req.regNo.value, InvalidCredentials)
            else SuccessEmail(req.email, req.regNo.value, subject),
            ErrorEmail(req.email, req.regNo.value, ErrorText(t.thrown.value))]
  {
    var regNo := req.regNo.value;
    var p := RoutePlan(w, login, open, regNo, req.email, subject);
    HandleLastStepFails(w, p, RouteDone(w, message), regNo, req.email);
    PlanLogs(w, login, open, regNo, req.email, subject);
  }

  /** In that case the answer is 500 exactly when the failure mail and the final close succeed. */
  lemma {:induction false} NotificationFailureAnswer(w: World, req: Request, login: seq<Call>, open: seq<Call>, subject: string, message: string)
    requires !Missing(req.regNo) && !Missing(req.password) && ResultAt(w, Launch, 0).None?
    requires var t := Run(w, RoutePlan(w, login, open, req.regNo.value, req.email, subject), 1);
      t.thrown.Some? && |t.calls| == |RoutePlan(w, login, open, req.regNo.value, req.email, subject)|
    ensures var p := RoutePlan(w, login, open, req.regNo.value, req.email, subject);
      var mail := ErrorEmail(req.email, req.regNo.value, ErrorText(Run(w, p, 1).thrown.value));
      (Route(w, req, login, open, subject, message).outcome == Responded(ServerError) <==>
         ResultAt(w, SendEmail(mail), |p| + 1).None? && ResultAt(w, Close, |p| + 2).None?)
  {
    var p := RoutePlan(w, login, open, req.regNo.value, req.email, subject);
    HandleLastStepFails(w, p, RouteDone(w, message), req.regNo.value, req.email);
  }

  /** Planned steps that never fail silently: none of them is the swallowed wait. */
  ghost predicate NoneSwallowed(s: seq<Call>) {
    forall c :: c in s ==> !Swallowed(c)
  }

  /** In a plan that starts with the login connection and swallows nothing after it, the only
      swallowed step is the seventh: the wait that follows the click submitting the registration
      number, and the wait for the password field comes right after it. */
  lemma {:induction false} OneSwallowedStep(regNo: string, rest: seq<Call>)
    requires NoneSwallowed(rest)
    ensures var p := ConnectPlan(regNo) + rest;
      && (forall j :: 0 <= j < |p| ==> (Swallowed(p[j]) <==> j == 6))
      && p[5] == Click(LoginButton) && p[7] == WaitForSelector(PasswordField, FieldTimeout)
  {
    var p := ConnectPlan(regNo) + rest;
    forall j | 8 <= j < |p|
      ensures !Swallowed(p[j])
    {
      assert p[j] == rest[j - 8];
    }
  }

  /** A step that occurs once in the plan, after `ready`, follows the launch and all of `ready` in
      the log if it was made at all. */
  lemma {:induction false} RouteReaches(w: World, req: Request, login: seq<Call>, open: seq<Call>, subject: string, message: string,
                                        ready: seq<Call>, back: seq<Call>, x: Call)
    requires !Missing(req.regNo) && !Missing(req.password)
    requires !x.Launch? && !x.SendEmail? && !x.Close?
    requires RoutePlan(w, login, open, req.regNo.value, req.email, subject) == ready + back && x !in ready
    requires x in Route(w, req, login, open, subject, message).calls
    ensures [Launch] + ready <= Route(w, req, login, open, subject, message).calls
  {
    var regNo := req.regNo.value;
    var p := RoutePlan(w, login, open, regNo, req.email, subject);
    var done := RouteDone(w, message);
    MadeInTry(w, p, done, regNo, req.email, x);
    RunPastFront(w, ready, back, 1, x);
    MadeAfterLaunch(w, p, done, regNo, req.email, ready);
  }

  /** After the login nothing is typed into a field, unless the opening of the attendance page
      does it. */
  lemma AfterLoginTypesIn(w: World, open: seq<Call>, regNo: string, to: Option<string>, subject: string, x: Call)
    requires x.TypeInto? && x !in open
    ensures x !in AfterLogin(w, open, regNo, to, subject)
  {
  }
}
