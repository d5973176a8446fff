/** The step executor of automation.py: one call performs the page work of
    one workflow state and reports what happened as a result record. The
    browser is replaced by what the step observes on the page (a `PageView`),
    so a step is a function of the session, the user's data, the state, the
    user's input and that view. Screenshots become artifact and log rows of
    the store. */
module Automation {
  import opened Common
  import opened Dates
  import opened Store

  // ---------------------------------------------------------------------------
  // Workflow vocabulary

  const Queued := "QUEUED"
  const AwaitingFirstCaptcha := "AWAITING_FIRST_CAPTCHA"
  const AwaitingOtpCaptcha := "AWAITING_OTP_CAPTCHA"
  const AwaitingOtpSubmission := "AWAITING_OTP_SUBMISSION"

  const PauseAwaitingCaptcha := "PAUSE_AWAITING_CAPTCHA"
  const RetryAwaitingCaptcha := "RETRY_AWAITING_CAPTCHA"
  const PauseAwaitingOtp := "PAUSE_AWAITING_OTP"
  const SuccessStatus := "SUCCESS"
  const FailureStatus := "FAILURE"

  const TimeoutReason := "Page element not found or timed out."
  const UnexpectedReason := "An unexpected critical error occurred."

  /** The position of a state in QUEUED -> AWAITING_FIRST_CAPTCHA ->
      AWAITING_OTP_CAPTCHA -> AWAITING_OTP_SUBMISSION. */
  function Phase(state: string): Option<nat> {
    if state == Queued then Some(0)
    else if state == AwaitingFirstCaptcha then Some(1)
    else if state == AwaitingOtpCaptcha then Some(2)
    else if state == AwaitingOtpSubmission then Some(3)
    else None
  }

  // ---------------------------------------------------------------------------
  // What a step observes, and what it reports

  /** A Playwright fault raised by one of the step's page actions before the
      step's own screenshot: a timeout, or any other error. */
  datatype PageFault = NoFault | TimedOut | Crashed

  /** What the page shows during one step. */
  datatype PageView = PageView(
    fault: PageFault,
    captchaRejected: bool,  // "Invalid Captcha" appears, visible, within 5 s (automation.py:150-151)
    otpSent: bool,          // "OTP has been sent" appears within 10 s (automation.py:193)
    otpAccepted: bool)      // the post-OTP element appears within 15 s (automation.py:215)

  /** The result dictionary; absent keys are None. */
  datatype StepReport = StepReport(
    status: string,
    nextState: Option<string>,
    captchaPath: Option<string>,
    reason: Option<string>,
    screenshotPath: Option<string>)

  /** A screenshot of one element (the CAPTCHA image) or of the whole page. */
  datatype Shot = ElementShot(name: string) | PageShot(name: string)

  /** A value typed into the form field named `field`. */
  datatype Fill = Fill(field: string, value: string)

  /** One step: its report, what it typed into the form on a run without a
      fault, and the screenshot it took, if any. */
  datatype StepRun = StepRun(report: StepReport, fills: seq<Fill>, shot: Option<Shot>)

  function Pause(status: string, captchaPath: string, next: string): StepReport {
    StepReport(status, Some(next), Some(captchaPath), None, None)
  }

  function Failed(reason: string): StepReport {
    StepReport(FailureStatus, None, None, Some(reason), None)
  }

  // ---------------------------------------------------------------------------
  // Artifact naming (automation.py:44-72)

  const ArtifactsDir := "artifacts"

  /** `os.path.join(a, b)` on POSIX. */
  function PathJoin(a: string, b: string): string {
    if b != [] && b[0] == '/' then b
    else if a == [] || a[|a| - 1] == '/' then a + b
    else a + "/" + b
  }

  /** Where a screenshot named `name` of session `sid` is saved. */
  function ScreenshotPath(sid: SessionId, name: string): string {
    PathJoin(PathJoin(ArtifactsDir, sid), name + ".png")
  }

  /** The artifact type a screenshot named `name` is registered with. */
  function ArtifactType(name: string): string {
    Upper(name) + "_SCREENSHOT"
  }

  /** A plain path component: not empty, no slash at either end. */
  predicate PlainName(s: string) {
    s != [] && s[0] != '/' && s[|s| - 1] != '/'
  }

  /** For a session id such as a uuid, the screenshot `n` is stored at
      artifacts/<sid>/<n>.png. */
  lemma ScreenshotPathLayout(sid: SessionId, name: string)
    requires PlainName(sid) && PlainName(name)
    ensures ScreenshotPath(sid, name) == "artifacts/" + sid + "/" + name + ".png"
  {
  }

  /** Screenshots with different names land in different files. */
  lemma {:induction false} ScreenshotPathsDiffer(sid: SessionId, a: string, b: string)
    requires PlainName(sid) && PlainName(a) && PlainName(b) && a != b
    ensures ScreenshotPath(sid, a) != ScreenshotPath(sid, b)
  {
    ScreenshotPathLayout(sid, a);
    ScreenshotPathLayout(sid, b);
    var dir := "artifacts/" + sid + "/";
    assert ScreenshotPath(sid, a) == dir + (a + ".png");
    assert ScreenshotPath(sid, b) == dir + (b + ".png");
    if |a| == |b| {
      assert !(forall k :: 0 <= k < |a| ==> a[k] == b[k]);
      var k :| 0 <= k < |a| && a[k] != b[k];
      assert ScreenshotPath(sid, a)[|dir| + k] == a[k];
      assert ScreenshotPath(sid, b)[|dir| + k] == b[k];
    }
  }

  /** An artifact type is upper case and names a screenshot. */
  lemma ArtifactTypeShape(name: string)
    ensures var k := ArtifactType(name);
      && |k| == |name| + 11 && k[|name|..] == "_SCREENSHOT"
      && forall i :: 0 <= i < |k| ==> !('a' <= k[i] <= 'z')
  {
  }

  // ---------------------------------------------------------------------------
  // The step (automation.py:76-244)

  /** The log messages of the two screenshot helpers, followed by the path. */
  const ElementShotLog := "Saved screenshot artifact to "
  const PageShotLog := "Saved full page screenshot artifact to "

  /** The names of the screenshots the step takes. */
  const CaptchaShot := "captcha_1"
  const CaptchaRetryShot := "captcha_1_retry"
  const CaptchaOtpShot := "captcha_2_for_otp"
  const FinalShot := "final_success"
  const ErrorTimeoutShot := "error_timeout"
  const ErrorUnexpectedShot := "error_unexpected"

  /** The form fields the step types into, by label or selector. */
  const SerialField := "DL number"
  const DobField := "DD-MM-YYYY"
  const CaptchaField := "Enter Captcha Here"
  const OtpCaptchaField := "Enter Captcha"
  const OtpField := "#otpNumberSarathi"

  /** The reasons of the failures the step reports itself. */
  const NoCaptchaReason := "CAPTCHA input was not provided."
  const NoOtpCaptchaReason := "CAPTCHA for OTP was not provided."
  const OtpNotSentReason := "Failed to generate OTP. Possibly an invalid CAPTCHA."
  const NoOtpReason := "OTP was not provided."
  const OtpRejectedReason := "Failed to submit OTP. It might be incorrect or expired."

  function UnknownStateReason(state: string): string {
    "Unknown state '" + state + "'"
  }

  /** `if not user_input`: None and "" are missing. */
  predicate Provided(input: Option<string>) {
    input.Some? && input.value != ""
  }

  /** The outcome of a fault caught at automation.py:237-244: a failure with a
      full-page screenshot of the page at that moment. */
  function FaultRun(sid: SessionId, fault: PageFault): StepRun
    requires !fault.NoFault?
  {
    var name := if fault.TimedOut? then ErrorTimeoutShot else ErrorUnexpectedShot;
    var reason := if fault.TimedOut? then TimeoutReason else UnexpectedReason;
    StepRun(StepReport(FailureStatus, None, None, Some(reason), Some(ScreenshotPath(sid, name))), [], Some(PageShot(name)))
  }

  /** `execute_automation_step`: dispatch on the state, check the user's
      input before touching the page, and map what the page shows to a
      result record. */
  function Step(sid: SessionId, user: UserData, state: string, input: Option<string>, view: PageView): StepRun {
    if state == Queued then
      // filling a missing (undecryptable) serial raises a non-timeout error
      var fault := if !view.fault.NoFault? then view.fault else if user.serial.None? then Crashed else NoFault;
      if !fault.NoFault? then FaultRun(sid, fault)
      else
        StepRun(Pause(PauseAwaitingCaptcha, ScreenshotPath(sid, CaptchaShot), AwaitingFirstCaptcha),
                [Fill(SerialField, user.serial.value), Fill(DobField, FormatDmy(user.dob))],
                Some(ElementShot(CaptchaShot)))
    else if state == AwaitingFirstCaptcha then
      if !Provided(input) then StepRun(Failed(NoCaptchaReason), [], None)
      else if !view.fault.NoFault? then FaultRun(sid, view.fault)
      else if view.captchaRejected then
        StepRun(Pause(RetryAwaitingCaptcha, ScreenshotPath(sid, CaptchaRetryShot), AwaitingFirstCaptcha),
                [Fill(CaptchaField, input.value)], Some(ElementShot(CaptchaRetryShot)))
      else
        StepRun(Pause(PauseAwaitingCaptcha, ScreenshotPath(sid, CaptchaOtpShot), AwaitingOtpCaptcha),
                [Fill(CaptchaField, input.value)], Some(ElementShot(CaptchaOtpShot)))
    else if state == AwaitingOtpCaptcha then
      if !Provided(input) then StepRun(Failed(NoOtpCaptchaReason), [], None)
      else if !view.fault.NoFault? then FaultRun(sid, view.fault)
      else if !view.otpSent then
        StepRun(Failed(OtpNotSentReason), [Fill(OtpCaptchaField, input.value)], None)
      else
        StepRun(StepReport(PauseAwaitingOtp, Some(AwaitingOtpSubmission), None, None, None),
                [Fill(OtpCaptchaField, input.value)], None)
    else if state == AwaitingOtpSubmission then
      if !Provided(input) then StepRun(Failed(NoOtpReason), [], None)
      else if !view.fault.NoFault? then FaultRun(sid, view.fault)
      else if !view.otpAccepted then
        StepRun(Failed(OtpRejectedReason), [Fill(OtpField, input.value)], None)
      else
        StepRun(StepReport(SuccessStatus, None, None, None, Some(ScreenshotPath(sid, FinalShot))),
                [Fill(OtpField, input.value)], Some(PageShot(FinalShot)))
    else
      StepRun(Failed(UnknownStateReason(state)), [], None)
  }

  // ---------------------------------------------------------------------------
  // Properties of the step

  /** From QUEUED, a step without a fault types the serial and the date of
      birth as DD-MM-YYYY and pauses for the first CAPTCHA, whose image it
      saved as captcha_1. */
  lemma QueuedPausesForFirstCaptcha(sid: SessionId, user: UserData, input: Option<string>, view: PageView)
    requires view.fault.NoFault? && user.serial.Some?
    ensures var run := Step(sid, user, Queued, input, view);
      && run.report.status == PauseAwaitingCaptcha
      && run.report.nextState == Some(AwaitingFirstCaptcha)
      && run.report.captchaPath == Some(ScreenshotPath(sid, CaptchaShot))
      && Fill(SerialField, user.serial.value) in run.fills
      && Fill(DobField, FormatDmy(user.dob)) in run.fills
  {
  }

  /** In each state that needs the user's answer, a missing or empty answer
      fails with a reason before any page action: nothing typed, no
      screenshot. */
  lemma MissingInputFails(sid: SessionId, user: UserData, state: string, input: Option<string>, view: PageView)
    requires state == AwaitingFirstCaptcha || state == AwaitingOtpCaptcha || state == AwaitingOtpSubmission
    requires !Provided(input)
    ensures var run := Step(sid, user, state, input, view);
      && run.report.status == FailureStatus
      && run.report.reason.Some? && run.report.reason.value != []
      && run.report.nextState.None?
      && run.fills == [] && run.shot.None?
  {
  }

  /** A visible "Invalid Captcha" message sends the user back to the first
      CAPTCHA (a self-loop) with a freshly saved image. */
  lemma RejectedCaptchaRetries(sid: SessionId, user: UserData, input: Option<string>, view: PageView)
    requires Provided(input) && view.fault.NoFault? && view.captchaRejected
    ensures var run := Step(sid, user, AwaitingFirstCaptcha, input, view);
      && run.report.status == RetryAwaitingCaptcha
      && run.report.nextState == Some(AwaitingFirstCaptcha)
      && run.report.captchaPath == Some(ScreenshotPath(sid, CaptchaRetryShot))
      && run.shot == Some(ElementShot(CaptchaRetryShot))
  {
  }

  /** An accepted first CAPTCHA pauses for the CAPTCHA that generates the OTP. */
  lemma AcceptedCaptchaAdvances(sid: SessionId, user: UserData, input: Option<string>, view: PageView)
    requires Provided(input) && view.fault.NoFault? && !view.captchaRejected
    ensures var run := Step(sid, user, AwaitingFirstCaptcha, input, view);
      && run.report.status == PauseAwaitingCaptcha
      && run.report.nextState == Some(AwaitingOtpCaptcha)
      && run.report.captchaPath == Some(ScreenshotPath(sid, CaptchaOtpShot))
  {
  }

  /** At AWAITING_OTP_CAPTCHA the step pauses for the OTP exactly when the
      page confirms that it was sent, and fails otherwise. */
  lemma OtpCaptchaOutcome(sid: SessionId, user: UserData, input: Option<string>, view: PageView)
    requires Provided(input) && view.fault.NoFault?
    ensures var r := Step(sid, user, AwaitingOtpCaptcha, input, view).report;
      && (r.status == PauseAwaitingOtp <==> view.otpSent)
      && (view.otpSent ==> r.nextState == Some(AwaitingOtpSubmission))
      && (!view.otpSent ==> r == Failed(OtpNotSentReason))
  {
  }

  /** At AWAITING_OTP_SUBMISSION the step succeeds exactly when the page
      accepts the OTP, with a final full-page screenshot. */
  lemma OtpSubmissionOutcome(sid: SessionId, user: UserData, input: Option<string>, view: PageView)
    requires Provided(input) && view.fault.NoFault?
    ensures var run := Step(sid, user, AwaitingOtpSubmission, input, view);
      && (run.report.status == SuccessStatus <==> view.otpAccepted)
      && (view.otpAccepted ==> run.report.screenshotPath == Some(ScreenshotPath(sid, FinalShot)))
      && (!view.otpAccepted ==> run.report == Failed(OtpRejectedReason))
  {
  }

  /** A state outside the vocabulary fails, naming the state. */
  lemma UnknownStateFails(sid: SessionId, user: UserData, state: string, input: Option<string>, view: PageView)
    requires Phase(state).None?
    ensures Step(sid, user, state, input, view) == StepRun(Failed(UnknownStateReason(state)), [], None)
  {
  }

  /** A page timeout in a step that reaches the page fails with the timeout
      reason and a screenshot of the page. */
  lemma TimeoutFails(sid: SessionId, user: UserData, state: string, input: Option<string>, view: PageView)
    requires Phase(state).Some? && (state == Queued || Provided(input))
    requires view.fault == TimedOut
    ensures var r := Step(sid, user, state, input, view).report;
      r.status == FailureStatus && r.reason == Some(TimeoutReason)
      && r.screenshotPath == Some(ScreenshotPath(sid, ErrorTimeoutShot))
  {
  }

  /** Any other page error in a step that reaches the page fails with the
      generic reason and a screenshot of the page; a missing serial number is
      such an error. */
  lemma UnexpectedErrorFails(sid: SessionId, user: UserData, state: string, input: Option<string>, view: PageView)
    requires Phase(state).Some? && (state == Queued || Provided(input))
    requires view.fault == Crashed || (state == Queued && view.fault.NoFault? && user.serial.None?)
    ensures var run := Step(sid, user, state, input, view);
      && run.report == StepReport(FailureStatus, None, None, Some(UnexpectedReason), Some(ScreenshotPath(sid, ErrorUnexpectedShot)))
      && run.shot == Some(PageShot(ErrorUnexpectedShot))
  {
  }

  /** A pause for a CAPTCHA always comes with the element screenshot whose
      file the report names as the image to show. */
  lemma CaptchaPauseCarriesShot(sid: SessionId, user: UserData, state: string, input: Option<string>, view: PageView)
    ensures var run := Step(sid, user, state, input, view);
      run.report.status in {PauseAwaitingCaptcha, RetryAwaitingCaptcha} ==>
        && run.shot.Some? && run.shot.value.ElementShot?
        && run.report.captchaPath == Some(ScreenshotPath(sid, run.shot.value.name))
  {
    var run := Step(sid, user, state, input, view);
    if state == Queued {
      assert run.report.status == PauseAwaitingCaptcha ==> run.shot == Some(ElementShot(CaptchaShot));
    } else if state == AwaitingFirstCaptcha {
      if Provided(input) && view.fault.NoFault? {
        assert run.shot == Some(ElementShot(if view.captchaRejected then CaptchaRetryShot else CaptchaOtpShot));
      }
    }
  }

  /** The shape of every report, for every input: its status is one of five;
      a pause carries the next state, which is the current one only for a
      CAPTCHA retry and otherwise the next phase; a pause for a CAPTCHA
      carries the image; success and failure carry no next state; a failure
      always says why. */
  predicate WellFormed(state: string, r: StepReport) {
    && (r.status in {PauseAwaitingCaptcha, RetryAwaitingCaptcha, PauseAwaitingOtp, SuccessStatus, FailureStatus})
    && (r.status in {PauseAwaitingCaptcha, RetryAwaitingCaptcha, PauseAwaitingOtp} ==>
          && r.nextState.Some? && Phase(state).Some? && Phase(r.nextState.value).Some?
          && (if r.status == RetryAwaitingCaptcha
              then r.nextState.value == state
              else Phase(r.nextState.value).value == Phase(state).value + 1))
    && (r.status in {PauseAwaitingCaptcha, RetryAwaitingCaptcha} ==> r.captchaPath.Some?)
    && (r.status in {SuccessStatus, FailureStatus} ==> r.nextState.None?)
    && (r.status == FailureStatus ==> r.reason.Some? && r.reason.value != [])
  }

  lemma StepIsWellFormed(sid: SessionId, user: UserData, state: string, input: Option<string>, view: PageView)
    ensures WellFormed(state, Step(sid, user, state, input, view).report)
  {
    var r := Step(sid, user, state, input, view).report;
    if Phase(state).None? {
      assert r == Failed(UnknownStateReason(state));
    } else if r.status == FailureStatus {
      assert r.reason.Some? && r.reason.value != [];
    } else if state == Queued {
      assert r.nextState == Some(AwaitingFirstCaptcha);
    } else if state == AwaitingFirstCaptcha {
      assert r.nextState == Some(if view.captchaRejected then AwaitingFirstCaptcha else AwaitingOtpCaptcha);
    } else if state == AwaitingOtpCaptcha {
      assert r.nextState == Some(AwaitingOtpSubmission);
    }
  }

  // ---------------------------------------------------------------------------
  // Writing the screenshots to the store

  /** `_take_element_screenshot` (automation.py:44-57). */
  method TakeElementScreenshot(store: SessionStore, sid: SessionId, name: string) returns (path: string)
    modifies store`artifacts, store`logs
    ensures path == ScreenshotPath(sid, name)
    ensures store.artifacts == old(store.artifacts) + [ArtifactRow(sid, ArtifactType(name), path)]
    ensures store.logs == old(store.logs) + [LogRow(sid, "INFO", ElementShotLog + path)]
  {
    path := ScreenshotPath(sid, name);
    UpperKeepsCapitals("INFO");
    store.AddArtifact(sid, ArtifactType(name), path);
    store.LogEvent(sid, "INFO", ElementShotLog + path);
  }

  /** `_take_full_page_screenshot` (automation.py:59-72). */
  method TakeFullPageScreenshot(store: SessionStore, sid: SessionId, name: string) returns (path: string)
    modifies store`artifacts, store`logs
    ensures path == ScreenshotPath(sid, name)
    ensures store.artifacts == old(store.artifacts) + [ArtifactRow(sid, ArtifactType(name), path)]
    ensures store.logs == old(store.logs) + [LogRow(sid, "INFO", PageShotLog + path)]
  {
    path := ScreenshotPath(sid, name);
    UpperKeepsCapitals("INFO");
    store.AddArtifact(sid, ArtifactType(name), path);
    store.LogEvent(sid, "INFO", PageShotLog + path);
  }

  /** The artifact rows a step's screenshot adds. */
  function ShotArtifacts(sid: SessionId, shot: Option<Shot>): seq<ArtifactRow> {
    if shot.None? then [] else [ArtifactRow(sid, ArtifactType(shot.value.name), ScreenshotPath(sid, shot.value.name))]
  }

  /** The log rows a step's screenshot adds. */
  function ShotLogs(sid: SessionId, shot: Option<Shot>): seq<LogRow> {
    match shot
    case None => []
    case Some(ElementShot(n)) => [LogRow(sid, "INFO", ElementShotLog + ScreenshotPath(sid, n))]
    case Some(PageShot(n)) => [LogRow(sid, "INFO", PageShotLog + ScreenshotPath(sid, n))]
  }

  /** `execute_automation_step` against the store: the report of `Step`, and
      the screenshot it took recorded as an artifact. */
  method ExecuteStep(store: SessionStore, sid: SessionId, user: UserData, state: string,
                     input: Option<string>, view: PageView) returns (report: StepReport)
    modifies store`artifacts, store`logs
    ensures report == Step(sid, user, state, input, view).report
    ensures store.artifacts == old(store.artifacts) + ShotArtifacts(sid, Step(sid, user, state, input, view).shot)
    ensures store.logs == old(store.logs) + ShotLogs(sid, Step(sid, user, state, input, view).shot)
  {
    var run := Step(sid, user, state, input, view);
    match run.shot {
      case None =>
      case Some(ElementShot(name)) =>
        var _ := TakeElementScreenshot(store, sid, name);
      case Some(PageShot(name)) =>
        var _ := TakeFullPageScreenshot(store, sid, name);
    }
    report := run.report;
  }

  // ---------------------------------------------------------------------------
  // The step as written

  /** What a call of the function as written does: return a record, or raise. */
  datatype Reaction = Returns(report: StepReport) | Raises

  /** `execute_automation_step` as written. Two lines make it raise where the
      intent is a record: the CAPTCHA retry calls `asyncio.sleep` in a module
      that never imports asyncio (automation.py:157), so it raises NameError;
      and the generic handler calls `_log` with an `exc_info` argument its
      signature (automation.py:39) does not take (automation.py:242), so every
      error that reaches that handler raises TypeError out of the function. */
  function StepAsWritten(sid: SessionId, user: UserData, state: string, input: Option<string>, view: PageView): Reaction {
    var run := Step(sid, user, state, input, view);
    if state == AwaitingFirstCaptcha && Provided(input) && view.fault.NoFault? && view.captchaRejected then Raises
    else if run.report.reason == Some(UnexpectedReason) then Raises
    else Returns(run.report)
  }

  /** As written, no input ever yields the CAPTCHA retry: a rejected CAPTCHA
      raises out of the step instead. */
  lemma AsWrittenNeverRetries(sid: SessionId, user: UserData, state: string, input: Option<string>, view: PageView)
    ensures StepAsWritten(sid, user, state, input, view).Returns? ==>
              StepAsWritten(sid, user, state, input, view).report.status != RetryAwaitingCaptcha
  {
  }

  /** As written, a page error other than a timeout makes the step raise
      instead of reporting the failure: for instance a user whose serial
      number cannot be decrypted. */
  lemma AsWrittenRaisesOnUnexpectedError(sid: SessionId, user: UserData, input: Option<string>, view: PageView)
    requires view.fault.NoFault? && user.serial.None?
    ensures StepAsWritten(sid, user, Queued, input, view) == Raises
  {
  }

  /** Wherever the written function does return, it returns the intended record. */
  lemma AsWrittenAgreesWhenItReturns(sid: SessionId, user: UserData, state: string, input: Option<string>, view: PageView)
    ensures StepAsWritten(sid, user, state, input, view).Returns? ==>
              StepAsWritten(sid, user, state, input, view).report == Step(sid, user, state, input, view).report
  {
  }
}
