/** The orchestrator of orchestrator.py: it runs one session through the
    workflow, step by step, stopping at every CAPTCHA and OTP to wait for the
    user's answer, and records every state in the store; the session manager
    picks up the queued sessions. The browser and the user are replaced by a
    `World`: what the page shows at each step and the messages the user
    sends, in order. Once those messages run out, every wait times out. */
module Orchestrator {
  import opened Common
  import opened Store
  import opened Automation
  import opened Bookkeeping
  import opened Bot

  const PollingIntervalSeconds := 5
  const UserInputTimeoutSeconds := 300

  const CompletedState := "COMPLETED"
  const FailedState := "FAILED"

  /** The states that end the loop of orchestrator.py:95. */
  predicate Terminal(state: string) {
    state == CompletedState || state == FailedState
  }

  const CaptchaCaption := "Please solve this CAPTCHA and send the text back to me."
  const RetryNotice := "The previous CAPTCHA was incorrect. Please try this new one."
  const OtpNotice := "An OTP has been sent to your registered mobile number. Please send it back to me."
  const TimedOutNotice := "You took too long to respond. The session has timed out."
  const SuccessNotice := "Automation completed successfully!"
  const FinalCaption := "Final confirmation."
  const ErrorCaption := "This was the last screen before the error."
  const CriticalNotice := "A critical system error occurred during your session. It has been terminated."
  const DefaultReason := "An unknown error occurred."
  const CaptchaTimeout := "Timeout on CAPTCHA"
  const OtpTimeout := "Timeout on OTP"
  const SuccessResult := "SUCCESS"
  const FailedHead := "Automation failed. Reason: "
  const UnknownStatusResult := "Unknown automation status"
  const RunningPrefix := "RUNNING_"
  const NoUserResult := "User data not found"
  const CrashResult := "Orchestrator critical failure"

  /** What the orchestrator does with a step's report. */
  datatype Outcome =
    | Wait(next: string, notices: seq<Body>, dialog: Dialog, timeoutResult: string)
      // record `next`, send the notices, and wait for the user's answer
    | Finish(state: string, result: string, notices: seq<Body>)
      // record the final state with its result, and send the notices
    | Missing
      // the report lacks a key the branch reads: KeyError

  /** `if result.get(key):` on an optional text. */
  predicate Truthy(s: Option<string>) {
    s.Some? && s.value != ""
  }

  /** The photo sent after a final state, if the report names a screenshot. */
  function FinalPhoto(r: StepReport, caption: string): seq<Body> {
    if Truthy(r.screenshotPath) then [Photo(r.screenshotPath.value, caption)] else []
  }

  /** The dispatch on the report's status (orchestrator.py:103-190). */
  function Decide(r: StepReport): Outcome {
    if r.status == PauseAwaitingCaptcha || r.status == RetryAwaitingCaptcha then
      if r.nextState.None? || r.captchaPath.None? then Missing
      else
        var retry := if r.status == RetryAwaitingCaptcha then [Text(RetryNotice)] else [];
        Wait(r.nextState.value, retry + [Photo(r.captchaPath.value, CaptchaCaption)], AwaitingCaptcha, CaptchaTimeout)
    else if r.status == PauseAwaitingOtp then
      if r.nextState.None? then Missing
      else Wait(r.nextState.value, [Text(OtpNotice)], AwaitingOtp, OtpTimeout)
    else if r.status == SuccessStatus then
      Finish(CompletedState, SuccessResult, [Text(SuccessNotice)] + FinalPhoto(r, FinalCaption))
    else if r.status == FailureStatus then
      var reason := r.reason.GetOr(DefaultReason);
      Finish(FailedState, reason, [Text(FailedHead + reason)] + FinalPhoto(r, ErrorCaption))
    else
      Finish(FailedState, UnknownStatusResult, [])
  }

  /** Every step leads the orchestrator either to wait in a workflow state
      (never a final one), or to a final state with a non-empty result, which
      therefore ends the session in the store; never to a missing key. */
  lemma StepDecisions(sid: SessionId, user: UserData, state: string, input: Option<string>, view: PageView)
    ensures match Decide(Step(sid, user, state, input, view).report)
      case Wait(next, _, _, timeoutResult) => Phase(next).Some? && !Terminal(next) && timeoutResult != ""
      case Finish(s, result, _) => Terminal(s) && result != ""
      case Missing => false
  {
    StepIsWellFormed(sid, user, state, input, view);
  }

  /** A failed step fails the session with the step's own reason, which is
      also what the user is told; the default reason and the unknown-status
      result never arise from a step. */
  lemma FailureCarriesStepReason(sid: SessionId, user: UserData, state: string, input: Option<string>, view: PageView)
    ensures var r := Step(sid, user, state, input, view).report;
      var o := Decide(r);
      (o.Finish? && o.state == FailedState) <==> r.status == FailureStatus
    ensures var r := Step(sid, user, state, input, view).report;
      var o := Decide(r);
      o.Finish? && o.state == FailedState ==>
        && r.reason.Some? && o.result == r.reason.value
        && o.notices[0] == Text(FailedHead + r.reason.value)
  {
    StepIsWellFormed(sid, user, state, input, view);
  }

  /** A session completes exactly when the OTP is submitted and the page
      accepts it. */
  lemma CompletesIffOtpAccepted(sid: SessionId, user: UserData, state: string, input: Option<string>, view: PageView)
    ensures var o := Decide(Step(sid, user, state, input, view).report);
      (o.Finish? && o.state == CompletedState) <==>
      (state == AwaitingOtpSubmission && Provided(input) && view.fault.NoFault? && view.otpAccepted)
  {
    StepIsWellFormed(sid, user, state, input, view);
  }

  /** The CAPTCHA the user is asked to solve is the image the step has just
      recorded as an artifact; a retry is announced first. */
  lemma CaptchaPhotoIsRecorded(sid: SessionId, user: UserData, state: string, input: Option<string>, view: PageView)
    requires Decide(Step(sid, user, state, input, view).report).Wait?
    requires Decide(Step(sid, user, state, input, view).report).dialog == AwaitingCaptcha
    ensures var run := Step(sid, user, state, input, view);
      var ns := Decide(run.report).notices;
      && |ns| >= 1 && ns[|ns| - 1].Photo?
      && ShotArtifacts(sid, run.shot) == [ArtifactRow(sid, ArtifactType(run.shot.value.name), ns[|ns| - 1].path)]
      && (run.report.status == RetryAwaitingCaptcha <==> ns[0] == Text(RetryNotice))
  {
    var run := Step(sid, user, state, input, view);
    CaptchaPauseCarriesShot(sid, user, state, input, view);
    assert run.report.status in {PauseAwaitingCaptcha, RetryAwaitingCaptcha};
  }

  /** The user's answer to a wait, and what the world does: whether the
      browser fails to start, what the page shows at each step, the messages
      the user sends in order, and the id a /submit sent meanwhile would get. */
  datatype World = World(launchFails: bool, page: nat -> PageView, replies: seq<string>, ids: nat -> SessionId)

  /** A session that has ended: a final state, a result and an end time. */
  predicate Closed(row: SessionRow) {
    Terminal(row.state) && row.result.Some? && row.endedAt.Some?
  }

  /** The table `s` grew out of `s0` by appending rows and by updating only
      rows whose id is in `ids`. */
  predicate Evolves(s0: seq<SessionRow>, s: seq<SessionRow>, ids: seq<SessionId>) {
    && |s0| <= |s|
    && (forall i :: 0 <= i < |s0| ==> s[i].id == s0[i].id)
    && (forall i :: 0 <= i < |s0| && s0[i].id !in ids ==> s[i] == s0[i])
  }

  /** An update of session `sid` keeps the table evolving from `s0`, and
      changes the session's row as `Updated` says. */
  lemma UpdateKeepsEvolving(s0: seq<SessionRow>, s: seq<SessionRow>, sid: SessionId,
                            newState: string, result: Option<string>, now: nat)
    requires Evolves(s0, s, [sid])
    ensures Evolves(s0, WithState(s, sid, newState, result, now), [sid])
    ensures forall k :: 0 <= k < |s| && s[k].id == sid ==> WithState(s, sid, newState, result, now)[k] == Updated(s[k], newState, result, now)
  {
  }

  /** Two evolutions in a row, the second touching no row outside `ids`,
      are one evolution touching only `ids`. */
  lemma EvolvesTransitive(s0: seq<SessionRow>, s1: seq<SessionRow>, s2: seq<SessionRow>, ids: seq<SessionId>, more: seq<SessionId>)
    requires Evolves(s0, s1, ids) && Evolves(s1, s2, more) && (forall x :: x in more ==> x in ids)
    ensures Evolves(s0, s2, ids)
  {
  }

  /** Appending at most one row keeps the table evolving. */
  lemma GrowthEvolves(s: seq<SessionRow>, s': seq<SessionRow>, row: SessionRow)
    requires s' == s || s' == s + [row]
    ensures Evolves(s, s', [])
  {
  }

  /** One message of user `t` arriving while session `sid` waits with an
      empty queue: the bot handles it, and if it fills the queue, it fills it
      with its stripped text. At most a new queued session is added. */
  method Deliver(store: SessionStore, reg: Registry, chat: Chat, t: TelegramId, sid: SessionId, text: string, newId: SessionId)
    requires store.Valid() && sid in reg.queues && reg.queues[sid].None?
    modifies store`users, store`sessions, store`clock, reg`queues, chat
    ensures store.Valid()
    ensures reg.queues.Keys == old(reg.queues).Keys
    ensures Evolves(old(store.sessions), store.sessions, [])
    ensures reg.queues[sid].Some? ==> reg.queues[sid].value == Strip(text)
  {
    ghost var clock := store.clock;
    chat.Receive(store, reg, t, text, newId);
    GrowthEvolves(old(store.sessions), store.sessions, NewSession(newId, t, Automation.Queued, clock));
  }

  /** Waiting for the user's answer (orchestrator.py:120-136, 145-161): a
      fresh queue is opened, the user's messages go through the bot one by
      one until one of them fills it, and the queue is taken and removed.
      When the messages run out first, the wait times out (None). An answer is
      the stripped text of one of the messages it used up. */
  method WaitForAnswer(store: SessionStore, reg: Registry, chat: Chat, t: TelegramId, sid: SessionId, w: World, used: nat)
    returns (answer: Option<string>, usedAfter: nat)
    requires store.Valid() && reg.Valid() && sid in reg.active && sid !in reg.queues
    requires used <= |w.replies|
    modifies store`users, store`sessions, store`clock, reg`queues, chat
    ensures store.Valid() && reg.Valid() && reg.queues.Keys == old(reg.queues).Keys
    ensures Evolves(old(store.sessions), store.sessions, [])
    ensures used <= usedAfter <= |w.replies|
    ensures answer.Some? ==> used < usedAfter
    ensures answer.Some? ==> exists i :: used <= i < usedAfter && answer.value == Strip(w.replies[i])
    ensures answer.None? ==> usedAfter == |w.replies|
  {
    reg.OpenQueue(sid);
    answer, usedAfter := Listen(store, reg, chat, t, sid, w, used);
    reg.CloseQueue(sid);
  }

  /** The messages of the user go through the bot one by one, from `used`
      on, until one of them fills the queue of `sid` or they run out; then
      the queue is taken. */
  method Listen(store: SessionStore, reg: Registry, chat: Chat, t: TelegramId, sid: SessionId, w: World, used: nat)
    returns (answer: Option<string>, usedAfter: nat)
    requires store.Valid() && sid in reg.queues && reg.queues[sid].None?
    requires used <= |w.replies|
    modifies store`users, store`sessions, store`clock, reg`queues, chat
    ensures store.Valid()
    ensures reg.queues.Keys == old(reg.queues).Keys
    ensures Evolves(old(store.sessions), store.sessions, [])
    ensures used <= usedAfter <= |w.replies|
    ensures answer.Some? ==> exists i :: used <= i < usedAfter && answer.value == Strip(w.replies[i])
    ensures answer.None? ==> usedAfter == |w.replies|
  {
    usedAfter := used;
    ghost var from := used;
    while reg.queues[sid].None? && usedAfter < |w.replies|
      invariant store.Valid()
      invariant reg.queues.Keys == old(reg.queues).Keys
      invariant Evolves(old(store.sessions), store.sessions, [])
      invariant used <= usedAfter <= |w.replies|
      invariant reg.queues[sid].Some? ==> used <= from < usedAfter && reg.queues[sid].value == Strip(w.replies[from])
      decreases |w.replies| - usedAfter
    {
      ghost var before := store.sessions;
      Deliver(store, reg, chat, t, sid, w.replies[usedAfter], w.ids(usedAfter));
      EvolvesTransitive(old(store.sessions), before, store.sessions, [], []);
      from := usedAfter;
      usedAfter := usedAfter + 1;
    }
    answer := reg.Take(sid);
  }

  /** A pause of orchestrator.py:105-161: record the state the step moved
      to, send the prompt, put the user into the waiting dialog, and wait for
      the answer. On a timeout the user is told, and the session fails with
      `timeoutResult`. */
  method Pause(store: SessionStore, reg: Registry, chat: Chat, sid: SessionId, k: nat, t: TelegramId,
               next: string, notices: seq<Body>, dialog: Dialog, timeoutResult: string, w: World, used: nat)
    returns (answer: Option<string>, usedAfter: nat)
    requires store.Valid() && reg.Valid() && sid in reg.active && sid !in reg.queues
    requires k < |store.sessions| && store.sessions[k].id == sid
    requires used <= |w.replies| && timeoutResult != ""
    modifies store, reg`queues, chat
    ensures store.Valid() && reg.Valid()
    ensures reg.queues.Keys == old(reg.queues).Keys
    ensures Evolves(old(store.sessions), store.sessions, [sid])
    ensures used <= usedAfter <= |w.replies|
    ensures answer.Some? ==> used < usedAfter
    ensures answer.None? ==> store.sessions[k].state == FailedState && store.sessions[k].result == Some(timeoutResult)
    ensures answer.Some? ==> store.sessions[k].state == next && store.sessions[k].result == old(store.sessions[k].result)
    ensures answer.Some? ==> exists i :: used <= i < usedAfter && answer.value == Strip(w.replies[i])
    ensures answer.None? ==> usedAfter == |w.replies|
  {
    ghost var s0 := store.sessions;
    UpdateKeepsEvolving(s0, store.sessions, sid, next, None, store.clock);
    var _ := store.UpdateSessionState(sid, next, None);
    chat.SayAll(t, notices);
    chat.AwaitAnswer(t, dialog, sid);
    ghost var before := store.sessions;
    answer, usedAfter := WaitForAnswer(store, reg, chat, t, sid, w, used);
    EvolvesTransitive(s0, before, store.sessions, [sid], [sid]);
    if answer.None? {
      chat.Say(t, TimedOutNotice);
      UpdateKeepsEvolving(s0, store.sessions, sid, FailedState, Some(timeoutResult), store.clock);
      var _ := store.UpdateSessionState(sid, FailedState, Some(timeoutResult));
    }
  }

  /** The end of a session (orchestrator.py:164-190): record the final
      state with its result, which also ends the session, and send the
      notices. */
  method Conclude(store: SessionStore, chat: Chat, sid: SessionId, k: nat, t: TelegramId,
                  state: string, result: string, notices: seq<Body>)
    requires store.Valid() && k < |store.sessions| && store.sessions[k].id == sid && result != ""
    modifies store`sessions, store`clock, chat`outbox
    ensures store.Valid()
    ensures Evolves(old(store.sessions), store.sessions, [sid])
    ensures store.sessions[k].state == state && store.sessions[k].result == Some(result)
    ensures chat.outbox == old(chat.outbox) + Addressed(t, notices)
  {
    UpdateKeepsEvolving(store.sessions, store.sessions, sid, state, Some(result), store.clock);
    var _ := store.UpdateSessionState(sid, state, Some(result));
    chat.SayAll(t, notices);
  }

  /** One turn of the loop of orchestrator.py:91-190 for session `sid`, the
      row at `k`, of user `t`, in the non-final state `current`: record the
      running state, run the step on the page `view` with the user's last
      answer `input`, and act on its report as `Decide` says. It returns the
      state the session is in afterwards and the answer for the next step. A
      final state has been recorded with the result `Decide` gives, or, after
      a wait that timed out, with the timeout result; any other state is the
      one the report named, reached by an answer that is the stripped text of
      a message of the user. */
  method Turn(store: SessionStore, reg: Registry, chat: Chat, sid: SessionId, k: nat, t: TelegramId,
              user: UserData, current: string, input: Option<string>, view: PageView, w: World, used: nat)
    returns (next: string, answer: Option<string>, usedAfter: nat)
    requires store.Valid() && reg.Valid() && sid in reg.active && sid !in reg.queues
    requires k < |store.sessions| && store.sessions[k].id == sid
    requires used <= |w.replies| && !Terminal(current)
    modifies store, reg`queues, chat
    ensures store.Valid() && reg.Valid()
    ensures reg.queues.Keys == old(reg.queues).Keys
    ensures Evolves(old(store.sessions), store.sessions, [sid])
    ensures used <= usedAfter <= |w.replies|
    ensures Terminal(next) ==> store.sessions[k].state == next && Given(store.sessions[k].result)
    ensures !Terminal(next) ==> used < usedAfter && answer.Some? && store.sessions[k].state == next
    ensures var o := Decide(Step(sid, user, current, input, view).report);
      o.Finish? ==> next == o.state && store.sessions[k].result == Some(o.result)
    ensures var o := Decide(Step(sid, user, current, input, view).report);
      o.Wait? && answer.Some? ==> next == o.next && exists i :: used <= i < usedAfter && answer.value == Strip(w.replies[i])
    ensures var o := Decide(Step(sid, user, current, input, view).report);
      o.Wait? && answer.None? ==> next == FailedState && store.sessions[k].result == Some(o.timeoutResult) && usedAfter == |w.replies|
  {
    ghost var s0 := store.sessions;
    UpdateKeepsEvolving(s0, store.sessions, sid, RunningPrefix + current, None, store.clock);
    var _ := store.UpdateSessionState(sid, RunningPrefix + current, None);
    var report := ExecuteStep(store, sid, user, current, input, view);
    StepDecisions(sid, user, current, input, view);
    usedAfter := used;
    match Decide(report) {
      case Wait(state, notices, dialog, timeoutResult) =>
        ghost var before := store.sessions;
        answer, usedAfter := Pause(store, reg, chat, sid, k, t, state, notices, dialog, timeoutResult, w, used);
        EvolvesTransitive(s0, before, store.sessions, [sid], [sid]);
        next := if answer.None? then FailedState else state;
      case Finish(state, result, notices) =>
        next, answer := state, input;
        ghost var before := store.sessions;
        Conclude(store, chat, sid, k, t, state, result, notices);
        EvolvesTransitive(s0, before, store.sessions, [sid], [sid]);
      case Missing =>
        assert false;
    }
  }

  /** The loop of orchestrator.py:91-190 for session `sid`, the row at `k`,
      of user `t`: turns until a final state, the page showing `w.page(n)`
      at the n-th step. A session that was not in a final state ends with a
      final state and a result; no other row changes. */
  method RunSession(store: SessionStore, reg: Registry, chat: Chat, sid: SessionId, k: nat, t: TelegramId,
                    user: UserData, w: World)
    requires store.Valid() && reg.Valid() && sid in reg.active && sid !in reg.queues
    requires k < |store.sessions| && store.sessions[k].id == sid
    modifies store, reg`queues, chat
    ensures store.Valid() && reg.Valid()
    ensures reg.queues.Keys == old(reg.queues).Keys
    ensures Evolves(old(store.sessions), store.sessions, [sid])
    ensures !Terminal(old(store.sessions)[k].state) ==> Closed(store.sessions[k])
  {
    ghost var s0 := store.sessions;
    var current := store.sessions[k].state;
    var input: Option<string> := None;
    var steps: nat := 0;
    var used: nat := 0;
    while !Terminal(current)
      invariant store.Valid() && reg.Valid()
      invariant reg.queues.Keys == old(reg.queues).Keys && sid !in reg.queues
      invariant Evolves(s0, store.sessions, [sid])
      invariant used <= |w.replies|
      invariant Terminal(current) && !Terminal(s0[k].state) ==>
        store.sessions[k].state == current && Given(store.sessions[k].result)
      decreases |w.replies| - used, if Terminal(current) then 0 else 1
    {
      ghost var before := store.sessions;
      current, input, used := Turn(store, reg, chat, sid, k, t, user, current, input, w.page(steps), w, used);
      EvolvesTransitive(s0, before, store.sessions, [sid], [sid]);
      steps := steps + 1;
    }
  }

  /** The part of `orchestrate_session` run while `sid` is registered as
      active (orchestrator.py:63-199): find the session and its user, then
      fail it when the user is unknown or the browser does not start, and
      otherwise run its loop. */
  method Attend(store: SessionStore, reg: Registry, chat: Chat, sid: SessionId, w: World)
    requires store.Valid() && reg.Valid() && sid in reg.active && sid !in reg.queues
    modifies store, reg`queues, chat
    ensures store.Valid() && reg.Valid()
    ensures reg.queues.Keys == old(reg.queues).Keys
    ensures Evolves(old(store.sessions), store.sessions, [sid])
    ensures forall k :: (0 <= k < |old(store.sessions)| && old(store.sessions)[k].id == sid
              && !Terminal(old(store.sessions)[k].state)) ==> Closed(store.sessions[k])
    ensures forall k :: (0 <= k < |old(store.sessions)| && old(store.sessions)[k].id == sid
              && old(store.GetUserData(store.sessions[k].owner)).None?) ==>
              store.sessions[k].state == FailedState && store.sessions[k].result == Some(NoUserResult)
    ensures forall k :: (0 <= k < |old(store.sessions)| && old(store.sessions)[k].id == sid
              && old(store.GetUserData(store.sessions[k].owner)).Some? && w.launchFails) ==>
              store.sessions[k].state == FailedState && store.sessions[k].result == Some(CrashResult)
    ensures forall k :: (0 <= k < |old(store.sessions)| && old(store.sessions)[k].id == sid
              && old(store.GetUserData(store.sessions[k].owner)).None?) ==>
              chat.outbox == old(chat.outbox)
    ensures forall k :: (0 <= k < |old(store.sessions)| && old(store.sessions)[k].id == sid
              && old(store.GetUserData(store.sessions[k].owner)).Some? && w.launchFails) ==>
              chat.outbox == old(chat.outbox) + [Notice(old(store.sessions)[k].owner, Text(CriticalNotice))]
  {
    var index := IndexOf(store.sessions, sid);
    if index.None? {
      return;
    }
    var k := index.value;
    var t := store.sessions[k].owner;
    var user := store.GetUserData(t);
    if user.None? {
      Conclude(store, chat, sid, k, t, FailedState, NoUserResult, []);
    } else if w.launchFails {
      Conclude(store, chat, sid, k, t, FailedState, CrashResult, [Text(CriticalNotice)]);
      assert Addressed(t, [Text(CriticalNotice)]) == [Notice(t, Text(CriticalNotice))];
    } else {
      RunSession(store, reg, chat, sid, k, t, user.value, w);
    }
  }

  /** `orchestrate_session` (orchestrator.py:52-205) for the session `sid`. A
      session already being orchestrated is left alone. Otherwise, once it
      returns, no other session's row has changed, the set of sessions being
      orchestrated is as before and no queue was added or removed; a session
      that was not in a final state has ended with a final state and a
      result: "User data not found" for an unknown user, "Orchestrator
      critical failure" when the browser does not start. */
  method OrchestrateSession(store: SessionStore, reg: Registry, chat: Chat, sid: SessionId, w: World)
    requires store.Valid() && reg.Valid()
    modifies store, reg, chat
    ensures store.Valid() && reg.Valid()
    ensures reg.active == old(reg.active)
    ensures reg.queues.Keys == old(reg.queues).Keys
    ensures Evolves(old(store.sessions), store.sessions, [sid])
    ensures old(sid in reg.active) ==> unchanged(store, reg, chat)
    ensures forall k :: (0 <= k < |old(store.sessions)| && old(store.sessions)[k].id == sid
              && sid !in old(reg.active) && !Terminal(old(store.sessions)[k].state)) ==> Closed(store.sessions[k])
    ensures forall k :: (0 <= k < |old(store.sessions)| && old(store.sessions)[k].id == sid && sid !in old(reg.active)
              && old(store.GetUserData(store.sessions[k].owner)).None?) ==>
              store.sessions[k].state == FailedState && store.sessions[k].result == Some(NoUserResult)
    ensures forall k :: (0 <= k < |old(store.sessions)| && old(store.sessions)[k].id == sid && sid !in old(reg.active)
              && old(store.GetUserData(store.sessions[k].owner)).Some? && w.launchFails) ==>
              store.sessions[k].state == FailedState && store.sessions[k].result == Some(CrashResult)
    ensures forall k :: (0 <= k < |old(store.sessions)| && old(store.sessions)[k].id == sid && sid !in old(reg.active)
              && old(store.GetUserData(store.sessions[k].owner)).None?) ==>
              chat.outbox == old(chat.outbox)
    ensures forall k :: (0 <= k < |old(store.sessions)| && old(store.sessions)[k].id == sid && sid !in old(reg.active)
              && old(store.GetUserData(store.sessions[k].owner)).Some? && w.launchFails) ==>
              chat.outbox == old(chat.outbox) + [Notice(old(store.sessions)[k].owner, Text(CriticalNotice))]
  {
    if sid in reg.active {
      return;
    }
    reg.Activate(sid);
    Attend(store, reg, chat, sid, w);
    reg.Deactivate(sid);
  }

  /** The sessions `session_manager` picks up (orchestrator.py:217-220): the
      queued ones not already being orchestrated, in table order. */
  function QueuedNotActive(ss: seq<SessionRow>, active: set<SessionId>): (r: seq<SessionId>)
    ensures forall x :: x in r <==> exists i :: 0 <= i < |ss| && ss[i].id == x && ss[i].state == Queued && x !in active
  {
    if ss == [] then []
    else
      var rest := QueuedNotActive(ss[1..], active);
      assert forall i :: 0 <= i < |ss| - 1 ==> ss[1..][i] == ss[i + 1];
      if ss[0].state == Queued && ss[0].id !in active then [ss[0].id] + rest else rest
  }

  predicate NoDuplicates(r: seq<SessionId>) {
    forall i, j :: 0 <= i < j < |r| ==> r[i] != r[j]
  }

  /** In a table with distinct ids, no session is picked twice. */
  lemma {:induction false} QueuedNotActiveDistinct(ss: seq<SessionRow>, active: set<SessionId>)
    requires DistinctIds(ss)
    ensures NoDuplicates(QueuedNotActive(ss, active))
  {
    if ss != [] {
      QueuedNotActiveDistinct(ss[1..], active);
      var rest := QueuedNotActive(ss[1..], active);
      forall x | x in rest ensures x != ss[0].id {
        var m :| 0 <= m < |ss[1..]| && ss[1..][m].id == x;
        assert ss[m + 1].id == x;
      }
      var r := QueuedNotActive(ss, active);
      if ss[0].state == Queued && ss[0].id !in active {
        assert r == [ss[0].id] + rest;
        forall i, j | 0 <= i < j < |r| ensures r[i] != r[j] {
          assert r[j] == rest[j - 1] && rest[j - 1] in rest;
          if i > 0 {
            assert r[i] == rest[i - 1];
          }
        }
      } else {
        assert r == rest;
      }
    }
  }

  /** In a table with distinct ids, the row of a picked session is queued
      and the session is not being orchestrated. */
  lemma PickedRowIsQueued(ss: seq<SessionRow>, active: set<SessionId>, i: nat)
    requires DistinctIds(ss) && i < |ss| && ss[i].id in QueuedNotActive(ss, active)
    ensures ss[i].state == Queued && ss[i].id !in active
  {
    var m :| 0 <= m < |ss| && ss[m].id == ss[i].id && ss[m].state == Queued && ss[i].id !in active;
    assert m == i;
  }

  /** Orchestrating session `sid` leaves the sessions in `done`, other than
      `sid`, as closed as they were. */
  lemma ClosedKept(s0: seq<SessionRow>, before: seq<SessionRow>, after: seq<SessionRow>, done: seq<SessionId>, sid: SessionId)
    requires Evolves(s0, before, done) && Evolves(before, after, [sid]) && sid !in done
    requires forall i :: 0 <= i < |s0| && s0[i].id in done ==> Closed(before[i])
    ensures forall i :: 0 <= i < |s0| && s0[i].id in done ==> Closed(after[i])
  {
    forall i | 0 <= i < |s0| && s0[i].id in done ensures Closed(after[i]) {
      assert before[i].id == s0[i].id;
    }
  }

  /** No session is picked before its own turn. */
  lemma FreshPick(picked: seq<SessionId>, j: nat)
    requires NoDuplicates(picked) && j < |picked|
    ensures picked[j] !in picked[..j]
  {
    forall m | 0 <= m < j ensures picked[m] != picked[j] {
      assert 0 <= m < j < |picked|;
    }
  }

  /** A picked session is not active, and its row is queued. */
  lemma PickedIsQueued(s0: seq<SessionRow>, active: set<SessionId>, sid: SessionId)
    requires DistinctIds(s0) && sid in QueuedNotActive(s0, active)
    ensures sid !in active
    ensures forall i :: 0 <= i < |s0| && s0[i].id == sid ==> s0[i].state == Queued
  {
    var m :| 0 <= m < |s0| && s0[m].id == sid && s0[m].state == Queued && sid !in active;
    forall i | 0 <= i < |s0| && s0[i].id == sid ensures s0[i].state == Queued {
      PickedRowIsQueued(s0, active, i);
    }
  }

  /** A picked session whose row is as it was at the start of the round is
      queued and not active, so orchestrating it closes it. */
  lemma PickedCloses(s0: seq<SessionRow>, before: seq<SessionRow>, after: seq<SessionRow>,
                     active: set<SessionId>, sid: SessionId)
    requires sid !in active && |s0| <= |before| <= |after|
    requires forall i :: 0 <= i < |s0| && s0[i].id == sid ==> s0[i].state == Queued
    requires forall i :: 0 <= i < |s0| && s0[i].id == sid ==> before[i] == s0[i]
    requires forall k :: (0 <= k < |before| && before[k].id == sid
               && sid !in active && !Terminal(before[k].state)) ==> Closed(after[k])
    ensures forall i :: 0 <= i < |s0| && s0[i].id == sid ==> Closed(after[i])
  {
  }

  /** Orchestrating the j-th picked session keeps the round's invariant:
      the picked sessions so far have ended, and only their rows changed. */
  lemma PollStepKeeps(s0: seq<SessionRow>, before: seq<SessionRow>, after: seq<SessionRow>,
                      active: set<SessionId>, picked: seq<SessionId>, j: nat)
    requires NoDuplicates(picked) && j < |picked| && picked[j] !in active
    requires forall i :: 0 <= i < |s0| && s0[i].id == picked[j] ==> s0[i].state == Queued
    requires Evolves(s0, before, picked[..j])
    requires forall i :: 0 <= i < |s0| && s0[i].id in picked[..j] ==> Closed(before[i])
    requires Evolves(before, after, [picked[j]])
    requires forall k :: (0 <= k < |before| && before[k].id == picked[j]
               && picked[j] !in active && !Terminal(before[k].state)) ==> Closed(after[k])
    ensures Evolves(s0, after, picked[..j + 1])
    ensures forall i :: 0 <= i < |s0| && s0[i].id in picked[..j + 1] ==> Closed(after[i])
  {
    FreshPick(picked, j);
    ClosedKept(s0, before, after, picked[..j], picked[j]);
    PickedCloses(s0, before, after, active, picked[j]);
    ClosedStep(s0, before, after, picked[..j], picked[j]);
    assert picked[..j + 1] == picked[..j] + [picked[j]];
  }

  /** Orchestrating one more session `sid` after the sessions in `done`:
      the table evolved by `done + [sid]`, and when both `done` and `sid`
      ended closed, all of them did. */
  lemma ClosedStep(s0: seq<SessionRow>, before: seq<SessionRow>, after: seq<SessionRow>, done: seq<SessionId>, sid: SessionId)
    requires Evolves(s0, before, done) && Evolves(before, after, [sid])
    requires forall i :: 0 <= i < |s0| && s0[i].id in done ==> Closed(after[i])
    requires forall i :: 0 <= i < |s0| && s0[i].id == sid ==> Closed(after[i])
    ensures Evolves(s0, after, done + [sid])
    ensures forall i :: 0 <= i < |s0| && s0[i].id in done + [sid] ==> Closed(after[i])
  {
    forall i | 0 <= i < |s0| && s0[i].id !in done + [sid] ensures after[i] == s0[i] {
      assert s0[i].id !in done && before[i].id == s0[i].id;
    }
    forall i | 0 <= i < |s0| && s0[i].id in done + [sid] ensures Closed(after[i]) {
      assert s0[i].id in done || s0[i].id == sid;
    }
  }

  /** One round of `session_manager` (orchestrator.py:215-232): pick the
      queued sessions and orchestrate each; `worldOf` says how each one goes.
      Afterwards every picked session has ended with a final state and a
      result, and no other session's row has changed. */
  method PollOnce(store: SessionStore, reg: Registry, chat: Chat, worldOf: SessionId -> World) returns (picked: seq<SessionId>)
    requires store.Valid() && reg.Valid()
    modifies store, reg, chat
    ensures store.Valid() && reg.Valid()
    ensures picked == QueuedNotActive(old(store.sessions), old(reg.active))
    ensures reg.active == old(reg.active)
    ensures Evolves(old(store.sessions), store.sessions, picked)
    ensures forall i :: 0 <= i < |old(store.sessions)| && old(store.sessions)[i].id in picked ==> Closed(store.sessions[i])
  {
    picked := QueuedNotActive(store.sessions, reg.active);
    QueuedNotActiveDistinct(store.sessions, reg.active);
    ghost var s0 := store.sessions;
    for j := 0 to |picked|
      invariant store.Valid() && reg.Valid()
      invariant reg.active == old(reg.active)
      invariant NoDuplicates(picked)
      invariant Evolves(s0, store.sessions, picked[..j])
      invariant forall i :: 0 <= i < |s0| && s0[i].id in picked[..j] ==> Closed(store.sessions[i])
    {
      ghost var before := store.sessions;
      OrchestrateSession(store, reg, chat, picked[j], worldOf(picked[j]));
      PickedIsQueued(s0, old(reg.active), picked[j]);
      PollStepKeeps(s0, before, store.sessions, old(reg.active), picked, j);
    }
    assert picked[..|picked|] == picked;
  }
}
