# Licence-renewal automation: session core in Dafny

The system automates the Maharashtra driving-licence renewal form for users who
talk to a Telegram bot. The model covers four parts of it:

- **The bot** (`bot.py`). A user registers a serial number and a date of birth,
  then asks for a submission with `/submit`. That queues a session in the
  database.
- **The session manager** (`orchestrator.py`). It picks up queued sessions and
  runs each through the workflow QUEUED → AWAITING_FIRST_CAPTCHA →
  AWAITING_OTP_CAPTCHA → AWAITING_OTP_SUBMISSION.
  - Each step is one call of the step executor (`automation.py`).
  - At every CAPTCHA and OTP, the session waits up to five minutes for the
    user's answer. The answer comes through a one-slot queue that the bot's
    handlers fill.
  - Every state is recorded in the session store (`db.py`).
- **The step executor** (`automation.py`).
- **The session store** (`db.py`).

The model is split into these modules:

- `Common` (common.dfy): an `Option` type, plus the Python string methods the
  program relies on: `strip`, `replace(c, '')`, `isalnum` and `upper`.
- `Dates` (dates.dfy): `strptime("%Y-%m-%d")` and the two `strftime` layouts,
  with their round trips.
- `Store` (store.dfy): the store of db.py.
  - The users map and the sessions, logs and artifacts tables are kept in
    insertion order.
  - A counter stands in for the database clock.
  - Encryption is an abstract token that opens only with its own key.
  - The class `SessionStore` holds the tables. Its methods change them as
    db.py does, and are proved against pure table functions.
- `Automation` (automation.py):
  - The step is a pure function of the session, the user, the state, the
    user's input and what the page shows (`PageView`).
  - Screenshots become artifact and log rows.
  - `StepAsWritten` models the two lines that make the function raise (see
    Findings).
- `Bookkeeping` (bookkeeping.dfy): `ACTIVE_SESSIONS` and `USER_INPUT_QUEUES`.
  They live in their own module, so that the bot and the orchestrator can both
  use them without importing each other.
- `Bot` (bot.dfy):
  - The FSM conversation of each user, and the messages the bot sends, in
    order.
  - The routing of a text message to its handler.
  - The six handlers.
- `Orchestrator` (orchestrator.dfy): the mapping from step reports to recorded
  states, the loop of `orchestrate_session` and one round of
  `session_manager`.
  - The browser and the user are replaced by a `World`: whether the browser
    starts, what the page shows at each step, and the messages the user sends,
    in order.
  - While the session waits, those messages go through the bot's handlers.
  - When the messages run out, the wait times out, so every run ends.

On these points the model follows the code:

- **End time.** The end time is set when a non-empty result is given
  (db.py:254-256), not when the state is final. `RUNNING_*` and pause writes
  carry no result.
- **Who marks a session active.** The session is marked active inside
  `orchestrate_session` (orchestrator.py:60), not by the manager before it
  starts the task.
- **No retries.** There is no bounded retry of page faults and no `Continue`
  outcome. Each fault ends the step with a failure.
- **Timeout results.** A timeout records "Timeout on CAPTCHA" or "Timeout on
  OTP".
- **No notification on some failures.** An unknown user and an unknown status
  fail the session without telling the user.
- **"Active" session.** A session counts as active while it has no end time
  (db.py:266-269).

## Model

| member | source | states |
|---|---|---|
| Common.Strip | bot.py:155 | `str.strip()`: the result is no longer than the text and neither starts nor ends with whitespace |
| Common.StripIsSlice | bot.py:155 | the stripped text is a slice of the input whose cut-off margins are all whitespace |
| Common.StripKeepsTrimmed | bot.py:170 | text without surrounding whitespace is left unchanged |
| Common.StripIdempotent | bot.py:206 | stripping twice equals stripping once |
| Common.IsAlnumText | bot.py:158 | `str.isalnum()` on ASCII: the text is not empty and every character is a letter or a digit |
| Common.RemoveAll | bot.py:158 | `replace('-', '')`: the result holds exactly the characters of the input other than the removed one |
| Common.Upper | db.py:277 | `upper()`: the same length, every lower-case letter becomes its capital (32 code points lower), every other character is kept |
| Common.UpperIdempotent | automation.py:52 | upper-casing twice equals upper-casing once |
| Dates.ParseIso | bot.py:174 | `strptime(s, "%Y-%m-%d").date()`: four digits, a one- or two-digit month, a one- or two-digit day, joined by dashes, for a date that exists; None where Python raises ValueError. Its properties are ParseIsoFixedWidth and ParseFormatIso |
| Dates.FormatIso | bot.py:92 | `strftime('%Y-%m-%d')`; ParseFormatIso proves it parses back |
| Dates.FormatDmy | automation.py:126 | `strftime('%d-%m-%Y')`; FormatDmyFields states its layout |
| Dates.PadValue | bot.py:92 | a number below 10^w is written in exactly w digits that read back as the number |
| Dates.ParseIsoFixedWidth | bot.py:174 | a four-digit year, a two-character month token and a day token, joined by dashes, parse exactly when that date exists, and then to that date |
| Dates.ParseFormatIso | bot.py:174 | every date printed with `%Y-%m-%d` (as at bot.py:92) parses back to itself |
| Dates.FormatDmyFields | automation.py:126 | the DD-MM-YYYY text has ten characters, with dashes at positions 2 and 5, and its digit groups read back as the day, the month and the year |
| Store.UpsertUser | db.py:184-206 | the users table after `add_or_update_user`; LookupAfterUpsert, UpsertKeysAndOthers and UpsertWithoutKey state its effect |
| Store.LookupUser | db.py:208-231 | `get_user_data` on the users table, decrypting the serial; its partner is UpsertUser |
| Store.WithState | db.py:245-261 | the sessions table after `update_session_state`; WithStateEffect states its effect |
| Store.NewSession | db.py:233-243 | the row `create_session` inserts: the given state, no result, no end, started now |
| Store.Encrypt | db.py:67-69 | `EncryptionManager.encrypt`: a token that holds the text and opens only with the key that made it |
| Store.Decrypt | db.py:71-77 | `EncryptionManager.decrypt`: the text for the token's own key, None (the caught InvalidToken) for any other; DecryptInvertsEncrypt and DecryptNeedsSameKey state both directions |
| Store.DecryptInvertsEncrypt | db.py:67-77 | decrypting with the same key returns the encrypted text |
| Store.DecryptNeedsSameKey | db.py:71-77 | a token made with another key does not decrypt (None) |
| Store.LookupAfterUpsert | db.py:208-231 | after saving a user, `get_user_data` returns the saved serial and date of birth |
| Store.UpsertKeysAndOthers | db.py:192-206 | saving adds a row only for a new Telegram id, and every other user reads back as before |
| Store.UpsertWithoutKey | db.py:186-188 | without an encryption manager nothing is saved |
| Store.LookupUnknown | db.py:219-220 | an unknown Telegram id has no user data |
| Store.IndexOf | db.py:248 | the lookup by id: the position of the row with that id, or None exactly when no row has it |
| Store.WithStateEffect | db.py:245-261 | an update touches only the named session and sets its state. It sets result and end time together exactly when a non-empty result is passed. It keeps ids, owners and start times, and it keeps distinct ids, "ended iff result" and at-most-one-open |
| Store.ActiveSession | db.py:263-270 | `get_active_session`: an unended session of the user, started no earlier than any other unended session of the user. None exactly when the user has no unended session |
| Store.FinalisingClosesActive | db.py:359-367 | finalising the active session with a result leaves the user no active session |
| Store.CreateKeepsAtMostOneOpen | bot.py:119-132 | queuing a session for a user with no active one keeps at most one open session per user |
| Store.SessionStore.constructor | db.py:175-181 | an empty database with the given encryption key satisfies the store invariant |
| Store.SessionStore.AddOrUpdateUser | db.py:184-206 | the users table becomes the upsert of the given serial (encrypted) and date of birth |
| Store.SessionStore.GetUserData | db.py:208-231 | `get_user_data` on the store's users and key, as LookupUser |
| Store.SessionStore.GetActiveSession | db.py:263-270 | `get_active_session` on the store's sessions, as ActiveSession |
| Store.SessionStore.CreateSession | db.py:233-243 | for a user with no active session (the caller, bot.py:119-120, checks this): a fresh id appends one row in the given state with no end and no result, started at the current clock. An id already in use changes nothing and gives None. The store invariant (distinct ids, "ended iff result", at most one open session per user, start times before the clock) is kept |
| Store.SessionStore.UpdateSessionState | db.py:245-261 | false, with nothing changed, for an unknown id. Otherwise true, and the table is the result of that one update. The store invariant is kept |
| Store.SessionStore.LogEvent | db.py:272-281 | appends exactly one log row, with the level upper-cased |
| Store.SessionStore.AddArtifact | db.py:283-293 | appends exactly one artifact row |
| Automation.ScreenshotPath | automation.py:46-49 | `os.path.join(ARTIFACTS_DIR, session_id)` joined with `<name>.png`; ScreenshotPathLayout and ScreenshotPathsDiffer state its shape and that it is injective in the name |
| Automation.ArtifactType | automation.py:52 | `f"{name.upper()}_SCREENSHOT"`; ArtifactTypeShape states its shape |
| Automation.ScreenshotPathLayout | automation.py:46-49 | the screenshot n of session s is saved at artifacts/s/n.png |
| Automation.ScreenshotPathsDiffer | automation.py:46-67 | screenshots with different names land in different files |
| Automation.ArtifactTypeShape | automation.py:52-67 | the artifact type is the name upper-cased, followed by `_SCREENSHOT` |
| Automation.QueuedPausesForFirstCaptcha | automation.py:104-136 | from QUEUED, a step without a fault does three things. It types the serial and the DD-MM-YYYY date of birth, saves captcha_1, and pauses for the first CAPTCHA with next state AWAITING_FIRST_CAPTCHA |
| Automation.MissingInputFails | automation.py:139-206 | in the three answer states, a missing or empty answer fails with a reason, before typing anything or taking a screenshot |
| Automation.RejectedCaptchaRetries | automation.py:149-159 | a visible "Invalid Captcha" yields RETRY_AWAITING_CAPTCHA, back to AWAITING_FIRST_CAPTCHA, with the fresh image captcha_1_retry |
| Automation.AcceptedCaptchaAdvances | automation.py:160-179 | an accepted first CAPTCHA pauses for the OTP CAPTCHA (captcha_2_for_otp) with next state AWAITING_OTP_CAPTCHA |
| Automation.OtpCaptchaOutcome | automation.py:192-201 | the step pauses for the OTP, with next state AWAITING_OTP_SUBMISSION, exactly when the page confirms the OTP was sent. Otherwise it fails with the OTP-generation reason |
| Automation.OtpSubmissionOutcome | automation.py:204-230 | the step succeeds exactly when the page accepts the OTP, with the final_success screenshot. Otherwise it fails with the OTP-submission reason |
| Automation.UnknownStateFails | automation.py:232-235 | a state outside the four fails with "Unknown state '<state>'", types nothing and takes no screenshot |
| Automation.TimeoutFails | automation.py:237-240 | a page timeout fails with "Page element not found or timed out." and the error_timeout screenshot |
| Automation.UnexpectedErrorFails | automation.py:241-244 | any other page error fails with the generic reason and the error_unexpected screenshot. A serial that cannot be decrypted is such an error |
| Automation.CaptchaPauseCarriesShot | automation.py:133-179 | a pause for a CAPTCHA always comes with an element screenshot, and its path is the one the report names |
| Automation.StepIsWellFormed | automation.py:136-230 | every report, for every input, has one of the five statuses. A pause moves to the next state of the workflow, or back to the same state for a CAPTCHA retry. A CAPTCHA pause carries the image. Success and failure carry no next state. A failure always has a non-empty reason |
| Automation.Step | automation.py:76-244 | `execute_automation_step` as intended: the report, the typing and the screenshot of one step. The lemmas below state its branches; StepIsWellFormed covers every input |
| Automation.StepAsWritten | automation.py:76-244 | the step as written, raising at automation.py:157 and automation.py:242; AsWrittenAgreesWhenItReturns relates it to Step |
| Automation.TakeElementScreenshot | automation.py:44-57 | returns artifacts/<sid>/<name>.png, and appends one artifact row of type `<NAME>_SCREENSHOT` and one INFO log row naming the path |
| Automation.TakeFullPageScreenshot | automation.py:59-72 | the same for the full-page screenshot, with its own log text |
| Automation.ExecuteStep | automation.py:76-244 | returns the report of the step function, and records the screenshot the step took, if any, as one artifact row and one log row |
| Automation.AsWrittenNeverRetries | automation.py:157 | as written, no input yields RETRY_AWAITING_CAPTCHA: the retry raises instead |
| Automation.AsWrittenRaisesOnUnexpectedError | automation.py:242 | as written, a user whose serial cannot be decrypted makes the step raise instead of reporting a failure |
| Automation.AsWrittenAgreesWhenItReturns | automation.py:76-244 | wherever the written function returns, it returns the intended record |
| Bookkeeping.Registry.constructor | orchestrator.py:39-43 | no session active, no queue open |
| Bookkeeping.Registry.Activate | orchestrator.py:60 | the id joins the active set |
| Bookkeeping.Registry.Deactivate | orchestrator.py:200-204 | the id leaves the active set (also on the early exits at orchestrator.py:67 and 75) |
| Bookkeeping.Registry.OpenQueue | orchestrator.py:126-127 | a fresh, empty one-slot queue replaces any earlier queue for the session (likewise at orchestrator.py:151-152) |
| Bookkeeping.Registry.Put | bot.py:216-217 | an empty queue takes the value; a full one keeps what it holds |
| Bookkeeping.Registry.Take | orchestrator.py:128 | returns the value held, or None (a timeout) when nothing was put, and leaves the queue empty |
| Bookkeeping.Registry.CloseQueue | orchestrator.py:135-136 | the session's queue is removed; the other queues are kept |
| Bot.ValidSerial | bot.py:158 | the serial check `replace('-', '').isalnum()`; ValidSerialChars states which serials pass |
| Bot.Word | bot.py:75-105 | the first whitespace-free run of the text: a prefix without whitespace that is the whole text or is followed by whitespace |
| Bot.FirstWord | bot.py:75-104 | the command word the `CommandStart()` and `Command("submit")` filters compare: the first whitespace-free run after leading whitespace; FirstWordStartsStripped ties it to the stripped text |
| Bot.Route | bot.py:75-228 | the handler a text message reaches: `/start` and `/submit` in any state, then the handler of the FSM state, none when idle. SerialAnswerIsNotCommand and DobAnswerIsNotCommand state that answers reach their state's handler |
| Bot.ValidSerialChars | bot.py:155-160 | a serial is accepted exactly when it consists of letters, digits and dashes and holds at least one letter or digit |
| Bot.FirstWordStartsStripped | bot.py:75-105 | the command word begins with the first character of the stripped text |
| Bot.SerialAnswerIsNotCommand | bot.py:152-158 | an acceptable serial never reads as a command, so in getting_serial_no it reaches the serial handler |
| Bot.DobAnswerIsNotCommand | bot.py:167-174 | an acceptable date never reads as a command, so in getting_dob it reaches the date handler |
| Bot.ShownDobIsAccepted | bot.py:170-174 | the date of birth shown to a registered user (bot.py:92) is accepted back unchanged by the registration |
| Bot.Chat.Say | orchestrator.py:111 | `bot.send_message`: exactly one text notice to the user is appended to the outbox |
| Bot.Chat.Show | orchestrator.py:114-118 | `bot.send_photo`: exactly one photo notice, with its path and caption, is appended |
| Bot.Chat.SayAll | orchestrator.py:105-118 | the notices of a decision are appended in order, each addressed to the user |
| Bot.Chat.Clear | bot.py:84 | `state.clear()` forgets exactly that user's conversation |
| Bot.Chat.AwaitAnswer | orchestrator.py:122-124 | the user's FSM state is set and the session id is merged into the conversation data |
| Bot.Chat.HandleStart | bot.py:75-101 | the conversation becomes getting_serial_no with no data. The bot sends the greeting, which shows the saved serial and the date as YYYY-MM-DD for a registered user, and then the serial prompt |
| Bot.Chat.HandleSubmit | bot.py:104-147 | for an unregistered user or a user with an unended session, no session and the matching refusal (which names the active session). Otherwise one new QUEUED session and the queued notice, or the internal-error notice when the insert fails. The store invariant is kept |
| Bot.Chat.ProcessSerialNo | bot.py:152-164 | a valid stripped serial is stored in the conversation, which moves to getting_dob, and the date prompt is sent. An invalid one changes nothing but draws the invalid-format message |
| Bot.Chat.ProcessDob | bot.py:167-196 | text that does not parse saves nothing and keeps the conversation. A date saves the user with the serial from the conversation, clears it and announces completion. A missing serial draws the save-failed message |
| Bot.Chat.Forward | bot.py:206-250 | the conversation is cleared in every branch. The stripped answer goes into the session's queue only when the conversation names a session that has a queue. Otherwise the unknown-session or timed-out message is sent |
| Bot.Chat.ProcessCaptchaResponse | bot.py:201-223 | the CAPTCHA handler: the stripped answer reaches an existing empty queue with the CAPTCHA thanks; a full queue is left as it is, with the same thanks; every branch clears the conversation |
| Bot.Chat.ProcessOtpResponse | bot.py:228-250 | the OTP handler: the stripped answer reaches an existing empty queue with the OTP thanks; a full queue is left as it is, with the same thanks; every branch clears the conversation |
| Bot.Chat.ReceiveCommand | bot.py:75-147 | a command adds at most the new queued session, leaves the queues alone and keeps the store invariant |
| Bot.Chat.ReceiveRegistration | bot.py:152-196 | the serial handler leaves the users table alone; both registration handlers leave the sessions and the queues alone |
| Bot.Chat.ReceiveAnswer | bot.py:201-250 | an answer handler fills the open, empty queue of the session its conversation names with the stripped text, and otherwise leaves every queue as it was |
| Bot.Chat.ReceiveInState | bot.py:152-250 | a state handler adds no session and opens or closes no queue. Only an answer handler whose conversation names an open, empty queue changes a queue, and it puts the stripped text there. No handler at all (an idle user) changes nothing |
| Bot.Chat.Receive | bot.py:75-250 | any text message adds at most one queued session, keeps the set of open queues and the store invariant, and changes nothing when no handler takes it. A message routed to the CAPTCHA or OTP handler fills the open, empty queue its conversation names with its stripped text; every other message leaves the queues as they were |
| Orchestrator.Decide | orchestrator.py:103-190 | the dispatch on the step's status: a wait with the prompt, the dialog and the timeout result, or a final state with its result and notices. StepDecisions states what it gives for every step |
| Orchestrator.StepDecisions | orchestrator.py:103-190 | every step leads either to a wait in a non-final workflow state with a timeout result, or to a final state with a non-empty result. It never leads to a missing-key error |
| Orchestrator.FailureCarriesStepReason | orchestrator.py:176-186 | the session fails on a step exactly when the step reports FAILURE. The recorded result and the message to the user carry the step's own reason |
| Orchestrator.CompletesIffOtpAccepted | orchestrator.py:164-173 | a step completes the session exactly when the OTP is submitted and accepted by the page |
| Orchestrator.CaptchaPhotoIsRecorded | orchestrator.py:105-118 | the CAPTCHA photo sent to the user is the image the step has just recorded as an artifact, and a retry is announced first |
| Orchestrator.Deliver | orchestrator.py:128 | one message of the user during a wait goes through the bot. If it fills the session's queue, the queue holds its stripped text. No existing row changes and the set of open queues is kept |
| Orchestrator.WaitForAnswer | orchestrator.py:120-161 | the queue is opened for the wait and removed afterwards, so the set of open queues is as before. No existing row changes. An answer is the stripped text of one of the messages used up in the wait; a timeout happens only once every message has been used up |
| Orchestrator.Listen | orchestrator.py:126-128 | the user's messages go through the bot until one fills the queue, which is then taken: the answer is the stripped text of a message used up, and None only when the messages ran out. No existing row changes and the set of open queues is kept |
| Orchestrator.Conclude | orchestrator.py:164-190 | the final state is recorded with its result, which ends the session, and the notices are sent in order. Only that session's row changes |
| Orchestrator.Pause | orchestrator.py:105-161 | on an answer, the session sits in the paused state with its result unchanged, and the answer is the stripped text of a message used up in the wait. On a timeout, which happens only once every message has been used up, it is FAILED with the timeout result. No other row changes and no queue is left behind |
| Orchestrator.Turn | orchestrator.py:95-190 | one turn follows Decide on the step's report. A final decision records its state and result. A wait records its next state and carries the answer, the stripped text of a message used up, to the next step; on a timeout, once every message has been used up, it records FAILED with the decision's timeout result |
| Orchestrator.RunSession | orchestrator.py:91-190 | the loop ends, and a session that was not in a final state ends closed (final state, result, end time). No other row changes |
| Orchestrator.Attend | orchestrator.py:63-199 | the session ends closed. An unknown user gives FAILED "User data not found" and sends nothing. A browser that does not start gives FAILED "Orchestrator critical failure" and sends exactly the critical-error notice |
| Orchestrator.OrchestrateSession | orchestrator.py:52-205 | an already active id changes nothing at all: not the store, the bookkeeping or the chat. Otherwise the active set and the open queues end as they began on every path, and only this session's row changes. The session ends closed, with the same two failure results and notices as Attend |
| Orchestrator.QueuedNotActive | orchestrator.py:216-220 | a session is picked exactly when its state is QUEUED and it is not active |
| Orchestrator.QueuedNotActiveDistinct | orchestrator.py:216-220 | no session is picked twice |
| Orchestrator.PollOnce | orchestrator.py:215-230 | after one round, every picked session has ended closed, no other row has changed and the active set is as before |

## Left out

- **Browser, chat, database engine and encryption.**
  - Playwright is replaced by `PageView` and `World`: what each step observes, and whether the browser starts.
  - aiogram is replaced by the `Chat` class, whose outbox records the messages sent.
  - SQLAlchemy and SQLite are replaced by maps and sequences.
  - Fernet is replaced by an abstract token.
  - Reading the key from the environment (db.py:79-105) becomes the store's `key`.
- **Concurrency.**
  - One round of `session_manager` runs the picked sessions one after another, in table order. The endless polling loop and its sleep are not modelled.
  - The sessions of a round do not interleave, and there is no race on the active set.
- **Timeouts.** A five-minute timeout is "the world's messages ran out". Messages that arrive after a timeout, within the same run, are not modelled.
- **Time and identity.**
  - Timestamps are ticks of a counter. Ties in `get_active_session` between sessions started in the same second cannot occur.
  - `created_at`, the users' autoincrement id and the log timestamps are left out.
  - The uuid of a new session is a parameter. Reusing an id, which the source reports as an insert failure, gives None.
- **Directories and logging.** `os.makedirs` and the Python logger are left out. Screenshots that fail to save are not modelled.
- **Non-text messages.** Messages without text (`message.text` None) and commands of the form `/submit@botname` are not modelled.
- **Unicode.** `isalnum` and `upper` are modelled on ASCII.
- Dates.ParseIso: accepts ASCII digits only. Python's `strptime` (`\d`) also accepts other Unicode decimal digits, which `int()` reads; such dates parse there and are rejected here.
- **Year padding.** Years below 1000 are written with four zero-padded digits. The platform's `strftime('%Y')` may write fewer.
- **Circular import.** As written, the program does not start. main.py:28 imports bot, and bot.py:21 imports orchestrator. orchestrator.py:30 then imports `AutomationFlow` from the half-loaded bot module, before bot.py defines it, which raises ImportError. The model resolves the cycle with the `Bookkeeping` module and lets both sides run.
- Orchestrator.Pause: as written, the wait never starts. The orchestrator builds `FSMContext(storage=..., key=bot.id, chat_id=..., user_id=...)` (orchestrator.py:122 and 147), but aiogram 3's `FSMContext` takes only `storage` and `key`, so the call raises TypeError. The inner handler catches only `asyncio.TimeoutError`, so the error reaches orchestrator.py:192-198. Every session that reaches its first pause therefore ends FAILED "Orchestrator critical failure", with the critical-error notice, just after its CAPTCHA photo is sent. The model follows the evident intent instead: the user's conversation enters the waiting state for the session, and the wait goes ahead.
- **Other files.** main.py, shared.py, the `__main__` demos and the key helper `get_encryption_key` are not part of this model.
- **Automation.ExecuteStep:** states only the log rows of the screenshot helpers. The executor's own progress messages (automation.py:105-244) are not modelled as log rows.
- **Automation.Step:**
  - A page fault is abstracted as happening during the step's page actions, before its screenshot.
  - A failing error screenshot, which would raise out of the handler, is not modelled.
- **Orchestrator.Turn and Orchestrator.Pause:**
  - The `RUNNING_<state>` write before each step (orchestrator.py:96) is not stated in the contracts.
  - Only the state a turn ends in is stated.
- **Orchestrator.Attend:**
  - A browser that fails to start is the only fault the orchestrator catches.
  - A step that raises is not a caught fault here: the model uses the intended step, not the written one.
  - A failed Telegram send (orchestrator.py:195-198) is not modelled.
- **Bot.Chat.Forward:** a `put` on a full queue blocks the handler in the source. Here it keeps the queue and answers. The sequential model never reaches that case.
- **Bot.Chat.ProcessDob:** without an encryption key, nothing is saved but completion is still announced, as the source does (db.py:186-188, bot.py:187-192).

## Findings

| source | as written | input that shows it | evidently intended | confidence | as-written member | corrected member |
|---|---|---|---|---|---|---|
| automation.py:157 | `asyncio.sleep(1)` in a module that never imports asyncio (automation.py:18-23), so the CAPTCHA retry raises NameError, which then reaches the handler below | state AWAITING_FIRST_CAPTCHA, a non-empty answer, "Invalid Captcha" visible | report RETRY_AWAITING_CAPTCHA with next state AWAITING_FIRST_CAPTCHA and the captcha_1_retry image | not executed | Automation.AsWrittenNeverRetries | Automation.RejectedCaptchaRetries |
| automation.py:242 | `_log(..., exc_info=True)`, but `_log` (automation.py:39) takes no such argument, so every non-timeout error raises TypeError out of the step | state QUEUED for a user whose stored serial cannot be decrypted (serial None) | report FAILURE "An unexpected critical error occurred." with the error_unexpected screenshot | not executed | Automation.AsWrittenRaisesOnUnexpectedError | Automation.UnexpectedErrorFails |
