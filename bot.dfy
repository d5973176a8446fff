/** The Telegram side of bot.py: the per-user conversation state kept by the
    dispatcher's FSM storage, the messages the bot sends, the routing of an
    incoming text message to its handler, and the handlers themselves. */
module Bot {
  import opened Common
  import opened Dates
  import opened Store
  import opened Bookkeeping
  import Automation

  // ---------------------------------------------------------------------------
  // Conversations and messages

  /** The FSM states of `UserRegistration` and `AutomationFlow`
      (bot.py:59-70); Idle is "no state". */
  datatype Dialog = Idle | GettingSerialNo | GettingDob | AwaitingCaptcha | AwaitingOtp

  /** A user's FSM state and data: the serial typed during registration and
      the session an answer is for. */
  datatype Conversation = Conversation(state: Dialog, serial: Option<string>, session: Option<SessionId>)

  /** What `state.clear()` leaves. */
  const Cleared := Conversation(Idle, None, None)

  datatype Body = Text(text: string) | Photo(path: string, caption: string)

  /** A message sent to the chat of a user. */
  datatype Notice = Notice(chat: TelegramId, body: Body)

  const WelcomeNew := "Welcome to the Automation Bot! Let's get you set up."
  const AskSerial := "Please enter your Serial Number:"
  const NotRegistered := "You are not registered yet. Please use the /start command to register first."
  const SubmitFailed := "An internal error occurred while trying to queue your submission. Please try again later."
  const InvalidSerial := "Invalid format. The Serial Number should be alphanumeric. Please try again."
  const AskDob := "Great! Now, please enter your Date of Birth in YYYY-MM-DD format (e.g., 1995-03-27)."
  const InvalidDob := "Invalid date format. Please use YYYY-MM-DD (e.g., 1995-03-27)."
  const Registered := "Registration complete! Your data has been securely saved.\nYou can now start a submission using the /submit command."
  const SaveFailed := "An error occurred while saving your data. Please try the /start command again."
  const UnknownSession := "An error occurred, I don't know which session this is for. Please try /submit again."
  const CaptchaThanks := "Thank you. Submitting your CAPTCHA solution..."
  const OtpThanks := "Thank you. Submitting your OTP code..."
  const NoQueue := "It seems this session has timed out or is no longer active."

  const WelcomeBackHead := "Welcome back! You are already registered.\nYour saved Serial No is: `"
  const WelcomeBackMid := "`\nYour saved DOB is: `"
  const WelcomeBackTail := "`\n\nYou can start a new submission with the /submit command or re-register with /start to update your details."

  /** The greeting of a registered user (bot.py:89-95); Python prints a
      missing serial as "None". */
  function WelcomeBack(user: UserData): string {
    WelcomeBackHead + user.serial.GetOr("None") + WelcomeBackMid + FormatIso(user.dob) + WelcomeBackTail
  }

  const ActiveHead := "You already have an active session running.\nSession ID: `"
  const ActiveMid := "`\nCurrent State: `"
  const ActiveTail := "`\n\nPlease wait for it to complete before starting a new one."

  /** The answer to /submit when a session is already running (bot.py:121-127). */
  function ActiveNotice(row: SessionRow): string {
    ActiveHead + row.id + ActiveMid + row.state + ActiveTail
  }

  const QueuedHead := "Your submission has been successfully queued!\nYour Session ID is: `"
  const QueuedTail := "`\n\nThe automation will begin shortly. You will be notified here if any input (like a CAPTCHA or OTP) is required."

  /** The answer to a queued /submit (bot.py:134-139). */
  function QueuedNotice(sid: SessionId): string {
    QueuedHead + sid + QueuedTail
  }

  /** Messages to user `t`, in order. */
  function Addressed(t: TelegramId, bodies: seq<Body>): seq<Notice> {
    seq(|bodies|, i requires 0 <= i < |bodies| => Notice(t, bodies[i]))
  }

  // ---------------------------------------------------------------------------
  // Validation

  /** The serial check of bot.py:158: not empty, and alphanumeric once the
      dashes are removed. */
  predicate ValidSerial(s: string) {
    s != [] && IsAlnumText(RemoveAll(s, '-'))
  }

  /** A serial is accepted exactly when it is made of letters, digits and
      dashes and holds at least one letter or digit. */
  lemma ValidSerialChars(s: string)
    ensures ValidSerial(s) <==>
      (forall i :: 0 <= i < |s| ==> IsAlnum(s[i]) || s[i] == '-') && (exists i :: 0 <= i < |s| && IsAlnum(s[i]))
  {
    var r := RemoveAll(s, '-');
    if ValidSerial(s) {
      forall i | 0 <= i < |s| ensures IsAlnum(s[i]) || s[i] == '-' {
        if s[i] != '-' {
          assert s[i] in r;
          var j :| 0 <= j < |r| && r[j] == s[i];
        }
      }
      assert r[0] in s;
      var k :| 0 <= k < |s| && s[k] == r[0];
      assert IsAlnum(s[k]);
    }
    if (forall i :: 0 <= i < |s| ==> IsAlnum(s[i]) || s[i] == '-') && (exists i :: 0 <= i < |s| && IsAlnum(s[i])) {
      var k :| 0 <= k < |s| && IsAlnum(s[k]);
      assert s[k] in r;
      forall j | 0 <= j < |r| ensures IsAlnum(r[j]) {
        assert r[j] in s;
        var i :| 0 <= i < |s| && s[i] == r[j];
      }
    }
  }

  // ---------------------------------------------------------------------------
  // Routing

  /** The characters of `s` up to its first whitespace. */
  function Word(s: string): (w: string)
    ensures w <= s
    ensures forall i :: 0 <= i < |w| ==> !IsSpace(w[i])
    ensures w == s || IsSpace(s[|w|])
  {
    if s == [] || IsSpace(s[0]) then [] else [s[0]] + Word(s[1..])
  }

  /** The command word of a message: `text.split(maxsplit=1)[0]`. */
  function FirstWord(text: string): string {
    Word(TrimLeft(text))
  }

  /** The handler a text message reaches, in the order the handlers are
      registered (bot.py:75-228): the two commands in any state, then the
      handler of the user's FSM state; none in Idle. */
  datatype Handler = StartHandler | SubmitHandler | SerialNoHandler | DobHandler | CaptchaHandler | OtpHandler | NoHandler

  /** The handlers that pass the user's answer on to a waiting session. */
  predicate IsAnswer(h: Handler) {
    h == CaptchaHandler || h == OtpHandler
  }

  /** The conversation names a session whose queue is open and empty, so an
      answer would go into it (bot.py:210-217). */
  predicate FillsQueue(c: Conversation, queues: map<SessionId, Option<string>>) {
    c.session.Some? && c.session.value != "" && c.session.value in queues && queues[c.session.value].None?
  }

  function Route(state: Dialog, text: string): Handler {
    var w := FirstWord(text);
    if w == "/start" then StartHandler
    else if w == "/submit" then SubmitHandler
    else match state
      case Idle => NoHandler
      case GettingSerialNo => SerialNoHandler
      case GettingDob => DobHandler
      case AwaitingCaptcha => CaptchaHandler
      case AwaitingOtp => OtpHandler
  }

  /** The first character of the command word is the first character of the
      stripped text. */
  lemma FirstWordStartsStripped(text: string)
    requires Strip(text) != []
    ensures FirstWord(text) != [] && FirstWord(text)[0] == Strip(text)[0]
  {
    var t := TrimLeft(text);
    assert t != [] && !IsSpace(t[0]);
    assert Strip(text) == TrimRight(t);
    assert TrimRight(t)[0] == t[0];
  }

  /** Text the bot would accept as a serial never reads as a command: in
      GettingSerialNo it always reaches the serial handler. */
  lemma SerialAnswerIsNotCommand(text: string)
    requires ValidSerial(Strip(text))
    ensures Route(GettingSerialNo, text) == SerialNoHandler
  {
    FirstWordStartsStripped(text);
    ValidSerialChars(Strip(text));
    var w := FirstWord(text);
    assert w[0] != '/';
    assert w != "/start" && w != "/submit" by { assert "/start"[0] == '/' && "/submit"[0] == '/'; }
  }

  /** A date the bot would accept never reads as a command: in GettingDob it
      always reaches the date handler. */
  lemma DobAnswerIsNotCommand(text: string)
    requires ParseIso(Strip(text)).Some?
    ensures Route(GettingDob, text) == DobHandler
  {
    FirstWordStartsStripped(text);
    assert AllDigits(Strip(text)[..4]);
    assert Strip(text)[..4][0] == Strip(text)[0];
  }

  /** The date shown in the greeting of a registered user (bot.py:92) is one
      the registration accepts back unchanged (bot.py:170-174). */
  lemma ShownDobIsAccepted(d: CalendarDate)
    ensures ParseIso(Strip(FormatIso(d))) == Some(d)
  {
    var s := FormatIso(d);
    PadValue(d.year, 4);
    PadValue(d.day, 2);
    assert s[0] == Pad(d.year, 4)[0];
    assert s[|s| - 1] == Pad(d.day, 2)[1];
    StripKeepsTrimmed(s);
    ParseFormatIso(d);
  }

  // ---------------------------------------------------------------------------
  // The bot

  /** The dispatcher's FSM storage, one conversation per user, and the
      messages the bot has sent, in order. */
  class Chat {
    var conv: map<TelegramId, Conversation>
    var outbox: seq<Notice>

    /** The conversation of user `t`; a user never seen has none. */
    function ConvOf(t: TelegramId): Conversation
      reads this
    {
      if t in conv then conv[t] else Cleared
    }

    constructor ()
      ensures conv == map[] && outbox == []
    {
      conv, outbox := map[], [];
    }

    /** `bot.send_message(t, text)` / `message.answer(text)`. */
    method Say(t: TelegramId, text: string)
      modifies this`outbox
      ensures outbox == old(outbox) + [Notice(t, Text(text))]
    {
      outbox := outbox + [Notice(t, Text(text))];
    }

    /** `bot.send_photo(t, FSInputFile(path), caption)`. */
    method Show(t: TelegramId, path: string, caption: string)
      modifies this`outbox
      ensures outbox == old(outbox) + [Notice(t, Photo(path, caption))]
    {
      outbox := outbox + [Notice(t, Photo(path, caption))];
    }

    /** Sending several messages to user `t`, in order. */
    method SayAll(t: TelegramId, bodies: seq<Body>)
      modifies this`outbox
      ensures outbox == old(outbox) + Addressed(t, bodies)
    {
      outbox := outbox + Addressed(t, bodies);
    }

    /** `state.clear()`. */
    method Clear(t: TelegramId)
      modifies this`conv
      ensures conv == old(conv) - {t}
    {
      conv := conv - {t};
    }

    /** The orchestrator putting the user into a waiting state for session
        `sid` (orchestrator.py:122-124, 147-149): the FSM state is set and the
        session id merged into the data. */
    method AwaitAnswer(t: TelegramId, d: Dialog, sid: SessionId)
      modifies this`conv
      ensures conv == old(conv)[t := old(ConvOf(t)).(state := d, session := Some(sid))]
    {
      conv := conv[t := ConvOf(t).(state := d, session := Some(sid))];
    }

    /** `handle_start` (bot.py:75-101): forget the conversation, greet, and
        ask for the serial number. */
    method HandleStart(store: SessionStore, t: TelegramId)
      modifies this
      ensures conv == old(conv)[t := Conversation(GettingSerialNo, None, None)]
      ensures var user := store.GetUserData(t);
        outbox == old(outbox)
          + [Notice(t, Text(if user.Some? then WelcomeBack(user.value) else WelcomeNew))] + [Notice(t, Text(AskSerial))]
    {
      Clear(t);
      var user := store.GetUserData(t);
      if user.Some? {
        Say(t, WelcomeBack(user.value));
      } else {
        Say(t, WelcomeNew);
      }
      Say(t, AskSerial);
      conv := conv[t := Conversation(GettingSerialNo, None, None)];
    }

    /** `handle_submit` (bot.py:104-147): refuse unregistered users and users
        with a session that has not ended; otherwise queue a new session under
        the fresh id `newId`. A failed insert is reported as an internal
        error. */
    method HandleSubmit(store: SessionStore, t: TelegramId, newId: SessionId)
      requires store.Valid()
      modifies this`outbox, store`sessions, store`clock
      ensures store.Valid()
      ensures store.sessions == old(store.sessions)
        || store.sessions == old(store.sessions) + [NewSession(newId, t, Automation.Queued, old(store.clock))]
      ensures old(store.GetUserData(t)).None? ==>
        store.sessions == old(store.sessions) && outbox == old(outbox) + [Notice(t, Text(NotRegistered))]
      ensures old(store.GetUserData(t)).Some? && old(store.GetActiveSession(t)).Some? ==>
        store.sessions == old(store.sessions)
        && outbox == old(outbox) + [Notice(t, Text(ActiveNotice(old(store.GetActiveSession(t)).value)))]
      ensures old(store.GetUserData(t)).Some? && old(store.GetActiveSession(t)).None? ==>
        if old(IndexOf(store.sessions, newId)).None? then
          && store.sessions == old(store.sessions) + [NewSession(newId, t, Automation.Queued, old(store.clock))]
          && outbox == old(outbox) + [Notice(t, Text(QueuedNotice(newId)))]
        else
          store.sessions == old(store.sessions) && outbox == old(outbox) + [Notice(t, Text(SubmitFailed))]
    {
      if store.GetUserData(t).None? {
        Say(t, NotRegistered);
        return;
      }
      var active := store.GetActiveSession(t);
      if active.Some? {
        Say(t, ActiveNotice(active.value));
        return;
      }
      var created := store.CreateSession(t, Automation.Queued, newId);
      if created.Some? {
        Say(t, QueuedNotice(newId));
      } else {
        Say(t, SubmitFailed);
      }
    }

    /** `process_serial_no` (bot.py:152-164): keep the stripped serial and
        ask for the date of birth, or ask again. */
    method ProcessSerialNo(t: TelegramId, text: string)
      modifies this
      ensures var s := Strip(text);
        if ValidSerial(s) then
          && conv == old(conv)[t := old(ConvOf(t)).(serial := Some(s), state := GettingDob)]
          && outbox == old(outbox) + [Notice(t, Text(AskDob))]
        else
          conv == old(conv) && outbox == old(outbox) + [Notice(t, Text(InvalidSerial))]
    {
      var s := Strip(text);
      if !ValidSerial(s) {
        Say(t, InvalidSerial);
        return;
      }
      conv := conv[t := ConvOf(t).(serial := Some(s), state := GettingDob)];
      Say(t, AskDob);
    }

    /** `process_dob` (bot.py:167-196): parse the stripped date, store the
        user with the serial kept in the conversation, and end the
        conversation. Encrypting a missing serial raises, which the handler
        reports; without an encryption key nothing is saved, yet the
        registration is announced as complete. */
    method ProcessDob(store: SessionStore, t: TelegramId, text: string)
      modifies this, store`users
      ensures ParseIso(Strip(text)).None? ==>
        conv == old(conv) && store.users == old(store.users) && outbox == old(outbox) + [Notice(t, Text(InvalidDob))]
      ensures ParseIso(Strip(text)).Some? && old(ConvOf(t)).serial.None? && store.key.Some? ==>
        conv == old(conv) - {t} && store.users == old(store.users) && outbox == old(outbox) + [Notice(t, Text(SaveFailed))]
      ensures ParseIso(Strip(text)).Some? && old(ConvOf(t)).serial.Some? ==>
        && conv == old(conv) - {t}
        && store.users == UpsertUser(old(store.users), store.key, t, old(ConvOf(t)).serial.value, ParseIso(Strip(text)).value)
        && outbox == old(outbox) + [Notice(t, Text(Registered))]
      ensures ParseIso(Strip(text)).Some? && old(ConvOf(t)).serial.None? && store.key.None? ==>
        conv == old(conv) - {t} && store.users == old(store.users) && outbox == old(outbox) + [Notice(t, Text(Registered))]
    {
      var date := ParseIso(Strip(text));
      if date.None? {
        Say(t, InvalidDob);
        return;
      }
      var serial := ConvOf(t).serial;
      if serial.None? && store.key.Some? {
        Say(t, SaveFailed);
        Clear(t);
        return;
      }
      if serial.Some? {
        store.AddOrUpdateUser(t, serial.value, date.value);
      }
      Say(t, Registered);
      Clear(t);
    }

    /** The body shared by `process_captcha_response` and
        `process_otp_response`: put the stripped answer into the session's
        queue if it still has one, answer, and end the conversation. */
    method Forward(reg: Registry, t: TelegramId, text: string, thanks: string)
      modifies this, reg`queues
      ensures conv == old(conv) - {t}
      ensures reg.queues.Keys == old(reg.queues).Keys
      ensures var sid := old(ConvOf(t)).session;
        sid.None? || sid.value == "" ==>
          reg.queues == old(reg.queues) && outbox == old(outbox) + [Notice(t, Text(UnknownSession))]
      ensures var sid := old(ConvOf(t)).session;
        sid.Some? && sid.value != "" && sid.value in old(reg.queues) ==>
          && reg.queues == (if old(reg.queues[sid.value]).None? then old(reg.queues)[sid.value := Some(Strip(text))] else old(reg.queues))
          && outbox == old(outbox) + [Notice(t, Text(thanks))]
      ensures var sid := old(ConvOf(t)).session;
        sid.Some? && sid.value != "" && sid.value !in old(reg.queues) ==>
          reg.queues == old(reg.queues) && outbox == old(outbox) + [Notice(t, Text(NoQueue))]
    {
      var answer := Strip(text);
      var sid := ConvOf(t).session;
      if sid.None? || sid.value == "" {
        Say(t, UnknownSession);
      } else if sid.value in reg.queues {
        reg.Put(sid.value, answer);
        Say(t, thanks);
      } else {
        Say(t, NoQueue);
      }
      Clear(t);
    }

    /** `process_captcha_response` (bot.py:201-223). */
    method ProcessCaptchaResponse(reg: Registry, t: TelegramId, text: string)
      modifies this, reg`queues
      ensures conv == old(conv) - {t}
      ensures reg.queues.Keys == old(reg.queues).Keys
      ensures var sid := old(ConvOf(t)).session;
        sid.Some? && sid.value != "" && sid.value in old(reg.queues) && old(reg.queues[sid.value]).None? ==>
          reg.queues == old(reg.queues)[sid.value := Some(Strip(text))] && outbox == old(outbox) + [Notice(t, Text(CaptchaThanks))]
      ensures var sid := old(ConvOf(t)).session;
        sid.Some? && sid.value != "" && sid.value in old(reg.queues) && old(reg.queues[sid.value]).Some? ==>
          reg.queues == old(reg.queues) && outbox == old(outbox) + [Notice(t, Text(CaptchaThanks))]
      ensures var sid := old(ConvOf(t)).session;
        sid.Some? && sid.value != "" && sid.value !in old(reg.queues) ==>
          reg.queues == old(reg.queues) && outbox == old(outbox) + [Notice(t, Text(NoQueue))]
      ensures var sid := old(ConvOf(t)).session;
        sid.None? || sid.value == "" ==>
          reg.queues == old(reg.queues) && outbox == old(outbox) + [Notice(t, Text(UnknownSession))]
    {
      Forward(reg, t, text, CaptchaThanks);
    }

    /** `process_otp_response` (bot.py:228-250). */
    method ProcessOtpResponse(reg: Registry, t: TelegramId, text: string)
      modifies this, reg`queues
      ensures conv == old(conv) - {t}
      ensures reg.queues.Keys == old(reg.queues).Keys
      ensures var sid := old(ConvOf(t)).session;
        sid.Some? && sid.value != "" && sid.value in old(reg.queues) && old(reg.queues[sid.value]).None? ==>
          reg.queues == old(reg.queues)[sid.value := Some(Strip(text))] && outbox == old(outbox) + [Notice(t, Text(OtpThanks))]
      ensures var sid := old(ConvOf(t)).session;
        sid.Some? && sid.value != "" && sid.value in old(reg.queues) && old(reg.queues[sid.value]).Some? ==>
          reg.queues == old(reg.queues) && outbox == old(outbox) + [Notice(t, Text(OtpThanks))]
      ensures var sid := old(ConvOf(t)).session;
        sid.Some? && sid.value != "" && sid.value !in old(reg.queues) ==>
          reg.queues == old(reg.queues) && outbox == old(outbox) + [Notice(t, Text(NoQueue))]
      ensures var sid := old(ConvOf(t)).session;
        sid.None? || sid.value == "" ==>
          reg.queues == old(reg.queues) && outbox == old(outbox) + [Notice(t, Text(UnknownSession))]
    {
      Forward(reg, t, text, OtpThanks);
    }

    /** The two command handlers (bot.py:75-147), which take a message in
        any state. */
    method ReceiveCommand(store: SessionStore, reg: Registry, t: TelegramId, isStart: bool, newId: SessionId)
      requires store.Valid()
      modifies this, store`sessions, store`clock
      ensures store.Valid()
      ensures reg.queues == old(reg.queues)
      ensures store.sessions == old(store.sessions)
        || store.sessions == old(store.sessions) + [NewSession(newId, t, Automation.Queued, old(store.clock))]
    {
      if isStart {
        HandleStart(store, t);
      } else {
        HandleSubmit(store, t, newId);
      }
    }

    /** The two registration handlers (bot.py:152-196): only the users table
        and the conversation change, and a serial saves nothing yet. */
    method ReceiveRegistration(store: SessionStore, t: TelegramId, text: string, h: Handler)
      requires h == SerialNoHandler || h == DobHandler
      modifies this, store`users
      ensures h == SerialNoHandler ==> store.users == old(store.users)
    {
      if h == SerialNoHandler {
        ProcessSerialNo(t, text);
      } else {
        ProcessDob(store, t, text);
      }
    }

    /** The two answer handlers (bot.py:201-250): the stripped answer fills
        the open, empty queue of the session the conversation names, and
        every other queue, and every other case, is left as it was. */
    method ReceiveAnswer(reg: Registry, t: TelegramId, text: string, h: Handler)
      requires IsAnswer(h)
      modifies this, reg`queues
      ensures reg.queues.Keys == old(reg.queues).Keys
      ensures FillsQueue(old(ConvOf(t)), old(reg.queues)) ==>
        reg.queues == old(reg.queues)[old(ConvOf(t)).session.value := Some(Strip(text))]
      ensures !FillsQueue(old(ConvOf(t)), old(reg.queues)) ==> reg.queues == old(reg.queues)
    {
      if h == CaptchaHandler {
        ProcessCaptchaResponse(reg, t, text);
      } else {
        ProcessOtpResponse(reg, t, text);
      }
    }

    /** The handlers of the FSM states (bot.py:152-250), for a message that
        is not a command. */
    method ReceiveInState(store: SessionStore, reg: Registry, t: TelegramId, text: string, h: Handler)
      requires h == Route(ConvOf(t).state, text) && h != StartHandler && h != SubmitHandler
      requires store.Valid()
      modifies this, store`users, reg`queues
      ensures store.Valid() && store.sessions == old(store.sessions)
      ensures reg.queues.Keys == old(reg.queues).Keys
      ensures IsAnswer(h) && FillsQueue(old(ConvOf(t)), old(reg.queues)) ==>
        reg.queues == old(reg.queues)[old(ConvOf(t)).session.value := Some(Strip(text))]
      ensures !(IsAnswer(h) && FillsQueue(old(ConvOf(t)), old(reg.queues))) ==> reg.queues == old(reg.queues)
      ensures h == NoHandler ==>
        conv == old(conv) && outbox == old(outbox) && store.users == old(store.users) && reg.queues == old(reg.queues)
    {
      if IsAnswer(h) {
        ReceiveAnswer(reg, t, text, h);
      } else if h != NoHandler {
        ReceiveRegistration(store, t, text, h);
      }
    }

    /** The dispatcher delivering a text message from user `t`: it runs the
        handler `Route` picks. `newId` is the id a /submit would give its
        session. Whatever runs, the store stays valid, at most the new session
        is added, and the set of open queues is unchanged; a message no
        handler takes changes nothing. Only an answer to a CAPTCHA or an OTP
        touches a queue: its stripped text fills the open, empty queue of the
        session the conversation names. */
    method Receive(store: SessionStore, reg: Registry, t: TelegramId, text: string, newId: SessionId)
      requires store.Valid()
      modifies this, store`users, store`sessions, store`clock, reg`queues
      ensures store.Valid()
      ensures store.sessions == old(store.sessions)
        || store.sessions == old(store.sessions) + [NewSession(newId, t, Automation.Queued, old(store.clock))]
      ensures reg.queues.Keys == old(reg.queues).Keys
      ensures IsAnswer(Route(old(ConvOf(t)).state, text)) && FillsQueue(old(ConvOf(t)), old(reg.queues)) ==>
        reg.queues == old(reg.queues)[old(ConvOf(t)).session.value := Some(Strip(text))]
      ensures !(IsAnswer(Route(old(ConvOf(t)).state, text)) && FillsQueue(old(ConvOf(t)), old(reg.queues))) ==>
        reg.queues == old(reg.queues)
      ensures Route(old(ConvOf(t)).state, text) == NoHandler ==>
        conv == old(conv) && outbox == old(outbox) && store.users == old(store.users)
        && store.sessions == old(store.sessions) && reg.queues == old(reg.queues)
    {
      var h := Route(ConvOf(t).state, text);
      if h == StartHandler || h == SubmitHandler {
        ReceiveCommand(store, reg, t, h == StartHandler, newId);
      } else {
        ReceiveInState(store, reg, t, text, h);
      }
    }
  }
}
