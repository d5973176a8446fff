/** The durable session store of db.py: users keyed by Telegram id with an
    encrypted serial number, automation sessions, and the append-only log and
    artifact tables. The SQL engine is replaced by a map and sequences kept in
    insertion order; the database clock by a counter that every write of a
    timestamp advances. */
module Store {
  import opened Common
  import opened Dates

  type TelegramId = int
  type SessionId = string
  type Key = string

  /** A Fernet token, kept abstract: the key it was made with and the text it
      hides. Only the key it was made with opens it. */
  datatype Cipher = Token(key: Key, plain: string)

  /** `EncryptionManager.encrypt` (db.py:67-69). */
  function Encrypt(k: Key, data: string): Cipher {
    Token(k, data)
  }

  /** `EncryptionManager.decrypt` (db.py:71-77): None when the token does not
      open with this key. */
  function Decrypt(k: Key, c: Cipher): Option<string> {
    if c.key == k then Some(c.plain) else None
  }

  lemma DecryptInvertsEncrypt(k: Key, s: string)
    ensures Decrypt(k, Encrypt(k, s)) == Some(s)
  {
  }

  lemma DecryptNeedsSameKey(k: Key, other: Key, s: string)
    requires k != other
    ensures Decrypt(other, Encrypt(k, s)) == None
  {
  }

  /** A row of the users table (db.py:110-121). The autoincrement id and the
      creation time are not modelled. */
  datatype UserRow = UserRow(encryptedSerial: Cipher, dob: CalendarDate)

  /** The dictionary `get_user_data` returns; `serial` is None when the stored
      token cannot be decrypted. */
  datatype UserData = UserData(telegramId: TelegramId, serial: Option<string>, dob: CalendarDate)

  /** A row of the sessions table (db.py:126-139); times are clock ticks. */
  datatype SessionRow = SessionRow(
    id: SessionId,
    owner: TelegramId,
    state: string,
    startedAt: nat,
    endedAt: Option<nat>,
    result: Option<string>)

  /** A row of the logs table (db.py:144-154); its position is its time. */
  datatype LogRow = LogRow(session: SessionId, level: string, message: string)

  /** A row of the artifacts table (db.py:159-168). */
  datatype ArtifactRow = ArtifactRow(session: SessionId, kind: string, path: string)

  // ---------------------------------------------------------------------------
  // Users

  /** The users table after `add_or_update_user(t, serial, dob)`
      (db.py:184-206); `key` is the encryption manager, None when it could not
      be built. */
  function UpsertUser(users: map<TelegramId, UserRow>, key: Option<Key>, t: TelegramId,
                      serial: string, dob: CalendarDate): map<TelegramId, UserRow>
  {
    if key.None? then users else users[t := UserRow(Encrypt(key.value, serial), dob)]
  }

  /** `get_user_data(t)` (db.py:208-231). */
  function LookupUser(users: map<TelegramId, UserRow>, key: Option<Key>, t: TelegramId): Option<UserData> {
    if key.None? || t !in users then None
    else Some(UserData(t, Decrypt(key.value, users[t].encryptedSerial), users[t].dob))
  }

  /** Registering stores exactly the given serial and date of birth: reading
      them back decrypts the serial that was encrypted. */
  lemma LookupAfterUpsert(users: map<TelegramId, UserRow>, k: Key, t: TelegramId, serial: string, dob: CalendarDate)
    ensures LookupUser(UpsertUser(users, Some(k), t, serial, dob), Some(k), t) == Some(UserData(t, Some(serial), dob))
  {
    DecryptInvertsEncrypt(k, serial);
  }

  /** One row per Telegram id: the upsert adds a row only for a new id and
      leaves every other user as it was. */
  lemma UpsertKeysAndOthers(users: map<TelegramId, UserRow>, key: Option<Key>, t: TelegramId,
                            serial: string, dob: CalendarDate, u: TelegramId)
    requires u != t
    ensures key.Some? ==> UpsertUser(users, key, t, serial, dob).Keys == users.Keys + {t}
    ensures LookupUser(UpsertUser(users, key, t, serial, dob), key, u) == LookupUser(users, key, u)
  {
  }

  /** Without an encryption manager nothing is saved. */
  lemma UpsertWithoutKey(users: map<TelegramId, UserRow>, t: TelegramId, serial: string, dob: CalendarDate)
    ensures UpsertUser(users, None, t, serial, dob) == users
  {
  }

  /** An unknown Telegram id has no user data. */
  lemma LookupUnknown(users: map<TelegramId, UserRow>, key: Option<Key>, t: TelegramId)
    requires t !in users
    ensures LookupUser(users, key, t) == None
  {
  }

  // ---------------------------------------------------------------------------
  // Sessions

  /** Session ids are the table's primary key. */
  predicate DistinctIds(ss: seq<SessionRow>) {
    forall i, j :: 0 <= i < j < |ss| ==> ss[i].id != ss[j].id
  }

  /** A session has an end time exactly when it has a result. */
  predicate EndedIffResult(ss: seq<SessionRow>) {
    forall i :: 0 <= i < |ss| ==> (ss[i].endedAt.Some? <==> ss[i].result.Some?)
  }

  predicate IsOpen(row: SessionRow, t: TelegramId) {
    row.owner == t && row.endedAt.None?
  }

  /** No user has two sessions without an end time. */
  predicate AtMostOneOpen(ss: seq<SessionRow>) {
    forall i, j :: 0 <= i < j < |ss| && ss[i].endedAt.None? && ss[j].endedAt.None? ==> ss[i].owner != ss[j].owner
  }

  /** The position of the row with id `sid`, if any. */
  function IndexOf(ss: seq<SessionRow>, sid: SessionId): (r: Option<nat>)
    ensures r.Some? ==> r.value < |ss| && ss[r.value].id == sid
    ensures r.None? <==> forall j :: 0 <= j < |ss| ==> ss[j].id != sid
  {
    if ss == [] then None
    else if ss[0].id == sid then Some(0)
    else match IndexOf(ss[1..], sid)
      case None => None
      case Some(k) => Some(k + 1)
  }

  /** Python truthiness of the optional `result` argument: None and "" are false. */
  predicate Given(result: Option<string>) {
    result.Some? && result.value != ""
  }

  /** One row after `update_session_state(_, newState, result)` at time `now`
      (db.py:253-256). */
  function Updated(row: SessionRow, newState: string, result: Option<string>, now: nat): SessionRow {
    if Given(result) then row.(state := newState, result := result, endedAt := Some(now))
    else row.(state := newState)
  }

  /** The sessions table after `update_session_state(sid, newState, result)`. */
  function WithState(ss: seq<SessionRow>, sid: SessionId, newState: string, result: Option<string>, now: nat): seq<SessionRow> {
    seq(|ss|, i requires 0 <= i < |ss| => if ss[i].id == sid then Updated(ss[i], newState, result, now) else ss[i])
  }

  /** An update touches only the named session: it sets its state, and sets
      its result and end time together exactly when a non-empty result is
      passed. Ids, owners and start times stay, and so do the table's
      invariants. */
  lemma WithStateEffect(ss: seq<SessionRow>, sid: SessionId, newState: string, result: Option<string>, now: nat)
    ensures var r := WithState(ss, sid, newState, result, now);
      && |r| == |ss|
      && (forall i :: 0 <= i < |ss| ==> r[i].id == ss[i].id && r[i].owner == ss[i].owner && r[i].startedAt == ss[i].startedAt)
      && (forall i :: 0 <= i < |ss| && ss[i].id != sid ==> r[i] == ss[i])
      && (forall i :: 0 <= i < |ss| && ss[i].id == sid ==> r[i].state == newState)
      && (forall i :: 0 <= i < |ss| && ss[i].id == sid && Given(result) ==> r[i].result == result && r[i].endedAt == Some(now))
      && (forall i :: 0 <= i < |ss| && ss[i].id == sid && !Given(result) ==> r[i].result == ss[i].result && r[i].endedAt == ss[i].endedAt)
    ensures DistinctIds(ss) ==> DistinctIds(WithState(ss, sid, newState, result, now))
    ensures EndedIffResult(ss) ==> EndedIffResult(WithState(ss, sid, newState, result, now))
    ensures AtMostOneOpen(ss) ==> AtMostOneOpen(WithState(ss, sid, newState, result, now))
  {
  }

  /** `get_active_session(t)` (db.py:263-270): among the user's sessions with
      no end time, the one started last. */
  function ActiveSession(ss: seq<SessionRow>, t: TelegramId): (r: Option<SessionRow>)
    ensures r.Some? ==> r.value in ss && IsOpen(r.value, t)
    ensures r.Some? ==> forall i :: 0 <= i < |ss| && IsOpen(ss[i], t) ==> ss[i].startedAt <= r.value.startedAt
    ensures r.None? <==> forall i :: 0 <= i < |ss| ==> !IsOpen(ss[i], t)
  {
    if ss == [] then None
    else
      var last := ss[|ss| - 1];
      var earlier := ActiveSession(ss[..|ss| - 1], t);
      if IsOpen(last, t) && (earlier.None? || earlier.value.startedAt <= last.startedAt) then Some(last)
      else earlier
  }

  /** A new session row as `create_session` inserts it (db.py:233-243). */
  function NewSession(sid: SessionId, t: TelegramId, initialState: string, now: nat): SessionRow {
    SessionRow(sid, t, initialState, now, None, None)
  }

  /** Finalising the user's active session with a result leaves the user no
      active session, when the user had only one open (db.py:359-367). */
  lemma {:induction false} FinalisingClosesActive(ss: seq<SessionRow>, t: TelegramId, newState: string,
                                                  result: Option<string>, now: nat)
    requires DistinctIds(ss) && AtMostOneOpen(ss)
    requires ActiveSession(ss, t).Some?
    requires Given(result)
    ensures ActiveSession(WithState(ss, ActiveSession(ss, t).value.id, newState, result, now), t).None?
  {
    var row := ActiveSession(ss, t).value;
    var k :| 0 <= k < |ss| && ss[k] == row;
    var r := WithState(ss, row.id, newState, result, now);
    forall i | 0 <= i < |r| ensures !IsOpen(r[i], t) {
      assert i != k ==> r[i] == ss[i];
    }
  }

  /** Adding a session for a user who has no active one keeps at most one
      open session per user (bot.py:119-132). */
  lemma {:induction false} CreateKeepsAtMostOneOpen(ss: seq<SessionRow>, sid: SessionId, t: TelegramId,
                                                    initialState: string, now: nat)
    requires AtMostOneOpen(ss)
    requires ActiveSession(ss, t).None?
    ensures AtMostOneOpen(ss + [NewSession(sid, t, initialState, now)])
  {
    var r := ss + [NewSession(sid, t, initialState, now)];
    forall i, j | 0 <= i < j < |r| && r[i].endedAt.None? && r[j].endedAt.None?
      ensures r[i].owner != r[j].owner
    {
      if j == |ss| {
        assert !IsOpen(ss[i], t);
      }
    }
  }

  // ---------------------------------------------------------------------------
  // The store

  class SessionStore {
    /** The encryption manager's key; None when it could not be built (db.py:99-105). */
    const key: Option<Key>
    var users: map<TelegramId, UserRow>
    var sessions: seq<SessionRow>
    var logs: seq<LogRow>
    var artifacts: seq<ArtifactRow>
    /** The database clock: the next timestamp to hand out. */
    var clock: nat

    ghost predicate Valid()
      reads this`sessions, this`clock
    {
      && DistinctIds(sessions)
      && EndedIffResult(sessions)
      && AtMostOneOpen(sessions)
      && (forall i :: 0 <= i < |sessions| ==> sessions[i].startedAt < clock)
    }

    /** `initialize_database` on an empty file. */
    constructor (key: Option<Key>)
      ensures Valid() && this.key == key
      ensures users == map[] && sessions == [] && logs == [] && artifacts == []
    {
      this.key := key;
      users, sessions, logs, artifacts, clock := map[], [], [], [], 0;
    }

    /** `add_or_update_user` (db.py:184-206). */
    method AddOrUpdateUser(t: TelegramId, serial: string, dob: CalendarDate)
      modifies this`users
      ensures users == UpsertUser(old(users), key, t, serial, dob)
    {
      if key.None? {
        return;
      }
      var encrypted := Encrypt(key.value, serial);
      users := users[t := UserRow(encrypted, dob)];
    }

    /** `get_user_data` (db.py:208-231). */
    function GetUserData(t: TelegramId): Option<UserData>
      reads this
    {
      LookupUser(users, key, t)
    }

    /** `create_session` (db.py:233-243). The generated uuid is the argument
        `newId`; if a session already has it, the insert violates the primary
        key and nothing is stored (None). Its one caller, `handle_submit`,
        creates a session only for a user without an active one. */
    method CreateSession(t: TelegramId, initialState: string, newId: SessionId) returns (r: Option<SessionId>)
      requires Valid() && ActiveSession(sessions, t).None?
      modifies this`sessions, this`clock
      ensures Valid()
      ensures r.Some? <==> old(IndexOf(sessions, newId)).None?
      ensures r.Some? ==> r.value == newId && sessions == old(sessions) + [NewSession(newId, t, initialState, old(clock))]
      ensures r.None? ==> sessions == old(sessions)
    {
      if IndexOf(sessions, newId).Some? {
        return None;
      }
      CreateKeepsAtMostOneOpen(sessions, newId, t, initialState, clock);
      sessions := sessions + [NewSession(newId, t, initialState, clock)];
      clock := clock + 1;
      r := Some(newId);
    }

    /** `update_session_state` (db.py:245-261): false, and nothing changed,
        for an unknown id. */
    method UpdateSessionState(sid: SessionId, newState: string, result: Option<string>) returns (found: bool)
      requires Valid()
      modifies this`sessions, this`clock
      ensures Valid()
      ensures found <==> old(IndexOf(sessions, sid)).Some?
      ensures sessions == if found then WithState(old(sessions), sid, newState, result, old(clock)) else old(sessions)
    {
      if IndexOf(sessions, sid).None? {
        return false;
      }
      WithStateEffect(sessions, sid, newState, result, clock);
      sessions := WithState(sessions, sid, newState, result, clock);
      clock := clock + 1;
      found := true;
    }

    /** `get_active_session` (db.py:263-270). */
    function GetActiveSession(t: TelegramId): Option<SessionRow>
      reads this
    {
      ActiveSession(sessions, t)
    }

    /** `log_event` (db.py:272-281): one more row, level upper-cased. */
    method LogEvent(sid: SessionId, level: string, message: string)
      modifies this`logs
      ensures logs == old(logs) + [LogRow(sid, Upper(level), message)]
    {
      logs := logs + [LogRow(sid, Upper(level), message)];
    }

    /** `add_artifact` (db.py:283-293): one more row. */
    method AddArtifact(sid: SessionId, kind: string, path: string)
      modifies this`artifacts
      ensures artifacts == old(artifacts) + [ArtifactRow(sid, kind, path)]
    {
      artifacts := artifacts + [ArtifactRow(sid, kind, path)];
    }
  }
}
