// The first, single-file bot (bot.js): its module-level `activeTasks` set
// and `lastActions` map, the login wizard, the auth, logout, check and
// collect buttons, the collection run, the scheduler tick, and the admin
// command poller with its handlers.
//
// It runs on the schema of database.js: bot_messages has no id, TTL, type or
// unique constraint (a message is recorded with a plain INSERT, and SQLite's
// implicit rowid is kept as the table's counter), and admin_commands rows
// carry only a kind and a text payload. The browser is the first automation
// (`LegacyAutomation`), Telegram an oracle giving the ids of the messages it
// sent, and `now` is `Date.now()`, equal to CURRENT_TIMESTAMP.
//
// Several steps have no `try`; a `Completion` or a `threw` result says that
// the step ended by throwing, which Telegraf and the process-level
// `unhandledRejection` handler only log.
module LegacyBot {
  import opened Common
  import opened Store
  import opened MessageBook
  import opened LegacyAutomation
  import Handlers
  import AdminPoller
  import LoginWizard

  const NotifyExpiredKind: string := "NOTIFY_EXPIRED"
  const CheckAction: string := "check"
  const CollectAction: string := "collect"

  // ---------------------------------------------------------- bot_messages

  /** `trackManualMsg(telegramId, msgId)`: a plain INSERT. */
  function Insert(t: MessageTable, uid: int, msgId: int): MessageTable
  {
    MessageTable(t.rows + [MessageRow(t.nextId, uid, msgId, None, TypeNull)], t.nextId + 1)
  }

  /** `trackMsg(ctx, msgId)`: the same INSERT, skipped for a falsy id. */
  function TrackLegacy(t: MessageTable, uid: int, msgId: int): MessageTable
  {
    if TruthyInt(msgId) then Insert(t, uid, msgId) else t
  }

  /** Recording a send that returned a message, when it did. */
  function Sent(t: MessageTable, uid: int, sent: Option<int>): MessageTable
  {
    if sent.Some? then Insert(t, uid, sent.value) else t
  }

  /** One message per recipient, in order; `replies[k]` is what the send to
      `recipients[k]` returned (None when it threw and the error was
      swallowed). */
  function Deliver(t: MessageTable, recipients: seq<int>, replies: seq<Option<int>>): MessageTable
  {
    if |recipients| == 0 then t
    else Sent(Deliver(t, recipients[..|recipients| - 1], replies), recipients[|recipients| - 1],
              Handlers.PhotoAt(replies, |recipients| - 1))
  }

  /** The INSERT keeps the rowid key. */
  lemma InsertKeepsKeys(t: MessageTable, uid: int, msgId: int)
    requires MessageKeys(t)
    ensures MessageKeys(Insert(t, uid, msgId))
  {
    AppendDistinct(t.rows, MessageRow(t.nextId, uid, msgId, None, TypeNull), RowId);
  }

  /** Unlike the upsert of src/bot/utils.js, recording the same message
      twice leaves two rows for it. */
  lemma InsertDuplicates(t: MessageTable, uid: int, msgId: int)
    ensures |Filter(Insert(Insert(t, uid, msgId), uid, msgId).rows, SameMessage(uid, msgId))|
      == |Filter(t.rows, SameMessage(uid, msgId))| + 2
  {
    var once := Insert(t, uid, msgId);
    var p := SameMessage(uid, msgId);
    FilterAppend(t.rows, [MessageRow(t.nextId, uid, msgId, None, TypeNull)], p);
    FilterAppend(once.rows, [MessageRow(once.nextId, uid, msgId, None, TypeNull)], p);
  }

  /** Delivering only appends: the old rows stay first, each new row is a
      recipient's and has a fresh rowid, at most one per recipient, and the
      key is kept. */
  lemma {:induction false} DeliverAppends(t: MessageTable, recipients: seq<int>, replies: seq<Option<int>>)
    requires MessageKeys(t)
    ensures var r := Deliver(t, recipients, replies);
      MessageKeys(r) && t.nextId <= r.nextId && |t.rows| <= |r.rows| <= |t.rows| + |recipients| && r.rows[..|t.rows|] == t.rows
      && forall k :: |t.rows| <= k < |r.rows| ==> r.rows[k].telegramId in recipients && t.nextId <= r.rows[k].id
  {
    if |recipients| > 0 {
      var init := recipients[..|recipients| - 1];
      DeliverAppends(t, init, replies);
      var before := Deliver(t, init, replies);
      var last := recipients[|recipients| - 1];
      var sent := Handlers.PhotoAt(replies, |recipients| - 1);
      if sent.Some? {
        InsertKeepsKeys(before, last, sent.value);
        var r := Insert(before, last, sent.value);
        assert r.rows[..|before.rows|] == before.rows;
        assert r.rows[..|t.rows|] == before.rows[..|t.rows|];
        forall k | |t.rows| <= k < |r.rows| ensures r.rows[k].telegramId in recipients && t.nextId <= r.rows[k].id {
          if k < |before.rows| {
            assert r.rows[k] == before.rows[k];
            assert before.rows[k].telegramId in init;
          }
        }
      } else {
        forall k | |t.rows| <= k < |before.rows| ensures before.rows[k].telegramId in recipients {
          assert before.rows[k].telegramId in init;
        }
      }
    }
  }

  // ----------------------------------------------------------------- users

  /** `INSERT OR REPLACE INTO users (telegram_id, email, status)`: the old
      row of that id, if any, is deleted and the new one written with every
      other column at its default. */
  function Replace(users: seq<User>, row: User): seq<User>
  {
    if FindUser(users, row.telegramId).Some? then Patch(users, row.telegramId, (_: User) => row)
    else users + [row]
  }

  /** Afterwards the id finds exactly the new row, every other id finds
      what it found before, and the key is kept. */
  lemma ReplaceEffect(users: seq<User>, row: User, other: int)
    requires UniqueUserIds(users)
    ensures UniqueUserIds(Replace(users, row))
    ensures FindUser(Replace(users, row), row.telegramId) == Some(row)
    ensures other != row.telegramId ==> FindUser(Replace(users, row), other) == FindUser(users, other)
  {
    var id := row.telegramId;
    if FindUser(users, id).Some? {
      FindAfterPatch(users, id, id, (_: User) => row);
      FindAfterPatch(users, id, other, (_: User) => row);
    } else {
      var r := users + [row];
      forall i, j | 0 <= i < j < |r| ensures UserKey(r[i]) != UserKey(r[j]) {
        if j < |users| {
          assert r[i] == users[i] && r[j] == users[j];
        } else {
          assert r[i] == users[i];
        }
      }
      FindAppended(users, row, id);
      FindAppended(users, row, other);
    }
  }

  lemma {:induction false} FindAppended(users: seq<User>, row: User, id: int)
    requires FindUser(users, row.telegramId).None?
    ensures FindUser(users + [row], id) == if FindUser(users, id).Some? then FindUser(users, id) else if id == row.telegramId then Some(row) else None
  {
    if |users| > 0 {
      assert (users + [row])[1..] == users[1..] + [row];
      FindAppended(users[1..], row, id);
    } else {
      assert [row][1..] == [];
    }
  }

  /** A premium or blocked user who signs in again through the legacy
      wizard comes out neither premium nor blocked, and with no session
      check recorded. */
  lemma ReloginResetsFlags(users: seq<User>, uid: int, email: string)
    requires UniqueUserIds(users)
    ensures var u := FindUser(Replace(users, FreshUser(uid, email, Active)), uid);
      u.Some? && u.value.status == Active && u.value.email == email
      && !u.value.isPremium && !u.value.isBlocked && u.value.lastCheckStatus.None?
  {
    ReplaceEffect(users, FreshUser(uid, email, Active), uid);
  }

  // ------------------------------------------------------------- the gates

  /** What `action_auth` answers. */
  datatype AuthDecision = AlreadyAuthorized | Busy | EnterLogin

  /** `action_auth`: an ACTIVE user is told they are signed in, a user in
      `activeTasks` is asked to wait, anyone else enters the wizard. */
  function AuthGate(users: seq<User>, active: set<int>, uid: int): AuthDecision
  {
    var user := FindUser(users, uid);
    if user.Some? && user.value.status == Active then AlreadyAuthorized
    else if uid in active then Busy
    else EnterLogin
  }

  /** The legacy gate never looks at the premium and blocked flags or at
      the user's other columns: rewriting them changes no answer. */
  lemma AuthGateIgnoresFlags(users: seq<User>, active: set<int>, uid: int, id: int, f: User -> User)
    requires UniqueUserIds(users)
    requires forall u: User :: f(u).status == u.status
    ensures AuthGate(Patch(users, id, f), active, uid) == AuthGate(users, active, uid)
  {
    FindAfterPatch(users, id, uid, f);
  }

  /** After a logout the same user is let into the wizard. */
  lemma LogoutThenAuth(users: seq<User>, active: set<int>, uid: int)
    requires UniqueUserIds(users)
    ensures AuthGate(Patch(users, uid, Handlers.Demote()), active - {uid}, uid) == EnterLogin
  {
    FindAfterPatch(users, uid, uid, Handlers.Demote());
  }

  /** `!user || user.status !== 'ACTIVE'`, the refusal of the logout, check
      and collect buttons. */
  predicate SignedIn(users: seq<User>, uid: int)
  {
    FindUser(users, uid).Some? && FindUser(users, uid).value.status == Active
  }

  /** What the check and collect buttons answer. */
  datatype ActionOutcome = NotSignedIn | Wait(seconds: int) | Checked(loggedIn: Option<bool>) | Started

  /** What the browser did for a session check: how `init` went, whether
      the `goto` worked, whether the login button was hidden, and whether the
      uncaught `close` worked. */
  datatype CheckProbe = CheckProbe(launch: Launch, navigationOk: bool, loginHidden: bool, closeOk: bool)

  /** Some(logged in) when the check reached the line after `close`, None
      when a step threw. */
  function ProbeResult(p: CheckProbe): Option<bool>
  {
    if p.launch.Launched? && p.navigationOk && p.closeOk then Some(p.loginHidden) else None
  }

  /** The module-level state of bot.js. The admin CHECK_SESSION handler adds
      and deletes the payload string, a different key of the JavaScript Set
      than the numeric id, so the numeric entries modelled here are never
      touched by it. */
  class Bot {
    var activeTasks: set<int>
    var lastActions: Handlers.Cooldowns

    constructor ()
      ensures activeTasks == {} && lastActions == map[]
    {
      activeTasks := {};
      lastActions := map[];
    }

    /** `checkCooldown(userId, action, seconds)` at time `now`: the same
        record-or-wait rule as src/bot/handlers.js. */
    method CheckCooldown(userId: int, action: string, seconds: int, now: int) returns (wait: int)
      modifies this`lastActions
      ensures wait == Handlers.CooldownWait(Handlers.LastTime(old(lastActions), userId, action), seconds, now)
      ensures lastActions == if wait == 0 then Handlers.Record(old(lastActions), userId, action, now) else old(lastActions)
    {
      var userCooldowns := if userId in lastActions then lastActions[userId] else map[];
      var lastTime := if action in userCooldowns then userCooldowns[action] else 0;
      if now - lastTime < seconds * 1000 {
        return (seconds * 1000 - (now - lastTime) + 999) / 1000;
      }
      userCooldowns := userCooldowns[action := now];
      lastActions := lastActions[userId := userCooldowns];
      return 0;
    }

    /** `action_logout`: a signed-in user is set to NEED_AUTH; `uid` is
        added to `activeTasks` and deleted again, so an entry a running
        task had put there is gone afterwards. */
    method ActionLogout(db: Db, uid: int) returns (done: bool)
      modifies this`activeTasks, db`users
      ensures done <==> SignedIn(old(db.users), uid)
      ensures done ==> db.users == Patch(old(db.users), uid, Handlers.Demote()) && activeTasks == old(activeTasks) - {uid}
      ensures !done ==> db.users == old(db.users) && activeTasks == old(activeTasks)
    {
      if !SignedIn(db.users, uid) {
        return false;
      }
      activeTasks := activeTasks + {uid};
      db.users := Patch(db.users, uid, Handlers.Demote());
      activeTasks := activeTasks - {uid};
      return true;
    }

    /** `action_check`: the sign-in gate, a 60-second cooldown, then a
        session check with `uid` in `activeTasks`, taken out again in the
        `finally`. A hidden login button leaves the user as they are;
        a visible one sets NEED_AUTH. A step that throws skips the update. */
    method ActionCheck(db: Db, uid: int, probe: CheckProbe, now: int) returns (outcome: ActionOutcome)
      modifies this, db`users
      ensures !SignedIn(old(db.users), uid) ==>
        outcome == NotSignedIn && unchanged(this) && db.users == old(db.users)
      ensures SignedIn(old(db.users), uid) ==>
        var wait := Handlers.CooldownWait(Handlers.LastTime(old(lastActions), uid, CheckAction), 60, now);
        if wait > 0 then outcome == Wait(wait) && unchanged(this) && db.users == old(db.users)
        else
          outcome == Checked(ProbeResult(probe))
          && lastActions == Handlers.Record(old(lastActions), uid, CheckAction, now)
          && activeTasks == old(activeTasks) - {uid}
          && db.users == (if ProbeResult(probe) == Some(false) then Patch(old(db.users), uid, Handlers.Demote()) else old(db.users))
    {
      if !SignedIn(db.users, uid) {
        return NotSignedIn;
      }
      var cd := CheckCooldown(uid, CheckAction, 60, now);
      if cd > 0 {
        return Wait(cd);
      }
      activeTasks := activeTasks + {uid};
      var user := FindUser(db.users, uid).value;
      var automation := new Browser(user.email, uid);
      var threw := automation.Init(probe.launch);
      outcome := Checked(None);
      if !threw && probe.navigationOk {
        var isLogged := probe.loginHidden;
        var closed := automation.Close(probe.closeOk);
        if closed.Returned? {
          if !isLogged {
            db.users := Patch(db.users, uid, Handlers.Demote());
          }
          outcome := Checked(Some(isLogged));
        }
      }
      activeTasks := activeTasks - {uid};
    }

    /** `action_collect` up to the start of the run: the sign-in gate, a
        300-second cooldown, then `uid` is added to `activeTasks` without a
        membership test. */
    method ActionCollect(db: Db, uid: int, now: int) returns (outcome: ActionOutcome)
      modifies this
      ensures !SignedIn(db.users, uid) ==> outcome == NotSignedIn && unchanged(this)
      ensures SignedIn(db.users, uid) ==>
        var wait := Handlers.CooldownWait(Handlers.LastTime(old(lastActions), uid, CollectAction), 300, now);
        if wait > 0 then outcome == Wait(wait) && unchanged(this)
        else outcome == Started && lastActions == Handlers.Record(old(lastActions), uid, CollectAction, now)
             && activeTasks == old(activeTasks) + {uid}
    {
      if !SignedIn(db.users, uid) {
        return NotSignedIn;
      }
      var cd := CheckCooldown(uid, CollectAction, 300, now);
      if cd > 0 {
        return Wait(cd);
      }
      activeTasks := activeTasks + {uid};
      return Started;
    }

    /** The `finally` of a started run: `activeTasks.delete(uid)`. */
    method Release(uid: int)
      modifies this`activeTasks
      ensures activeTasks == old(activeTasks) - {uid}
    {
      activeTasks := activeTasks - {uid};
    }

    /** One scheduler tick: a run is started for every ACTIVE user not in
        `activeTasks` whose last nonzero SUCCESS is at least a day old; each
        is added to `activeTasks` first. */
    method SchedulerTick(db: Db, now: int) returns (started: seq<int>)
      requires UniqueUserIds(db.users)
      modifies this`activeTasks
      ensures started == LegacyPicks(db.users, old(activeTasks), db.logs, now)
      ensures activeTasks == old(activeTasks) + Handlers.AsSet(started)
    {
      var users := Filter(db.users, IsActiveUser());
      FilterDistinct(db.users, IsActiveUser(), UserKey);
      var active;
      started, active := Handlers.PickIdle(users, activeTasks, db.logs, now);
      activeTasks := active;
    }
  }
  // ------------------------------------------------- runCollectionForUser

  /** What the browser and Telegram did during one run: how `init` went, the store page, whether the uncaught `close` worked, the id of
      the status message sent, the ids returned for the screenshots in order
      (None where `sendPhoto` failed and the error was swallowed), and the id
      of the "technical error" message the `catch` sends. */
  datatype LegacyRun = LegacyRun(launch: Launch, page: StorePage, closeOk: bool, notice: int,
                                 photos: seq<Option<int>>, errorNotice: int)

  /** The tables a run writes. */
  datatype RunTables = RunTables(users: seq<User>, logs: seq<LogRow>, messages: MessageTable)

  /** The recipient of each screenshot: the user, `n` times. */
  function Shots(uid: int, n: nat): seq<int>
  {
    seq(n, _ => uid)
  }

  /** `runCollectionForUser(telegramId, email)`. Anything that throws (a
      failed launch or page step, a failed `close`) lands in the `catch`,
      which sends and records the error message. SESSION_LOST sets the user
      to NEED_AUTH and records the notice before closing; rewards are
      recorded only after a successful close, with one SUCCESS row when the
      count is positive. */
  function RunEffect(s: RunTables, uid: int, run: LegacyRun, now: int): RunTables
  {
    var failed := s.(messages := Insert(s.messages, uid, run.errorNotice));
    if !run.launch.Launched? then failed
    else match Collect(run.page)
      case Threw => failed
      case Returned(SessionLost) =>
        var noticed := s.(users := Patch(s.users, uid, Handlers.Demote()), messages := Insert(s.messages, uid, run.notice));
        if run.closeOk then noticed else noticed.(messages := Insert(noticed.messages, uid, run.errorNotice))
      case Returned(Rewards(count, shots)) =>
        if !run.closeOk then failed
        else if count > 0 then
          s.(logs := s.logs + [LogRow(uid, now, SuccessStatus, count)],
             messages := Deliver(Insert(s.messages, uid, run.notice), Shots(uid, |shots|), run.photos))
        else s.(messages := Insert(s.messages, uid, run.notice))
  }

  /** Whether a run writes a collection_logs row. */
  predicate Logs(run: LegacyRun)
  {
    run.launch.Launched? && run.closeOk && Collect(run.page).Returned? && Collect(run.page).value.Rewards?
    && Collect(run.page).value.count > 0
  }

  /** A run appends one SUCCESS row of one or two rewards exactly when the
      store gave rewards and the browser closed, and nothing otherwise, and
      it sets NEED_AUTH exactly on SESSION_LOST. */
  lemma RunEffectFacts(s: RunTables, uid: int, run: LegacyRun, now: int)
    ensures var r := RunEffect(s, uid, run, now);
      (Logs(run) ==> r.logs == s.logs + [LogRow(uid, now, SuccessStatus, Collect(run.page).value.count)]
                     && 1 <= Collect(run.page).value.count <= 2)
      && (!Logs(run) ==> r.logs == s.logs)
      && r.users == (if run.launch.Launched? && Collect(run.page) == Returned(SessionLost)
                     then Patch(s.users, uid, Handlers.Demote()) else s.users)
  {
    CollectBounds(run.page);
  }

  /** A run only appends rows of the user to bot_messages, and keeps the
      rowid key. */
  lemma RunMessagesAppend(s: RunTables, uid: int, run: LegacyRun, now: int)
    requires MessageKeys(s.messages)
    ensures var r := RunEffect(s, uid, run, now).messages;
      MessageKeys(r) && |s.messages.rows| <= |r.rows| && r.rows[..|s.messages.rows|] == s.messages.rows
      && forall k :: |s.messages.rows| <= k < |r.rows| ==> r.rows[k].telegramId == uid
  {
    var t := s.messages;
    var failed := Insert(t, uid, run.errorNotice);
    InsertKeepsKeys(t, uid, run.errorNotice);
    assert failed.rows[..|t.rows|] == t.rows;
    var noticed := Insert(t, uid, run.notice);
    InsertKeepsKeys(t, uid, run.notice);
    assert noticed.rows[..|t.rows|] == t.rows;
    if run.launch.Launched? && Collect(run.page).Returned? {
      match Collect(run.page).value
      case SessionLost =>
        if !run.closeOk {
          var both := Insert(noticed, uid, run.errorNotice);
          InsertKeepsKeys(noticed, uid, run.errorNotice);
          assert both.rows[..|t.rows|] == t.rows;
        }
      case Rewards(count, shots) =>
        if run.closeOk && count > 0 {
          var photos := Shots(uid, |shots|);
          DeliverAppends(noticed, photos, run.photos);
          var r := Deliver(noticed, photos, run.photos);
          assert r.rows[..|t.rows|] == r.rows[..|noticed.rows|][..|t.rows|];
          forall k | |t.rows| <= k < |r.rows| ensures r.rows[k].telegramId == uid {
            if k < |noticed.rows| {
              assert r.rows[k] == noticed.rows[k];
            }
          }
        }
    }
  }

  /** The `for` over the screenshots: each photo that was sent is recorded. */
  method DeliverAll(db: Db, recipients: seq<int>, replies: seq<Option<int>>)
    modifies db`messages
    ensures db.messages == Deliver(old(db.messages), recipients, replies)
  {
    var i := 0;
    while i < |recipients|
      invariant 0 <= i <= |recipients|
      invariant db.messages == Deliver(old(db.messages), recipients[..i], replies)
    {
      assert recipients[..i + 1][..i] == recipients[..i];
      var sent := Handlers.PhotoAt(replies, i);
      if sent.Some? {
        db.messages := Insert(db.messages, recipients[i], sent.value);
      }
      i := i + 1;
    }
    assert recipients[..i] == recipients;
  }

  method RunCollectionForUser(db: Db, uid: int, email: string, run: LegacyRun, now: int)
    modifies db`users, db`logs, db`messages
    ensures RunTables(db.users, db.logs, db.messages)
      == RunEffect(RunTables(old(db.users), old(db.logs), old(db.messages)), uid, run, now)
  {
    var automation := new Browser(email, uid);
    var threw := automation.Init(run.launch);
    if threw {
      db.messages := Insert(db.messages, uid, run.errorNotice);
      return;
    }
    var result := automation.CollectRewards(run.page);
    if result.Threw? {
      db.messages := Insert(db.messages, uid, run.errorNotice);
      return;
    }
    if result.value.SessionLost? {
      db.users := Patch(db.users, uid, Handlers.Demote());
      db.messages := Insert(db.messages, uid, run.notice);
      var closed := automation.Close(run.closeOk);
      if closed.Threw? {
        db.messages := Insert(db.messages, uid, run.errorNotice);
      }
      return;
    }
    var count := result.value.count;
    var screenshots := result.value.screenshots;
    var closed := automation.Close(run.closeOk);
    if closed.Threw? {
      db.messages := Insert(db.messages, uid, run.errorNotice);
      return;
    }
    if count > 0 {
      db.logs := db.logs + [LogRow(uid, now, SuccessStatus, count)];
      db.messages := Insert(db.messages, uid, run.notice);
      DeliverAll(db, Shots(uid, |screenshots|), run.photos);
    } else {
      db.messages := Insert(db.messages, uid, run.notice);
    }
  }

  // -------------------------------------------------------- the scheduler

  function IsActiveUser(): User -> bool
  {
    (u: User) => u.status == Active
  }

  /** The users one legacy scheduler tick starts a run for, in table order. */
  function LegacyPicks(users: seq<User>, active: set<int>, logs: seq<LogRow>, now: int): seq<int>
  {
    Handlers.UserIds(Filter(Filter(users, IsActiveUser()), Handlers.Idle(active, logs, now)))
  }

  /** A tick starts a run for a user exactly when the user is ACTIVE, not
      busy and due; there is no pause flag and no premium or blocked test. */
  lemma LegacyPicksExact(users: seq<User>, active: set<int>, logs: seq<LogRow>, now: int)
    requires UniqueUserIds(users)
    ensures forall k :: 0 <= k < |users| ==>
      (users[k].telegramId in LegacyPicks(users, active, logs, now)
       <==> users[k].status == Active && users[k].telegramId !in active && Handlers.Due(logs, users[k].telegramId, now))
  {
    FilterCompose(users, IsActiveUser(), Handlers.Idle(active, logs, now));
    Handlers.PickedIff(users, And(IsActiveUser(), Handlers.Idle(active, logs, now)));
  }

  /** Every user the src/ scheduler picks, the legacy one picks too; the
      legacy one picks more exactly for the users that are paused, not
      premium, or blocked. */
  lemma SchedulersCompared(users: seq<User>, active: set<int>, logs: seq<LogRow>,
                           config: map<string, string>, now: int)
    requires UniqueUserIds(users)
    ensures forall k :: 0 <= k < |users| ==>
      var id := users[k].telegramId;
      (id in Handlers.SchedulerPicks(users, active, logs, config, now) ==> id in LegacyPicks(users, active, logs, now))
      && (id in LegacyPicks(users, active, logs, now) && id !in Handlers.SchedulerPicks(users, active, logs, config, now)
          <==> id in LegacyPicks(users, active, logs, now)
               && (Handlers.Paused(config) || !users[k].isPremium || users[k].isBlocked))
  {
    LegacyPicksExact(users, active, logs, now);
    Handlers.SchedulerPicksExact(users, active, logs, config, now);
  }
  // ------------------------------------------------------------ the wizard

  /** How the code step ends: a step threw before anything was written,
      the code was refused, or the user signed in and the collection gave
      `result`. */
  datatype OtpEnd = OtpThrew | OtpRefused | SignedInWith(result: CollectResult)

  /** The code step's path, from what `submitOtp` and `collectRewards` met
      and whether the uncaught `close` worked. */
  function OtpEndOf(otp: OtpPage, store: StorePage, closeOk: bool): OtpEnd
  {
    if !otp.formOk || !otp.revisitOk || !closeOk then OtpThrew
    else if !otp.loginHidden then OtpRefused
    else match Collect(store)
      case Threw => OtpThrew
      case Returned(result) => SignedInWith(result)
  }

  /** Whether the code step reaches a `close`: only after `submitOtp` has
      returned and, when the login button is hidden, `collectRewards` has
      returned too. A step that throws before leaves the browser open. */
  predicate OtpCloses(otp: OtpPage, store: StorePage)
  {
    otp.formOk && otp.revisitOk && (!otp.loginHidden || Collect(store).Returned?)
  }

  /** The step throws on a failed step, and also after a SESSION_LOST
      answer: the string has no `screenshots`, and `for...of undefined`
      throws once the user row, the log check and the reply are done. */
  predicate OtpThrows(end: OtpEnd)
  {
    end.OtpThrew? || end == SignedInWith(SessionLost)
  }

  /** The writes after an accepted code: the user row replaced as ACTIVE,
      a SUCCESS row for a positive count, the reply, and one message per
      screenshot sent. */
  function SignInTables(s: RunTables, uid: int, email: string, result: CollectResult, reply: int,
                        photos: seq<Option<int>>, now: int): RunTables
  {
    var replied := TrackLegacy(s.messages, uid, reply);
    RunTables(Replace(s.users, FreshUser(uid, email, Active)),
              s.logs + (if result.Rewards? && result.count > 0 then [LogRow(uid, now, SuccessStatus, result.count)] else []),
              if result.Rewards? then Deliver(replied, Shots(uid, |result.screenshots|), photos) else replied)
  }

  function OtpTables(s: RunTables, uid: int, email: string, end: OtpEnd, reply: int,
                     photos: seq<Option<int>>, now: int): RunTables
  {
    match end
    case OtpThrew => s
    case OtpRefused => s.(messages := TrackLegacy(s.messages, uid, reply))
    case SignedInWith(result) => SignInTables(s, uid, email, result, reply, photos, now)
  }

  /** After an accepted code the user is found as a fresh ACTIVE row with
      the wizard's e-mail (premium and blocked reset), the key is kept, and
      a log row is added exactly for a positive count, of at most two. */
  lemma SignInEffect(s: RunTables, uid: int, email: string, store: StorePage, reply: int,
                     photos: seq<Option<int>>, now: int)
    requires UniqueUserIds(s.users) && Collect(store).Returned?
    ensures var result := Collect(store).value;
      var r := SignInTables(s, uid, email, result, reply, photos, now);
      UniqueUserIds(r.users) && FindUser(r.users, uid) == Some(FreshUser(uid, email, Active))
      && (|r.logs| == |s.logs| + 1 <==> result.Rewards? && result.count > 0)
      && (result.Rewards? && result.count > 0 ==> r.logs[|s.logs|].rewards <= 2)
      && (!(result.Rewards? && result.count > 0) ==> r.logs == s.logs)
  {
    ReplaceEffect(s.users, FreshUser(uid, email, Active), uid);
    CollectBounds(store);
  }

  /** The DB writes of an accepted code, and whether the photo loop then
      throws. */
  method RecordSignIn(db: Db, uid: int, email: string, result: CollectResult, reply: int,
                      photos: seq<Option<int>>, now: int) returns (threw: bool)
    modifies db`users, db`logs, db`messages
    ensures threw <==> result.SessionLost?
    ensures RunTables(db.users, db.logs, db.messages)
      == SignInTables(RunTables(old(db.users), old(db.logs), old(db.messages)), uid, email, result, reply, photos, now)
  {
    db.users := Replace(db.users, FreshUser(uid, email, Active));
    var count := if result.Rewards? then result.count else 0;
    if count > 0 {
      db.logs := db.logs + [LogRow(uid, now, SuccessStatus, count)];
    }
    db.messages := TrackLegacy(db.messages, uid, reply);
    if result.SessionLost? {
      return true;
    }
    DeliverAll(db, Shots(uid, |result.screenshots|), photos);
    return false;
  }

  /** The `try` of step 1: a browser for the address, `init(false)` and
      `startLogin`. NEED_OTP keeps the browser open for the code step; any
      other answer is replied to and the browser closed (a failing close
      lands in the `catch`, which closes once more and swallows the error);
      an exception is not replied to, and the `catch` closes the context
      an `init` whose page step failed had already stored. */
  method AttemptLogin(db: Db, uid: int, text: string, launch: Launch, page: LoginPage, closeOk: bool, reply: int)
    returns (browser: Browser, next: bool)
    modifies db`messages
    ensures var login := if launch.Launched? then StartLoginOutcome(page) else Threw;
      fresh(browser) && browser.email == text && browser.telegramId == uid
      && (next <==> login == Returned(NeedOtp))
      && db.messages == (if login.Returned? then TrackLegacy(old(db.messages), uid, reply) else old(db.messages))
      && (next ==> browser.hasContext && browser.closeRequests == 0)
      && (!next ==> browser.closeRequests == (if launch.LaunchFailed? then 0 else if login.Threw? || closeOk then 1 else 2))
  {
    browser := new Browser(text, uid);
    var threw := browser.Init(launch);
    var result: Completion<string> := Threw;
    if !threw {
      result := browser.StartLogin(page);
    }
    if result == Returned(NeedOtp) {
      db.messages := TrackLegacy(db.messages, uid, reply);
      return browser, true;
    }
    if result.Returned? {
      db.messages := TrackLegacy(db.messages, uid, reply);
      var closed := browser.Close(closeOk);
      if closed.Threw? {
        closed := browser.Close(closeOk);
      }
    } else {
      var closed := browser.Close(closeOk);
    }
    return browser, false;
  }

  /** The login scene of bot.js. */
  class Wizard {
    const uid: int
    var cursor: nat
    var inScene: bool
    var email: string
    var automation: Browser?

    constructor (uid: int)
      ensures this.uid == uid && cursor == 0 && inScene && email == "" && automation == null
    {
      this.uid := uid;
      cursor := 0;
      inScene := true;
      email := "";
      automation := null;
    }

    /** Step 0: the e-mail prompt, whose id is `prompt`, is recorded. */
    method AskEmail(db: Db, prompt: int)
      requires cursor == 0 && inScene
      modifies this`cursor, db`messages
      ensures cursor == 1 && db.messages == TrackLegacy(old(db.messages), uid, prompt)
    {
      db.messages := TrackLegacy(db.messages, uid, prompt);
      cursor := 1;
    }

    /** Step 1. An update without a message is ignored; /start and /cancel
        leave; an address the pattern rejects gets the `reply` notice.
        Otherwise the user is put in `activeTasks`, the `wait` message is
        recorded and a browser opened: NEED_OTP moves to the code step with
        the user still busy; any other answer or an exception closes the
        browser, takes the user out of `activeTasks` and leaves. */
    method HandleEmail(db: Db, bot: Bot, message: Option<string>, launch: Launch, page: LoginPage,
                       closeOk: bool, wait: int, reply: int) returns (browser: Browser?)
      requires cursor == 1 && inScene
      modifies this`cursor, this`inScene, this`email, this`automation, bot`activeTasks, db`messages
      ensures message.None? ==>
        unchanged(this) && bot.activeTasks == old(bot.activeTasks) && db.messages == old(db.messages) && browser == null
      ensures message.Some? && LoginWizard.IsCancel(Trim(message.value)) ==>
        !inScene && cursor == 1 && email == old(email) && automation == old(automation)
        && bot.activeTasks == old(bot.activeTasks) && db.messages == old(db.messages) && browser == null
      ensures message.Some? && !LoginWizard.IsCancel(Trim(message.value)) && !LoginWizard.MatchesEmailPattern(Trim(message.value)) ==>
        unchanged(this) && bot.activeTasks == old(bot.activeTasks)
        && db.messages == TrackLegacy(old(db.messages), uid, reply) && browser == null
      ensures message.Some? && !LoginWizard.IsCancel(Trim(message.value)) && LoginWizard.MatchesEmailPattern(Trim(message.value)) ==>
        var login := if launch.Launched? then StartLoginOutcome(page) else Threw;
        var waited := TrackLegacy(old(db.messages), uid, wait);
        browser != null && fresh(browser) && browser.email == Trim(message.value) && email == Trim(message.value)
        && db.messages == (if login.Returned? then TrackLegacy(waited, uid, reply) else waited)
        && (login == Returned(NeedOtp) ==>
              cursor == 2 && inScene && automation == browser && browser.hasContext && browser.closeRequests == 0
              && bot.activeTasks == old(bot.activeTasks) + {uid})
        && (login != Returned(NeedOtp) ==>
              cursor == 1 && !inScene && automation == old(automation) && bot.activeTasks == old(bot.activeTasks) - {uid}
              && browser.closeRequests == (if launch.LaunchFailed? then 0 else if login.Threw? || closeOk then 1 else 2))
    {
      browser := null;
      if message.None? {
        return;
      }
      var text := Trim(message.value);
      if LoginWizard.IsCancel(text) {
        inScene := false;
        return;
      }
      if !LoginWizard.MatchesEmailPattern(text) {
        db.messages := TrackLegacy(db.messages, uid, reply);
        return;
      }
      email := text;
      bot.activeTasks := bot.activeTasks + {uid};
      db.messages := TrackLegacy(db.messages, uid, wait);
      var next;
      browser, next := AttemptLogin(db, uid, text, launch, page, closeOk, reply);
      if next {
        automation := browser;
        cursor := 2;
      } else {
        bot.activeTasks := bot.activeTasks - {uid};
        inScene := false;
      }
    }

    /** Step 2, as written: no `try`, so a throwing step ends the update
        with the user still in `activeTasks` and the scene still at the code
        step. `otp` and `store` are what `submitOtp` and `collectRewards`
        met, `closeOk` whether `close` worked, `reply` the id of the result
        message and `photos` those of the screenshots sent. */
    method HandleOtp(db: Db, bot: Bot, message: Option<string>, otp: OtpPage, store: StorePage, closeOk: bool,
                     reply: int, photos: seq<Option<int>>, now: int) returns (threw: bool)
      requires cursor == 2 && inScene && automation != null && automation.hasContext
      modifies this`inScene, automation`closeRequests, bot`activeTasks, db`users, db`logs, db`messages
      ensures automation.closeRequests
              == old(automation.closeRequests) + (if message.Some? && OtpCloses(otp, store) then 1 else 0)
      ensures message.None? ==>
        !threw && inScene && bot.activeTasks == old(bot.activeTasks)
        && db.users == old(db.users) && db.logs == old(db.logs) && db.messages == old(db.messages)
      ensures message.Some? ==>
        var end := OtpEndOf(otp, store, closeOk);
        threw == OtpThrows(end)
        && RunTables(db.users, db.logs, db.messages)
           == OtpTables(RunTables(old(db.users), old(db.logs), old(db.messages)), uid, email, end, reply, photos, now)
        && (threw ==> inScene && bot.activeTasks == old(bot.activeTasks))
        && (!threw ==> !inScene && bot.activeTasks == old(bot.activeTasks) - {uid})
    {
      if message.None? {
        return false;
      }
      var text := Trim(message.value);
      var b := automation;
      var success := b.SubmitOtp(text, otp);
      if success.Threw? {
        return true;
      }
      if success.value {
        var result := b.CollectRewards(store);
        if result.Threw? {
          return true;
        }
        var closed := b.Close(closeOk);
        if closed.Threw? {
          return true;
        }
        threw := RecordSignIn(db, uid, email, result.value, reply, photos, now);
        if threw {
          return;
        }
      } else {
        var closed := b.Close(closeOk);
        if closed.Threw? {
          return true;
        }
        db.messages := TrackLegacy(db.messages, uid, reply);
      }
      bot.activeTasks := bot.activeTasks - {uid};
      inScene := false;
      return false;
    }

    /** Step 2 with the `activeTasks.delete` in a `finally`, as evidently
        intended: the same writes, and the user is free afterwards however
        the step ended. */
    method HandleOtpFinally(db: Db, bot: Bot, message: Option<string>, otp: OtpPage, store: StorePage,
                            closeOk: bool, reply: int, photos: seq<Option<int>>, now: int) returns (threw: bool)
      requires cursor == 2 && inScene && automation != null && automation.hasContext
      modifies this`inScene, automation`closeRequests, bot`activeTasks, db`users, db`logs, db`messages
      ensures automation.closeRequests
              == old(automation.closeRequests) + (if message.Some? && OtpCloses(otp, store) then 1 else 0)
      ensures message.None? ==>
        !threw && inScene && bot.activeTasks == old(bot.activeTasks)
        && db.users == old(db.users) && db.logs == old(db.logs) && db.messages == old(db.messages)
      ensures message.Some? ==>
        threw == OtpThrows(OtpEndOf(otp, store, closeOk))
        && RunTables(db.users, db.logs, db.messages)
           == OtpTables(RunTables(old(db.users), old(db.logs), old(db.messages)), uid, email,
                        OtpEndOf(otp, store, closeOk), reply, photos, now)
        && bot.activeTasks == old(bot.activeTasks) - {uid}
    {
      threw := HandleOtp(db, bot, message, otp, store, closeOk, reply, photos, now);
      if message.Some? {
        bot.activeTasks := bot.activeTasks - {uid};
      }
    }
  }

  /** What a user left in `activeTasks` by a throwing code step meets: the
      scheduler never picks them, and the auth button asks them to wait
      unless the row already says ACTIVE. */
  lemma StuckUserRefused(users: seq<User>, active: set<int>, logs: seq<LogRow>, uid: int, now: int)
    requires UniqueUserIds(users) && uid in active
    ensures uid !in LegacyPicks(users, active, logs, now)
    ensures AuthGate(users, active, uid) == Busy || SignedIn(users, uid)
  {
    var p := And(IsActiveUser(), Handlers.Idle(active, logs, now));
    FilterCompose(users, IsActiveUser(), Handlers.Idle(active, logs, now));
    Handlers.PickedIff(users, p);
  }
  // ------------------------------------------------------- the admin poller

  /** What Telegram and the browser answered while one command was handled:
      the ids returned to the broadcast, in audience order (None where the
      send threw and the error was swallowed); the session check's probe;
      the id of the NOTIFY_EXPIRED message (None when its send threw). */
  datatype Answers = Answers(replies: seq<Option<int>>, probe: CheckProbe, sent: Option<int>)

  /** The tables the legacy handlers write. */
  datatype Shared = Shared(users: seq<User>, messages: MessageTable)

  /** `SELECT telegram_id FROM users WHERE status = "ACTIVE"`. */
  function ActiveIds(users: seq<User>): seq<int>
  {
    Handlers.UserIds(Filter(users, IsActiveUser()))
  }

  /** `handleCheckSession(payload)`: nothing for an unknown user or when a
      step threw; otherwise the check status and time, and NEED_AUTH for a
      lost session. */
  function CheckedUsers(users: seq<User>, id: Option<int>, probe: CheckProbe, now: int): seq<User>
  {
    if id.Some? && FindUser(users, id.value).Some? && ProbeResult(probe).Some?
    then AdminPoller.SessionChecked(users, id.value, ProbeResult(probe).value, now)
    else users
  }

  /** The legacy session check stamps ACTIVE or EXPIRED on the checked
      user and demotes an expired one, touching no other user; an unknown
      user, or a launch, navigation or close that threw, changes nothing. */
  lemma CheckedUsersEffect(users: seq<User>, id: Option<int>, probe: CheckProbe, now: int, other: int)
    requires UniqueUserIds(users)
    ensures id.None? || FindUser(users, id.value).None? || ProbeResult(probe).None? ==>
      CheckedUsers(users, id, probe, now) == users
    ensures id.Some? && FindUser(users, id.value).Some? && ProbeResult(probe).Some? ==>
      var r := CheckedUsers(users, id, probe, now);
      var before := FindUser(users, id.value).value;
      var ok := probe.loginHidden;
      FindUser(r, id.value) == Some(before.(
        lastCheckStatus := Some(if ok then SessionActive else SessionExpired),
        lastCheckAt := Some(now),
        status := if ok then before.status else NeedAuth))
      && (other != id.value ==> FindUser(r, other) == FindUser(users, other))
  {
    if id.Some? && FindUser(users, id.value).Some? && ProbeResult(probe).Some? {
      AdminPoller.SessionCheckedEffect(users, id.value, ProbeResult(probe).value, now, other);
    }
  }

  /** The handler's effect. A payload that is not a user id matches no row
      and is not a chat Telegram can write to, so it changes nothing. */
  function Dispatch(s: Shared, c: Command, a: Answers, now: int): Shared
  {
    var id := AdminPoller.ParsedId(c.payload);
    if c.kind == AdminPoller.BroadcastKind then s.(messages := Deliver(s.messages, ActiveIds(s.users), a.replies))
    else if c.kind == AdminPoller.CheckSessionKind then s.(users := CheckedUsers(s.users, id, a.probe, now))
    else if c.kind == NotifyExpiredKind then
      if id.Some? && a.sent.Some? then s.(messages := Insert(s.messages, id.value, a.sent.value)) else s
    else if c.kind == AdminPoller.ClearHistoryKind then
      if id.Some? then s.(messages := s.messages.(rows := PurgeHistory(s.messages.rows, id.value, None, false))) else s
    else s
  }

  /** The kinds with a handler that writes a table. */
  predicate Handled(kind: string)
  {
    kind in {AdminPoller.BroadcastKind, AdminPoller.CheckSessionKind, NotifyExpiredKind, AdminPoller.ClearHistoryKind}
  }

  /** The user a TRIGGER_COLLECT starts a run for, not awaited. */
  function Triggered(users: seq<User>, c: Command): seq<int>
  {
    var id := AdminPoller.ParsedId(c.payload);
    if c.kind == AdminPoller.TriggerCollectKind && id.Some? && FindUser(users, id.value).Some? then [id.value] else []
  }

  /** The tables after handling `cmds` in order, and the runs started. */
  function TickFold(s: Shared, cmds: seq<Command>, world: int -> Answers, now: int): (Shared, seq<int>)
  {
    if |cmds| == 0 then (s, [])
    else
      var (before, started) := TickFold(s, cmds[..|cmds| - 1], world, now);
      var c := cmds[|cmds| - 1];
      (Dispatch(before, c, world(c.id), now), started + Triggered(before.users, c))
  }

  /** Every handler catches its own errors, so a handled row always ends
      COMPLETED. */
  function Finished(c: Command): Command
  {
    if c.status == Pending then c.(status := Completed) else c
  }

  /** A broadcast only writes rows for ACTIVE users; a history clear leaves
      no row of the user and keeps every other row; an unknown kind changes
      nothing; and every handler keeps the keys of both tables. */
  lemma DispatchFacts(s: Shared, c: Command, a: Answers, now: int)
    requires MessageKeys(s.messages) && UniqueUserIds(s.users)
    ensures var r := Dispatch(s, c, a, now);
      MessageKeys(r.messages) && UniqueUserIds(r.users)
      && (c.kind == AdminPoller.BroadcastKind ==>
            r.users == s.users && |s.messages.rows| <= |r.messages.rows|
            && r.messages.rows[..|s.messages.rows|] == s.messages.rows
            && forall k :: |s.messages.rows| <= k < |r.messages.rows| ==>
                 FindUser(s.users, r.messages.rows[k].telegramId).Some?
                 && FindUser(s.users, r.messages.rows[k].telegramId).value.status == Active)
      && (c.kind == AdminPoller.ClearHistoryKind && AdminPoller.ParsedId(c.payload).Some? ==>
            var id := AdminPoller.ParsedId(c.payload).value;
            r.messages.rows == Filter(s.messages.rows, HistoryKept(id, None, false))
            && forall k :: 0 <= k < |r.messages.rows| ==> r.messages.rows[k].telegramId != id)
      && (!Handled(c.kind) ==> r == s)
  {
    var id := AdminPoller.ParsedId(c.payload);
    if c.kind == AdminPoller.BroadcastKind {
      var audience := ActiveIds(s.users);
      DeliverAppends(s.messages, audience, a.replies);
      Handlers.PickedIff(s.users, IsActiveUser());
    } else if c.kind == AdminPoller.CheckSessionKind {
      if id.Some? && FindUser(s.users, id.value).Some? && ProbeResult(a.probe).Some? {
        var stamped := Patch(s.users, id.value, AdminPoller.StampSession(ProbeResult(a.probe).value, now));
        FindAfterPatch(s.users, id.value, id.value, AdminPoller.StampSession(ProbeResult(a.probe).value, now));
        FindAfterPatch(stamped, id.value, id.value, Handlers.Demote());
      }
    } else if c.kind == NotifyExpiredKind {
      if id.Some? && a.sent.Some? {
        InsertKeepsKeys(s.messages, id.value, a.sent.value);
      }
    } else if c.kind == AdminPoller.ClearHistoryKind {
      if id.Some? {
        FilterDistinct(s.messages.rows, HistoryKept(id.value, None, false), RowId);
        FilterMembers(s.messages.rows, HistoryKept(id.value, None, false));
      }
    }
  }
  /** `handleCheckSession(payload)`. The payload string it adds to and
      deletes from `activeTasks` is not one of the numeric keys, so the
      numeric set is left as it was. */
  method CheckSessionOf(db: Db, id: Option<int>, probe: CheckProbe, now: int)
    modifies db`users
    ensures db.users == CheckedUsers(old(db.users), id, probe, now)
  {
    if id.None? {
      return;
    }
    var uid := id.value;
    var user := FindUser(db.users, uid);
    if user.None? {
      return;
    }
    ghost var users0 := db.users;
    var automation := new Browser(user.value.email, uid);
    var threw := automation.Init(probe.launch);
    if !threw && probe.navigationOk {
      var isLogged := probe.loginHidden;
      var closed := automation.Close(probe.closeOk);
      if closed.Returned? {
        assert ProbeResult(probe) == Some(isLogged);
        db.users := Patch(db.users, uid, AdminPoller.StampSession(isLogged, now));
        if !isLogged {
          db.users := Patch(db.users, uid, Handlers.Demote());
        }
        assert db.users == AdminPoller.SessionChecked(users0, uid, isLogged, now);
      } else {
        assert ProbeResult(probe).None?;
      }
    } else {
      assert ProbeResult(probe).None?;
    }
  }

  /** `handleClearHistory(payload)`: Telegram is asked to delete each of the
      user's messages, errors ignored, and the rows are deleted. The ids
      asked for are returned. */
  method ClearHistoryOf(db: Db, id: Option<int>) returns (requested: seq<int>)
    modifies db`messages
    ensures id.None? ==> db.messages == old(db.messages) && requested == []
    ensures id.Some? ==>
      db.messages == old(db.messages).(rows := PurgeHistory(old(db.messages.rows), id.value, None, false))
      && requested == MessageIds(Filter(old(db.messages.rows), OfUser(id.value)))
  {
    if id.None? {
      return [];
    }
    requested := RequestDeletions(Filter(db.messages.rows, OfUser(id.value)));
    db.messages := db.messages.(rows := PurgeHistory(db.messages.rows, id.value, None, false));
  }

  /** The `switch` of the legacy tick for one command. */
  method HandleCommand(db: Db, cmd: Command, a: Answers, now: int) returns (started: seq<int>)
    modifies db`users, db`messages
    ensures started == Triggered(old(db.users), cmd)
    ensures Shared(db.users, db.messages) == Dispatch(Shared(old(db.users), old(db.messages)), cmd, a, now)
  {
    started := [];
    var id := AdminPoller.ParsedId(cmd.payload);
    if cmd.kind == AdminPoller.BroadcastKind {
      DeliverAll(db, ActiveIds(db.users), a.replies);
    } else if cmd.kind == AdminPoller.CheckSessionKind {
      CheckSessionOf(db, id, a.probe, now);
    } else if cmd.kind == NotifyExpiredKind {
      if id.Some? && a.sent.Some? {
        db.messages := Insert(db.messages, id.value, a.sent.value);
      }
    } else if cmd.kind == AdminPoller.ClearHistoryKind {
      var requested := ClearHistoryOf(db, id);
    } else if cmd.kind == AdminPoller.TriggerCollectKind {
      if id.Some? && FindUser(db.users, id.value).Some? {
        started := [id.value];
      }
    }
  }

  /** The queue rows once the commands whose ids are in `done` were
      handled. */
  ghost predicate FinishedUpTo(cur: seq<Command>, rows: seq<Command>, done: set<int>)
  {
    |cur| == |rows|
    && forall k :: 0 <= k < |rows| ==> cur[k] == if rows[k].id in done then Finished(rows[k]) else rows[k]
  }

  /** Marking one more PENDING row PROCESSING and then COMPLETED finishes
      it. */
  lemma FinishStep(cur: seq<Command>, rows: seq<Command>, done: set<int>, cmd: Command)
    requires FinishedUpTo(cur, rows, done)
    requires Distinct(rows, CommandId) && cmd in rows && cmd.status == Pending
    ensures FinishedUpTo(AdminPoller.SetStatus(AdminPoller.SetStatus(cur, cmd.id, Processing), cmd.id, Completed),
                         rows, done + {cmd.id})
  {
    var next := AdminPoller.SetStatus(AdminPoller.SetStatus(cur, cmd.id, Processing), cmd.id, Completed);
    var m :| 0 <= m < |rows| && rows[m] == cmd;
    forall k | 0 <= k < |rows|
      ensures next[k] == if rows[k].id in done + {cmd.id} then Finished(rows[k]) else rows[k]
    {
      if rows[k].id == cmd.id {
        assert CommandId(rows[m]) == CommandId(rows[k]);
        assert k == m;
      }
    }
  }

  /** Once every PENDING row was handled, every row is finished. */
  lemma AllFinished(cur: seq<Command>, rows: seq<Command>, done: set<int>)
    requires FinishedUpTo(cur, rows, done)
    requires AdminPoller.HandledPrefix(rows, done, Filter(rows, AdminPoller.IsPending()), |Filter(rows, AdminPoller.IsPending())|)
    ensures |cur| == |rows| && forall k :: 0 <= k < |rows| ==> cur[k] == Finished(rows[k])
  {
    var selected := Filter(rows, AdminPoller.IsPending());
    assert selected[..|selected|] == selected;
    FilterMembers(rows, AdminPoller.IsPending());
  }

  /** One pass of the loop: PROCESSING, the handler, COMPLETED. */
  method HandleRow(db: Db, cmd: Command, a: Answers, now: int) returns (started: seq<int>)
    modifies db`commands, db`users, db`messages
    ensures db.commands == old(db.commands).(rows :=
      AdminPoller.SetStatus(AdminPoller.SetStatus(old(db.commands.rows), cmd.id, Processing), cmd.id, Completed))
    ensures started == Triggered(old(db.users), cmd)
    ensures Shared(db.users, db.messages) == Dispatch(Shared(old(db.users), old(db.messages)), cmd, a, now)
  {
    db.commands := db.commands.(rows := AdminPoller.SetStatus(db.commands.rows, cmd.id, Processing));
    started := HandleCommand(db, cmd, a, now);
    db.commands := db.commands.(rows := AdminPoller.SetStatus(db.commands.rows, cmd.id, Completed));
  }

  /** One tick of `pollAdminCommands`: the PENDING rows, read once in
      `created_at` order, are each marked PROCESSING, handled and marked
      COMPLETED; no handler lets an error out, so no row ends FAILED. The
      ids of the collection runs started are returned. */
  method Tick(db: Db, world: int -> Answers, now: int) returns (started: seq<int>)
    requires CommandKeys(db.commands)
    modifies db`commands, db`users, db`messages
    ensures db.commands.nextId == old(db.commands.nextId)
    ensures |db.commands.rows| == |old(db.commands.rows)|
    ensures forall k :: 0 <= k < |db.commands.rows| ==> db.commands.rows[k] == Finished(old(db.commands.rows[k]))
    ensures (Shared(db.users, db.messages), started)
      == TickFold(Shared(old(db.users), old(db.messages)), Filter(old(db.commands.rows), AdminPoller.IsPending()), world, now)
  {
    ghost var rows0 := db.commands.rows;
    ghost var s0 := Shared(db.users, db.messages);
    var commands := Filter(db.commands.rows, AdminPoller.IsPending());
    FilterMembers(rows0, AdminPoller.IsPending());
    ghost var done: set<int> := {};
    started := [];
    var i := 0;
    while i < |commands|
      invariant 0 <= i <= |commands|
      invariant db.commands.nextId == old(db.commands.nextId)
      invariant FinishedUpTo(db.commands.rows, rows0, done)
      invariant AdminPoller.HandledPrefix(rows0, done, commands, i)
      invariant (Shared(db.users, db.messages), started) == TickFold(s0, commands[..i], world, now)
    {
      var cmd := commands[i];
      TickFoldNext(s0, commands, i, world, now);
      FinishStep(db.commands.rows, rows0, done, cmd);
      AdminPoller.HandledStep(rows0, done, commands, i);
      var triggered := HandleRow(db, cmd, world(cmd.id), now);
      started := started + triggered;
      done := done + {cmd.id};
      i := i + 1;
    }
    AllFinished(db.commands.rows, rows0, done);
    assert commands[..i] == commands;
  }

  lemma TickFoldNext(s: Shared, cmds: seq<Command>, i: int, world: int -> Answers, now: int)
    requires 0 <= i < |cmds|
    ensures var (before, started) := TickFold(s, cmds[..i], world, now);
      TickFold(s, cmds[..i + 1], world, now)
      == (Dispatch(before, cmds[i], world(cmds[i].id), now), started + Triggered(before.users, cmds[i]))
  {
    assert cmds[..i + 1][..i] == cmds[..i];
  }

  /** Over a whole tick the keys of both tables are kept: the `bot_messages`
      rowid and the unique user ids. */
  lemma {:induction false} TickKeepsKeys(s: Shared, cmds: seq<Command>, world: int -> Answers, now: int)
    requires MessageKeys(s.messages) && UniqueUserIds(s.users)
    ensures MessageKeys(TickFold(s, cmds, world, now).0.messages) && UniqueUserIds(TickFold(s, cmds, world, now).0.users)
  {
    if |cmds| > 0 {
      TickKeepsKeys(s, cmds[..|cmds| - 1], world, now);
      var before := TickFold(s, cmds[..|cmds| - 1], world, now).0;
      var c := cmds[|cmds| - 1];
      DispatchFacts(before, c, world(c.id), now);
    }
  }

  /** A run is started for exactly the TRIGGER_COLLECT commands whose user
      exists when the command is handled; the users table only changes
      through CHECK_SESSION, and never gains or loses a row. */
  lemma {:induction false} TickStartsKnownUsers(s: Shared, cmds: seq<Command>, world: int -> Answers, now: int)
    ensures |TickFold(s, cmds, world, now).1| <= |cmds|
    ensures Handlers.UserIds(TickFold(s, cmds, world, now).0.users) == Handlers.UserIds(s.users)
    ensures forall k :: 0 <= k < |TickFold(s, cmds, world, now).1| ==>
      TickFold(s, cmds, world, now).1[k] in Handlers.UserIds(s.users)
  {
    if |cmds| > 0 {
      var init := cmds[..|cmds| - 1];
      TickStartsKnownUsers(s, init, world, now);
      var before := TickFold(s, init, world, now).0;
      var c := cmds[|cmds| - 1];
      DispatchKeepsIds(before, c, world(c.id), now);
      TriggeredKnown(before.users, c);
    }
  }

  lemma DispatchKeepsIds(s: Shared, c: Command, a: Answers, now: int)
    ensures Handlers.UserIds(Dispatch(s, c, a, now).users) == Handlers.UserIds(s.users)
  {
    var users := Dispatch(s, c, a, now).users;
    if c.kind == AdminPoller.CheckSessionKind {
      var id := AdminPoller.ParsedId(c.payload);
      assert users == CheckedUsers(s.users, id, a.probe, now);
      CheckedKeepsIds(s.users, id, a.probe, now);
    } else {
      assert users == s.users;
    }
  }

  lemma TriggeredKnown(users: seq<User>, c: Command)
    ensures |Triggered(users, c)| <= 1
    ensures forall k :: 0 <= k < |Triggered(users, c)| ==> Triggered(users, c)[k] in Handlers.UserIds(users)
  {
    var id := AdminPoller.ParsedId(c.payload);
    if c.kind == AdminPoller.TriggerCollectKind && id.Some? && FindUser(users, id.value).Some? {
      var m :| 0 <= m < |users| && users[m] == FindUser(users, id.value).value;
      assert Handlers.UserIds(users)[m] == id.value;
    }
  }

  /** A session check rewrites columns, never the key. */
  lemma CheckedKeepsIds(users: seq<User>, id: Option<int>, probe: CheckProbe, now: int)
    ensures Handlers.UserIds(CheckedUsers(users, id, probe, now)) == Handlers.UserIds(users)
  {
    if id.Some? && FindUser(users, id.value).Some? && ProbeResult(probe).Some? {
      var loggedIn := ProbeResult(probe).value;
      var stamped := Patch(users, id.value, AdminPoller.StampSession(loggedIn, now));
      PatchKeepsIds(users, id.value, AdminPoller.StampSession(loggedIn, now));
      PatchKeepsIds(stamped, id.value, Handlers.Demote());
    }
  }

  /** An UPDATE by key never rewrites the key column. */
  lemma PatchKeepsIds(users: seq<User>, id: int, f: User -> User)
    ensures Handlers.UserIds(Patch(users, id, f)) == Handlers.UserIds(users)
  {
    var r := Patch(users, id, f);
    assert |Handlers.UserIds(r)| == |Handlers.UserIds(users)|;
    forall k | 0 <= k < |users| ensures Handlers.UserIds(r)[k] == Handlers.UserIds(users)[k] {
    }
  }
}
