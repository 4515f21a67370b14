// The coordination layer of src/bot/handlers.js: the per-(user, action)
// cooldown map, the in-memory `activeTasks` set, the admission gates of the
// auth, check and collect buttons, the scheduler's eligibility rule, and the
// multi-e-mail collection run that appends collection_logs rows.
//
// The browser, Telegram and the clock are parameters: a `SessionPeek` or an
// `EmailRun` says what the page showed and which Telegram sends returned a
// message id; `now` is `Date.now()` (equal to CURRENT_TIMESTAMP).
module Handlers {
  import opened Common
  import opened Store
  import opened MessageBook
  import opened Automation

  // ------------------------------------------------------------- cooldowns

  /** `lastActions`: user id to an object mapping action names to the time
      of the last admitted call. */
  type Cooldowns = map<int, map<string, int>>

  /** `(lastActions.get(userId) || {})[action] || 0`. */
  function LastTime(m: Cooldowns, userId: int, action: string): int
  {
    if userId in m && action in m[userId] then m[userId][action] else 0
  }

  /** What `checkCooldown` returns: 0 once `seconds` have elapsed since
      `last`, otherwise the whole seconds still to wait, rounded up (the
      source's `Math.ceil` of a positive integer number of milliseconds
      divided by 1000). */
  function CooldownWait(last: int, seconds: int, now: int): (r: int)
    ensures r >= 0
    ensures r == 0 <==> now - last >= seconds * 1000
    ensures r > 0 ==> (r - 1) * 1000 < seconds * 1000 - (now - last) <= r * 1000
  {
    var remaining := seconds * 1000 - (now - last);
    if remaining > 0 then (remaining + 999) / 1000 else 0
  }

  /** The map after an admitted call stores `now` for (userId, action). */
  function Record(m: Cooldowns, userId: int, action: string, now: int): Cooldowns
  {
    m[userId := (if userId in m then m[userId] else map[])[action := now]]
  }

  /** Recording touches exactly one (user, action) entry. */
  lemma RecordOnlyTouches(m: Cooldowns, userId: int, action: string, now: int, other: int, otherAction: string)
    ensures LastTime(Record(m, userId, action, now), other, otherAction)
      == if other == userId && otherAction == action then now else LastTime(m, other, otherAction)
  {
  }

  /** Once a call is admitted, the same action of the same user is refused
      for the next `seconds` seconds, and admitted again afterwards. */
  lemma CooldownAfterRecord(m: Cooldowns, userId: int, action: string, seconds: int, now: int, later: int)
    requires now <= later
    ensures CooldownWait(LastTime(Record(m, userId, action, now), userId, action), seconds, later) == 0
      <==> later - now >= seconds * 1000
  {
    RecordOnlyTouches(m, userId, action, now, userId, action);
  }

  // ------------------------------------------------------------ the gates

  /** Refusals shared by the check and collect buttons. */
  datatype Gate = NeedLogin | Blocked | TrialOver | Admitted

  /** A non-premium user's trial deadline: `new Date(trial_expires_at)`, where
      a NULL column is `new Date(null)`, the epoch. */
  function TrialEnd(u: User): int
  {
    if u.trialExpiresAt.Some? then u.trialExpiresAt.value else 0
  }

  /** `action_check`'s refusals (src/bot/handlers.js): no user or not ACTIVE,
      then blocked. */
  function CheckGate(users: seq<User>, uid: int): (g: Gate)
    ensures g != TrialOver
    ensures g == NeedLogin <==> FindUser(users, uid).None? || FindUser(users, uid).value.status != Active
    ensures g == Admitted <==>
      FindUser(users, uid).Some? && FindUser(users, uid).value.status == Active && !FindUser(users, uid).value.isBlocked
  {
    match FindUser(users, uid)
    case None => NeedLogin
    case Some(u) => if u.status != Active then NeedLogin else if u.isBlocked then Blocked else Admitted
  }

  /** `action_collect`'s refusals: those of `action_check`, then a
      non-premium user whose trial has ended (strictly before `now`). */
  function CollectGate(users: seq<User>, uid: int, now: int): (g: Gate)
    ensures g == NeedLogin <==> CheckGate(users, uid) == NeedLogin
    ensures g == Admitted <==>
      CheckGate(users, uid) == Admitted
      && (FindUser(users, uid).value.isPremium || now <= TrialEnd(FindUser(users, uid).value))
  {
    var g := CheckGate(users, uid);
    if g != Admitted then g
    else
      var u := FindUser(users, uid).value;
      if !u.isPremium && now > TrialEnd(u) then TrialOver else Admitted
  }

  /** A non-premium user without a trial date is always past the trial. */
  lemma MissingTrialDateRefuses(users: seq<User>, uid: int, now: int)
    requires CheckGate(users, uid) == Admitted && 0 < now
    requires !FindUser(users, uid).value.isPremium && FindUser(users, uid).value.trialExpiresAt.None?
    ensures CollectGate(users, uid, now) == TrialOver
  {
  }

  /** What `action_auth` answers. `AuthCrashed` is the TypeError of reading
      `user.is_premium` when the user has no row. */
  datatype AuthDecision = AuthBlocked | AuthCrashed | TrialOneAccount | PremiumLimit | AuthBusy | EnterLogin

  /** At most this many e-mails for a premium user. */
  const MaxPremiumEmails: int := 3

  function AuthGate(users: seq<User>, emailRows: seq<EmailRow>, active: set<int>, uid: int): (d: AuthDecision)
    ensures d == AuthCrashed <==> FindUser(users, uid).None?
    ensures d == AuthBlocked <==> FindUser(users, uid).Some? && FindUser(users, uid).value.isBlocked
    ensures d == EnterLogin <==>
      FindUser(users, uid).Some?
      && var u := FindUser(users, uid).value;
         !u.isBlocked
         && (u.isPremium || u.status != Active)
         && (!u.isPremium || |EmailsOf(emailRows, uid)| < MaxPremiumEmails)
         && uid !in active
  {
    match FindUser(users, uid)
    case None => AuthCrashed
    case Some(u) =>
      if u.isBlocked then AuthBlocked
      else if !u.isPremium && u.status == Active then TrialOneAccount
      else if u.isPremium && |EmailsOf(emailRows, uid)| >= MaxPremiumEmails then PremiumLimit
      else if uid in active then AuthBusy
      else EnterLogin
  }

  // ------------------------------------------------------ the e-mail list

  function NonEmpty(): string -> bool
  {
    (e: string) => e != ""
  }

  /** The e-mails `runCollectionForUser` visits, in order: none for a
      missing or blocked user; for a premium user the user_emails rows,
      falling back to `users.email`; otherwise `users.email || emailHint`;
      empty entries (NULL) dropped. */
  function EmailsToProcess(users: seq<User>, emailRows: seq<EmailRow>, uid: int, hint: Option<string>): (r: seq<string>)
    ensures forall k :: 0 <= k < |r| ==> r[k] != ""
    ensures FindUser(users, uid).None? || FindUser(users, uid).value.isBlocked ==> r == []
    ensures FindUser(users, uid).Some? && !FindUser(users, uid).value.isBlocked && FindUser(users, uid).value.isPremium ==>
      var u := FindUser(users, uid).value;
      forall e :: e in r <==> e != "" && (EmailRow(uid, e) in emailRows || (EmailsOf(emailRows, uid) == [] && e == u.email))
    ensures FindUser(users, uid).Some? && !FindUser(users, uid).value.isBlocked && !FindUser(users, uid).value.isPremium ==>
      var u := FindUser(users, uid).value;
      var chosen := if u.email != "" then u.email else if hint.Some? then hint.value else "";
      r == if chosen != "" then [chosen] else []
  {
    match FindUser(users, uid)
    case None => []
    case Some(u) =>
      if u.isBlocked then []
      else
        var listed :=
          if u.isPremium then
            var es := EmailsOf(emailRows, uid);
            if |es| == 0 && u.email != "" then [u.email] else es
          else [if u.email != "" then u.email else if hint.Some? then hint.value else ""];
        FilterMembers(listed, NonEmpty());
        assert |listed| == 1 ==> Filter(listed, NonEmpty()) == (if listed[0] != "" then [listed[0]] else []) by {
          if |listed| == 1 { assert listed[1..] == []; }
        }
        Filter(listed, NonEmpty())
  }

  // ----------------------------------------------------------- scheduling

  /** The pause flag stored by the toggle and by PAUSE_SYSTEM. */
  predicate Paused(config: map<string, string>)
  {
    PauseKey in config && config[PauseKey] == "1"
  }

  /** A row counted as a collection by the scheduler. */
  predicate IsSuccessFor(r: LogRow, uid: int)
  {
    r.userId == uid && r.status == SuccessStatus && r.rewards > 0
  }

  /** `ORDER BY timestamp DESC LIMIT 1` over the user's nonzero SUCCESS rows. */
  function LastSuccess(logs: seq<LogRow>, uid: int): (t: Option<int>)
    ensures t.None? <==> forall k :: 0 <= k < |logs| ==> !IsSuccessFor(logs[k], uid)
    ensures t.Some? ==> forall k :: 0 <= k < |logs| && IsSuccessFor(logs[k], uid) ==> logs[k].timestamp <= t.value
    ensures t.Some? ==> exists k :: 0 <= k < |logs| && IsSuccessFor(logs[k], uid) && logs[k].timestamp == t.value
  {
    if |logs| == 0 then None
    else
      var rest := LastSuccess(logs[..|logs| - 1], uid);
      var last := logs[|logs| - 1];
      if !IsSuccessFor(last, uid) then rest
      else if rest.Some? && rest.value >= last.timestamp then rest
      else Some(last.timestamp)
  }

  /** The scheduler's 24-hour rule, with a user never collected from counting
      as last collected at the epoch. */
  predicate Due(logs: seq<LogRow>, uid: int, now: int)
  {
    now - (if LastSuccess(logs, uid).Some? then LastSuccess(logs, uid).value else 0) >= DayMs
  }

  /** A user is due exactly when every nonzero SUCCESS row of theirs is at
      least a day old (and, with none, a day has passed since the epoch). */
  lemma DueIff(logs: seq<LogRow>, uid: int, now: int)
    ensures Due(logs, uid, now) <==>
      (forall k :: 0 <= k < |logs| && IsSuccessFor(logs[k], uid) ==> now - logs[k].timestamp >= DayMs)
      && (LastSuccess(logs, uid).None? ==> now >= DayMs)
  {
    if LastSuccess(logs, uid).Some? {
      var t := LastSuccess(logs, uid).value;
      var k :| 0 <= k < |logs| && IsSuccessFor(logs[k], uid) && logs[k].timestamp == t;
    }
  }

  /** The scheduler's SELECT: ACTIVE, premium and not blocked. */
  predicate Eligible(u: User)
  {
    u.status == Active && u.isPremium && !u.isBlocked
  }

  function EligibleUser(): User -> bool
  {
    (u: User) => Eligible(u)
  }

  /** Of the selected users, those not in `activeTasks` and due. */
  function Idle(active: set<int>, logs: seq<LogRow>, now: int): User -> bool
  {
    (u: User) => u.telegramId !in active && Due(logs, u.telegramId, now)
  }

  /** The ids of `users`, in order. */
  function UserIds(users: seq<User>): (ids: seq<int>)
    ensures |ids| == |users|
    ensures forall k :: 0 <= k < |users| ==> ids[k] == users[k].telegramId
  {
    if |users| == 0 then [] else UserIds(users[..|users| - 1]) + [users[|users| - 1].telegramId]
  }

  /** The users one scheduler tick starts a run for, in table order. */
  function SchedulerPicks(users: seq<User>, active: set<int>, logs: seq<LogRow>,
                          config: map<string, string>, now: int): seq<int>
  {
    if Paused(config) then [] else UserIds(Filter(Filter(users, EligibleUser()), Idle(active, logs, now)))
  }

  /** A tick starts a run for a user exactly when the system is not paused
      and the user is ACTIVE, premium, unblocked, not busy and due. */
  lemma {:induction false} SchedulerPicksExact(users: seq<User>, active: set<int>, logs: seq<LogRow>,
                                               config: map<string, string>, now: int)
    requires UniqueUserIds(users)
    ensures forall k :: 0 <= k < |users| ==>
      (users[k].telegramId in SchedulerPicks(users, active, logs, config, now)
       <==> !Paused(config) && Eligible(users[k]) && users[k].telegramId !in active
            && Due(logs, users[k].telegramId, now))
    ensures forall id :: id in SchedulerPicks(users, active, logs, config, now) ==>
      FindUser(users, id).Some? && Eligible(FindUser(users, id).value) && id !in active && Due(logs, id, now)
  {
    if !Paused(config) {
      var p := And(EligibleUser(), Idle(active, logs, now));
      FilterCompose(users, EligibleUser(), Idle(active, logs, now));
      PickedIff(users, p);
    }
  }

  /** With unique ids, a user's id is among those kept by `p` exactly when
      `p` holds for that user, and every kept id finds a user `p` holds for. */
  lemma PickedIff(users: seq<User>, p: User -> bool)
    requires UniqueUserIds(users)
    ensures forall k :: 0 <= k < |users| ==> (users[k].telegramId in UserIds(Filter(users, p)) <==> p(users[k]))
    ensures forall id :: id in UserIds(Filter(users, p)) ==> FindUser(users, id).Some? && p(FindUser(users, id).value)
  {
    forall k | 0 <= k < |users| ensures users[k].telegramId in UserIds(Filter(users, p)) <==> p(users[k])
    {
      PickedAt(users, p, k);
    }
    forall id | id in UserIds(Filter(users, p)) ensures FindUser(users, id).Some? && p(FindUser(users, id).value)
    {
      PickedFound(users, p, id);
    }
  }

  lemma PickedFound(users: seq<User>, p: User -> bool, id: int)
    requires UniqueUserIds(users) && id in UserIds(Filter(users, p))
    ensures FindUser(users, id).Some? && p(FindUser(users, id).value)
  {
    var kept := Filter(users, p);
    var j :| 0 <= j < |kept| && UserIds(kept)[j] == id;
    FilterMembers(users, p);
    assert kept[j] in users;
    var m :| 0 <= m < |users| && users[m] == kept[j];
    assert FindUser(users, id).Some?;
    var n :| 0 <= n < |users| && users[n] == FindUser(users, id).value;
    assert UserKey(users[n]) == UserKey(users[m]);
    assert n == m;
  }

  lemma PickedAt(users: seq<User>, p: User -> bool, k: int)
    requires UniqueUserIds(users) && 0 <= k < |users|
    ensures users[k].telegramId in UserIds(Filter(users, p)) <==> p(users[k])
  {
    var kept := Filter(users, p);
    var ids := UserIds(kept);
    FilterMembers(users, p);
    if users[k].telegramId in ids {
      var j :| 0 <= j < |kept| && ids[j] == users[k].telegramId;
      assert kept[j] in users;
      var m :| 0 <= m < |users| && users[m] == kept[j];
      assert UserKey(users[m]) == UserKey(users[k]);
      assert m == k;
    }
    if p(users[k]) {
      assert users[k] in kept;
      var j :| 0 <= j < |kept| && kept[j] == users[k];
      assert ids[j] == users[k].telegramId;
    }
  }

  // ------------------------------------------------- global reward images

  /** system_config after `trackGlobalRewardImages(images)`: with two or more
      images, reward_img_1/2 hold the first two; otherwise nothing changes. */
  function WithRewardImages(config: map<string, string>, images: seq<string>): (r: map<string, string>)
    ensures |images| < 2 ==> r == config
    ensures |images| >= 2 ==>
      RewardImage1Key in r && r[RewardImage1Key] == images[0]
      && RewardImage2Key in r && r[RewardImage2Key] == images[1]
      && r.Keys == config.Keys + {RewardImage1Key, RewardImage2Key}
      && forall key :: key in config && key != RewardImage1Key && key != RewardImage2Key ==> r[key] == config[key]
  {
    if |images| < 2 then config
    else if RewardImage1Key in config && config[RewardImage1Key] == images[0]
         && RewardImage2Key in config && config[RewardImage2Key] == images[1] then config
    else config[RewardImage1Key := images[0]][RewardImage2Key := images[1]]
  }

  /** Storing the same images again changes nothing. */
  lemma WithRewardImagesIdempotent(config: map<string, string>, images: seq<string>)
    ensures WithRewardImages(WithRewardImages(config, images), images) == WithRewardImages(config, images)
  {
  }

  // ------------------------------------------------------ the collection run

  /** What the world did during one e-mail's pass of `runCollectionForUser`:
      how launching the browser went, what the store page showed, the message
      id Telegram returned for the result notice (None when the send threw),
      and the ids it returned for the reward photos, in image order. */
  datatype EmailRun = EmailRun(launch: Launch, page: StorePage, notice: Option<int>, photos: seq<Option<int>>)

  /** The tables a collection run writes. */
  datatype Tables = Tables(users: seq<User>, logs: seq<LogRow>, messages: MessageTable, config: map<string, string>)

  function StampCheck(now: int): User -> User
  {
    (u: User) => u.(lastCheckAt := Some(now))
  }

  /** `cleanupReactions(telegram, uid)` on the table. */
  function Reactionless(t: MessageTable, uid: int): MessageTable
  {
    if TruthyInt(uid) then t.(rows := PurgeReactions(t.rows, uid)) else t
  }

  /** Tracking a sent message as REACTION, when the send returned one. */
  function TrackSent(t: MessageTable, uid: int, sent: Option<int>, now: int): MessageTable
  {
    if sent.Some? then Track(t, uid, sent.value, Reaction, None, now) else t
  }

  function PhotoAt(photos: seq<Option<int>>, k: int): Option<int>
  {
    if 0 <= k < |photos| then photos[k] else None
  }

  /** The table after the first `n` reward photos were sent and tracked. */
  function TrackPhotos(t: MessageTable, uid: int, photos: seq<Option<int>>, n: nat, now: int): MessageTable
  {
    if n == 0 then t else TrackSent(TrackPhotos(t, uid, photos, n - 1, now), uid, PhotoAt(photos, n - 1), now)
  }

  /** One e-mail's pass. A failed `init` throws into the catch and changes
      nothing. Otherwise the user's REACTION rows are purged and the result
      of `collectRewards` is recorded. */
  function EmailStep(s: Tables, uid: int, run: EmailRun, now: int): Tables
  {
    if !run.launch.Launched? then s
    else ResultTables(s.(messages := Reactionless(s.messages, uid)), uid, Collect(run.page), run, now)
  }

  /** What a pass records once the store was visited: SESSION_LOST tracks
      the notice (a failed send throws past the tracking); a positive count
      stamps `last_check_at`, appends one SUCCESS row, tracks the notice,
      stores the reward images and tracks each photo sent; a zero count
      tracks the notice only. */
  function ResultTables(s: Tables, uid: int, result: CollectResult, run: EmailRun, now: int): Tables
  {
    match result
    case SessionLost => s.(messages := TrackSent(s.messages, uid, run.notice, now))
    case Rewards(count, images) =>
      if count > 0 then
        Tables(Patch(s.users, uid, StampCheck(now)),
               s.logs + [LogRow(uid, now, SuccessStatus, count)],
               TrackPhotos(TrackSent(s.messages, uid, run.notice, now), uid, run.photos, |images|, now),
               WithRewardImages(s.config, images))
      else s.(messages := TrackSent(s.messages, uid, run.notice, now))
  }

  /** The passes over `emails`, in order. */
  function RunFold(s: Tables, uid: int, emails: seq<string>, run: string -> EmailRun, now: int): Tables
  {
    if |emails| == 0 then s
    else EmailStep(RunFold(s, uid, emails[..|emails| - 1], run, now), uid, run(emails[|emails| - 1]), now)
  }

  /** The collection_logs row one pass appends, if any. */
  function LogOf(uid: int, run: EmailRun, now: int): seq<LogRow>
  {
    if run.launch.Launched? && Collect(run.page).Rewards? && Collect(run.page).count > 0
    then [LogRow(uid, now, SuccessStatus, Collect(run.page).count)]
    else []
  }

  /** The rows a whole run appends, e-mail by e-mail. */
  function LogsFor(uid: int, emails: seq<string>, run: string -> EmailRun, now: int): seq<LogRow>
  {
    if |emails| == 0 then []
    else LogsFor(uid, emails[..|emails| - 1], run, now) + LogOf(uid, run(emails[|emails| - 1]), now)
  }

  /** A run appends exactly `LogsFor` to collection_logs: nothing for a
      SESSION_LOST, a failed launch or an empty store, one row per e-mail
      that collected something. */
  lemma {:induction false} RunAppendsLogs(s: Tables, uid: int, emails: seq<string>, run: string -> EmailRun, now: int)
    ensures RunFold(s, uid, emails, run, now).logs == s.logs + LogsFor(uid, emails, run, now)
  {
    if |emails| > 0 {
      RunAppendsLogs(s, uid, emails[..|emails| - 1], run, now);
    }
  }

  /** Every appended row is the user's SUCCESS row of one or two rewards at
      `now`, and there is at most one per e-mail. */
  lemma {:induction false} LogsForShape(uid: int, emails: seq<string>, run: string -> EmailRun, now: int)
    ensures |LogsFor(uid, emails, run, now)| <= |emails|
    ensures forall k :: 0 <= k < |LogsFor(uid, emails, run, now)| ==>
      var row := LogsFor(uid, emails, run, now)[k];
      row.userId == uid && row.timestamp == now && row.status == SuccessStatus && 1 <= row.rewards <= 2
  {
    if |emails| > 0 {
      LogsForShape(uid, emails[..|emails| - 1], run, now);
      CollectBounds(run(emails[|emails| - 1]).page);
    }
  }

  /** A run keeps the bot_messages keys and its one-row-per-message rule. */
  lemma {:induction false} RunKeepsMessageKeys(s: Tables, uid: int, emails: seq<string>, run: string -> EmailRun, now: int)
    requires MessageKeys(s.messages) && OneRowPerMessage(s.messages.rows)
    ensures MessageKeys(RunFold(s, uid, emails, run, now).messages)
    ensures OneRowPerMessage(RunFold(s, uid, emails, run, now).messages.rows)
  {
    if |emails| > 0 {
      var before := RunFold(s, uid, emails[..|emails| - 1], run, now);
      RunKeepsMessageKeys(s, uid, emails[..|emails| - 1], run, now);
      var r := run(emails[|emails| - 1]);
      if r.launch.Launched? {
        var m := Reactionless(before.messages, uid);
        if TruthyInt(uid) {
          FilterMembers(before.messages.rows, NotReactionOf(uid));
          FilterDistinct(before.messages.rows, NotReactionOf(uid), RowId);
          FilterDistinct(before.messages.rows, NotReactionOf(uid), ChatMessage);
        }
        TrackSentKeeps(m, uid, r.notice, now);
        if Collect(r.page).Rewards? {
          TrackPhotosKeeps(TrackSent(m, uid, r.notice, now), uid, r.photos, |Collect(r.page).images|, now);
        }
      }
    }
  }

  lemma TrackSentKeeps(t: MessageTable, uid: int, sent: Option<int>, now: int)
    requires MessageKeys(t) && OneRowPerMessage(t.rows)
    ensures MessageKeys(TrackSent(t, uid, sent, now)) && OneRowPerMessage(TrackSent(t, uid, sent, now).rows)
  {
    if sent.Some? {
      TrackKeepsKeys(t, uid, sent.value, Reaction, None, now);
    }
  }

  lemma {:induction false} TrackPhotosKeeps(t: MessageTable, uid: int, photos: seq<Option<int>>, n: nat, now: int)
    requires MessageKeys(t) && OneRowPerMessage(t.rows)
    ensures MessageKeys(TrackPhotos(t, uid, photos, n, now)) && OneRowPerMessage(TrackPhotos(t, uid, photos, n, now).rows)
  {
    if n > 0 {
      TrackPhotosKeeps(t, uid, photos, n - 1, now);
      TrackSentKeeps(TrackPhotos(t, uid, photos, n - 1, now), uid, PhotoAt(photos, n - 1), now);
    }
  }

  /** Sending the reward photos and tracking each one Telegram accepted. */
  method SendPhotos(db: Db, uid: int, photos: seq<Option<int>>, n: nat, now: int)
    modifies db`messages
    ensures db.messages == TrackPhotos(old(db.messages), uid, photos, n, now)
  {
    ghost var before := db.messages;
    var k := 0;
    while k < n
      invariant 0 <= k <= n
      invariant db.messages == TrackPhotos(before, uid, photos, k, now)
    {
      var photo := PhotoAt(photos, k);
      if photo.Some? {
        TrackMsg(db, uid, photo.value, Reaction, None, now);
      }
      k := k + 1;
    }
  }

  /** The body of the per-e-mail loop, inside its try/catch. */
  method CollectOneEmail(db: Db, uid: int, email: string, r: EmailRun, now: int)
    modifies db`users, db`logs, db`messages, db`config
    ensures Tables(db.users, db.logs, db.messages, db.config)
      == EmailStep(Tables(old(db.users), old(db.logs), old(db.messages), old(db.config)), uid, r, now)
  {
    var automation := new Browser(email, uid);
    var threw := automation.Init(r.launch);
    if threw {
      return;
    }
    var result := automation.CollectRewards(r.page);
    var requested := CleanupReactions(db, uid);
    if result.SessionLost? {
      RecordResult(db, uid, result, r, now);
      if r.notice.Some? {
        var closed := automation.Close();
      }
      return;
    }
    var closed := automation.Close();
    RecordResult(db, uid, result, r, now);
  }

  /** The writes that follow `collectRewards` in one pass. */
  method RecordResult(db: Db, uid: int, result: CollectResult, r: EmailRun, now: int)
    modifies db`users, db`logs, db`messages, db`config
    ensures Tables(db.users, db.logs, db.messages, db.config)
      == ResultTables(Tables(old(db.users), old(db.logs), old(db.messages), old(db.config)), uid, result, r, now)
  {
    if result.Rewards? && result.count > 0 {
      db.users := Patch(db.users, uid, StampCheck(now));
      db.logs := db.logs + [LogRow(uid, now, SuccessStatus, result.count)];
      if r.notice.Some? {
        TrackMsg(db, uid, r.notice.value, Reaction, None, now);
      }
      if |result.images| > 0 {
        db.config := WithRewardImages(db.config, result.images);
        SendPhotos(db, uid, r.photos, |result.images|, now);
      }
    } else if r.notice.Some? {
      TrackMsg(db, uid, r.notice.value, Reaction, None, now);
    }
  }

  /** `runCollectionForUser(bot, uid, emailHint)`, awaited to the end. */
  method RunCollectionForUser(db: Db, uid: int, emailHint: Option<string>, run: string -> EmailRun, now: int)
    modifies db`users, db`logs, db`messages, db`config
    ensures Tables(db.users, db.logs, db.messages, db.config)
      == RunFold(Tables(old(db.users), old(db.logs), old(db.messages), old(db.config)), uid,
                 EmailsToProcess(old(db.users), db.userEmails, uid, emailHint), run, now)
  {
    ghost var start := Tables(db.users, db.logs, db.messages, db.config);
    var emails := EmailsToProcess(db.users, db.userEmails, uid, emailHint);
    var i := 0;
    while i < |emails|
      invariant 0 <= i <= |emails|
      invariant Tables(db.users, db.logs, db.messages, db.config) == RunFold(start, uid, emails[..i], run, now)
    {
      assert emails[..i + 1][..i] == emails[..i];
      CollectOneEmail(db, uid, emails[i], run(emails[i]), now);
      i := i + 1;
    }
    assert emails[..|emails|] == emails;
  }

  // ------------------------------------------------------- the coordinator

  /** Whether the session survived: `init`, the store `goto` and the wait
      may throw; `loginHidden` is `isHidden()` of the login button. */
  datatype SessionPeek = SessionPeek(launch: Launch, navigationOk: bool, loginHidden: bool)

  /** Some(logged in) when the peek got that far, None when it threw. */
  function PeekResult(peek: SessionPeek): Option<bool>
  {
    if peek.launch.Launched? && peek.navigationOk then Some(peek.loginHidden) else None
  }

  function Demote(): User -> User
  {
    (u: User) => u.(status := NeedAuth)
  }

  /** `DELETE FROM user_emails WHERE user_id = uid` keeps these rows. */
  function NotOwnedBy(uid: int): EmailRow -> bool
  {
    (e: EmailRow) => e.userId != uid
  }

  /** After a logout an unblocked user may start the login wizard again:
      the status is no longer ACTIVE, no saved email is left to count
      against the premium limit, and the user is no longer busy. */
  lemma LogoutReopensAuth(users: seq<User>, rows: seq<EmailRow>, active: set<int>, uid: int)
    requires UniqueUserIds(users) && FindUser(users, uid).Some? && !FindUser(users, uid).value.isBlocked
    ensures AuthGate(Patch(users, uid, Demote()), Filter(rows, NotOwnedBy(uid)), active - {uid}, uid) == EnterLogin
  {
    FindAfterPatch(users, uid, uid, Demote());
    EmailsOfAbsent(Filter(rows, NotOwnedBy(uid)), uid);
  }

  /** The `try` of `action_check`: a browser for the user's address, the
      store page, the login button, `close`, then the reactions purged and a
      logged-out user demoted. A step that throws skips the writes. */
  method RunSessionPeek(db: Db, email: string, uid: int, peek: SessionPeek) returns (result: Option<bool>)
    modifies db`users, db`messages
    ensures result == PeekResult(peek)
    ensures db.users == (if result == Some(false) then Patch(old(db.users), uid, Demote()) else old(db.users))
    ensures db.messages == (if result.Some? then Reactionless(old(db.messages), uid) else old(db.messages))
  {
    var automation := new Browser(email, uid);
    var threw := automation.Init(peek.launch);
    if threw || !peek.navigationOk {
      return None;
    }
    var isLogged := peek.loginHidden;
    var closed := automation.Close();
    var requested := CleanupReactions(db, uid);
    if !isLogged {
      db.users := Patch(db.users, uid, Demote());
    }
    return Some(isLogged);
  }

  /** What `action_check` and `action_collect` answer. */
  datatype ActionOutcome = Refused(gate: Gate) | Wait(seconds: int) | Checked(loggedIn: Option<bool>) | Started

  /** The module-level state of src/bot/handlers.js, shared with the admin
      poller. */
  class Coordinator {
    var activeTasks: set<int>
    var lastActions: Cooldowns

    constructor ()
      ensures activeTasks == {} && lastActions == map[]
    {
      activeTasks := {};
      lastActions := map[];
    }

    /** `checkCooldown(userId, action, seconds)` at time `now`. */
    method CheckCooldown(userId: int, action: string, seconds: int, now: int) returns (wait: int)
      modifies this`lastActions
      ensures wait == CooldownWait(LastTime(old(lastActions), userId, action), seconds, now)
      ensures lastActions == if wait == 0 then Record(old(lastActions), userId, action, now) else old(lastActions)
    {
      var userCooldowns := if userId in lastActions then lastActions[userId] else map[];
      var lastTime := if action in userCooldowns then userCooldowns[action] else 0;
      if now - lastTime < seconds * 1000 {
        return (seconds * 1000 - (now - lastTime) + 999) / 1000;
      }
      userCooldowns := userCooldowns[action := now];
      lastActions := lastActions[userId := userCooldowns];
      return 0;
    }

    /** `action_logout`: refused unless the user is ACTIVE; otherwise the
        user goes back to NEED_AUTH and loses every saved email, with `uid`
        in `activeTasks` while the rows are written. */
    method ActionLogout(db: Db, uid: int) returns (done: bool)
      modifies this`activeTasks, db`users, db`userEmails
      ensures done <==> CheckGate(old(db.users), uid) != NeedLogin
      ensures done ==>
        db.users == Patch(old(db.users), uid, Demote())
        && db.userEmails == Filter(old(db.userEmails), NotOwnedBy(uid))
        && activeTasks == old(activeTasks) - {uid}
      ensures !done ==>
        db.users == old(db.users) && db.userEmails == old(db.userEmails) && activeTasks == old(activeTasks)
    {
      var user := FindUser(db.users, uid);
      if user.None? || user.value.status != Active {
        return false;
      }
      activeTasks := activeTasks + {uid};
      db.users := Patch(db.users, uid, Demote());
      db.userEmails := Filter(db.userEmails, NotOwnedBy(uid));
      activeTasks := activeTasks - {uid};
      return true;
    }

    /** `action_check`: the gate, a 60-second cooldown, then a session peek
        with `uid` in `activeTasks`; a lost session demotes the user to
        NEED_AUTH. The `finally` removes `uid` even when another task had
        put it there. */
    method ActionCheck(db: Db, uid: int, peek: SessionPeek, now: int) returns (outcome: ActionOutcome)
      modifies this, db`users, db`messages
      ensures CheckGate(old(db.users), uid) != Admitted ==>
        outcome == Refused(CheckGate(old(db.users), uid))
        && unchanged(this) && db.users == old(db.users) && db.messages == old(db.messages)
      ensures CheckGate(old(db.users), uid) == Admitted ==>
        var wait := CooldownWait(LastTime(old(lastActions), uid, "check"), 60, now);
        if wait > 0 then
          outcome == Wait(wait) && unchanged(this) && db.users == old(db.users) && db.messages == old(db.messages)
        else
          outcome == Checked(PeekResult(peek))
          && lastActions == Record(old(lastActions), uid, "check", now)
          && activeTasks == old(activeTasks) - {uid}
          && db.users == (if PeekResult(peek) == Some(false) then Patch(old(db.users), uid, Demote()) else old(db.users))
          && db.messages == (if PeekResult(peek).Some? then Reactionless(old(db.messages), uid) else old(db.messages))
    {
      var gate := CheckGate(db.users, uid);
      if gate != Admitted {
        return Refused(gate);
      }
      var cd := CheckCooldown(uid, "check", 60, now);
      if cd > 0 {
        return Wait(cd);
      }
      activeTasks := activeTasks + {uid};
      var user := FindUser(db.users, uid).value;
      var result := RunSessionPeek(db, user.email, uid, peek);
      outcome := Checked(result);
      activeTasks := activeTasks - {uid};
    }

    /** `action_collect` up to the moment the run is started: the gate, a
        300-second cooldown, then `uid` is added to `activeTasks` without
        testing whether it is already there. */
    method ActionCollect(db: Db, uid: int, now: int) returns (outcome: ActionOutcome)
      modifies this
      ensures CollectGate(db.users, uid, now) != Admitted ==>
        outcome == Refused(CollectGate(db.users, uid, now)) && unchanged(this)
      ensures CollectGate(db.users, uid, now) == Admitted ==>
        var wait := CooldownWait(LastTime(old(lastActions), uid, "collect"), 300, now);
        if wait > 0 then outcome == Wait(wait) && unchanged(this)
        else outcome == Started && lastActions == Record(old(lastActions), uid, "collect", now)
             && activeTasks == old(activeTasks) + {uid}
    {
      var gate := CollectGate(db.users, uid, now);
      if gate != Admitted {
        return Refused(gate);
      }
      var cd := CheckCooldown(uid, "collect", 300, now);
      if cd > 0 {
        return Wait(cd);
      }
      activeTasks := activeTasks + {uid};
      return Started;
    }

    /** The `finally` of a started run: `activeTasks.delete(uid)`. */
    method Release(uid: int)
      modifies this`activeTasks
      ensures activeTasks == old(activeTasks) - {uid}
    {
      activeTasks := activeTasks - {uid};
    }

    /** One scheduler tick: the users a run is started for, each added to
        `activeTasks` first. */
    method SchedulerTick(db: Db, now: int) returns (started: seq<int>)
      requires UniqueUserIds(db.users)
      modifies this`activeTasks
      ensures started == SchedulerPicks(db.users, old(activeTasks), db.logs, db.config, now)
      ensures activeTasks == old(activeTasks) + AsSet(started)
    {
      started := [];
      if Paused(db.config) {
        assert AsSet(started) == {};
        return;
      }
      var users := Filter(db.users, EligibleUser());
      FilterDistinct(db.users, EligibleUser(), UserKey);
      var active;
      started, active := PickIdle(users, activeTasks, db.logs, now);
      activeTasks := active;
    }
  }

  /** The tick's loop over the eligible users: each idle one (not in
      `active`, last success at least a day ago) is picked and added to the
      active set at once. */
  method PickIdle(users: seq<User>, active0: set<int>, logs: seq<LogRow>, now: int)
    returns (started: seq<int>, active: set<int>)
    requires Distinct(users, UserKey)
    ensures started == UserIds(Filter(users, Idle(active0, logs, now)))
    ensures active == active0 + AsSet(started)
  {
    started := [];
    active := active0;
    ghost var idle := Idle(active0, logs, now);
    var i := 0;
    while i < |users|
      invariant 0 <= i <= |users|
      invariant started == PicksUpTo(users, idle, i)
      invariant active == active0 + AsSet(started)
      invariant forall j :: i <= j < |users| ==> users[j].telegramId !in started
    {
      var user := users[i];
      ghost var before := started;
      AsSetHas(started, user.telegramId);
      assert (user.telegramId in active) == (user.telegramId in active0);
      var due := false;
      if user.telegramId !in active {
        var lastTime := if LastSuccess(logs, user.telegramId).Some? then LastSuccess(logs, user.telegramId).value else 0;
        due := now - lastTime >= DayMs;
      }
      if due {
        active := active + {user.telegramId};
        started := started + [user.telegramId];
        assert started[..|started| - 1] == before;
        assert AsSet(started) == AsSet(before) + {user.telegramId};
      }
      assert due == idle(user);
      assert PicksUpTo(users, idle, i + 1) == before + (if idle(users[i]) then [users[i].telegramId] else []);
      LaterIdsDiffer(users, i);
      i := i + 1;
    }
    PicksUpToFilter(users, idle, |users|);
    assert users[..|users|] == users;
  }

  lemma LaterIdsDiffer(users: seq<User>, i: int)
    requires Distinct(users, UserKey) && 0 <= i < |users|
    ensures forall j :: i < j < |users| ==> users[j].telegramId != users[i].telegramId
  {
    forall j | i < j < |users| ensures users[j].telegramId != users[i].telegramId {
      assert UserKey(users[i]) != UserKey(users[j]);
    }
  }

  /** The elements of `s`, as a set. */
  function AsSet(s: seq<int>): set<int>
  {
    if |s| == 0 then {} else AsSet(s[..|s| - 1]) + {s[|s| - 1]}
  }

  lemma {:induction false} AsSetHas(s: seq<int>, x: int)
    ensures x in AsSet(s) <==> x in s
  {
    if |s| > 0 {
      AsSetHas(s[..|s| - 1], x);
      assert s == s[..|s| - 1] + [s[|s| - 1]];
    }
  }

  /** The ids the tick's loop has picked from the first `n` users. */
  function PicksUpTo(users: seq<User>, p: User -> bool, n: nat): seq<int>
    requires n <= |users|
  {
    if n == 0 then [] else PicksUpTo(users, p, n - 1) + (if p(users[n - 1]) then [users[n - 1].telegramId] else [])
  }

  lemma {:induction false} PicksUpToFilter(users: seq<User>, p: User -> bool, n: nat)
    requires n <= |users|
    ensures PicksUpTo(users, p, n) == UserIds(Filter(users[..n], p))
  {
    if n > 0 {
      var m := n - 1;
      var tail := if p(users[m]) then [users[m].telegramId] else [];
      PicksUpToFilter(users, p, m);
      PickStep(users, m, p);
      assert PicksUpTo(users, p, n) == PicksUpTo(users, p, m) + tail;
      assert UserIds(Filter(users[..n], p)) == UserIds(Filter(users[..m], p)) + tail;
    }
  }

  /** One more user through the tick's loop. */
  lemma PickStep(users: seq<User>, i: int, p: User -> bool)
    requires 0 <= i < |users|
    ensures UserIds(Filter(users[..i + 1], p))
      == UserIds(Filter(users[..i], p)) + (if p(users[i]) then [users[i].telegramId] else [])
  {
    FilterAppend(users[..i], [users[i]], p);
    assert users[..i + 1] == users[..i] + [users[i]];
    assert [users[i]][1..] == [];
    var before := Filter(users[..i], p);
    if p(users[i]) {
      assert (before + [users[i]])[..|before|] == before;
    } else {
      assert before + [] == before;
    }
  }
}
