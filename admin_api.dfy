// The producer side of the admin queue (src/api/index.js): the dashboard
// routes that change a user's flags, the pause flag in system_config, or
// append rows to admin_commands for the bot's poller to consume.
//
// The route parameter `:id` is taken as the user id it spells. A body field
// is `None` when it is absent (`undefined`) and `Some(b)` otherwise, `b`
// being its JavaScript truthiness. Every route's `catch` only turns a
// database failure into a 500 answer; database failures are not modelled.
module AdminApi {
  import opened Common
  import opened Store
  import opened AdminPoller
  import Handlers
  import MessageBook

  const BlockedNotice: string := "🚫 Ваш аккаунт заблоковано адміністратором."
  const UnblockedNotice: string := "✅ Ваш аккаунт розблоковано!"
  const PremiumNotice: string :=
    "🌟 **Вітаємо!** Вам активовано **Premium** статус!\n\nТепер доступний авто-збір кожні 24г та підтримка до 3-х аккаунтів."

  // ------------------------------------------------ POST /api/users/:id/status

  /** A user's flags once the status route has run: granting premium
      unblocks, blocking drops premium, and when both fields are sent the
      block is applied first. */
  function StatusFlags(u: User, blocked: Option<bool>, premium: Option<bool>): User
  {
    u.(isBlocked := if premium == Some(true) then false else if blocked.Some? then blocked.value else u.isBlocked,
       isPremium := if premium.Some? then premium.value else if blocked == Some(true) then false else u.isPremium)
  }

  function StatusUpdate(blocked: Option<bool>, premium: Option<bool>): User -> User
  {
    (u: User) => StatusFlags(u, blocked, premium)
  }

  /** The texts of the NOTIFY rows the route appends, in order: one for a
      block or an unblock, one for a premium grant, none for a revoke. */
  function Notices(blocked: Option<bool>, premium: Option<bool>): seq<string>
  {
    (if blocked.Some? then [if blocked.value then BlockedNotice else UnblockedNotice] else [])
    + (if premium == Some(true) then [PremiumNotice] else [])
  }

  /** A NOTIFY row as the route inserts it: the `{telegramId, text}` object,
      no target, no TTL, PENDING. */
  function NotifyRow(rowId: int, id: int, text: string, now: int): Command
  {
    Command(rowId, NotifyKind, NotifyBody(id, text), None, None, None, Pending, now)
  }

  function SetBlocked(b: bool): User -> User
  {
    (u: User) => u.(isBlocked := b)
  }

  function SetPremium(b: bool): User -> User
  {
    (u: User) => u.(isPremium := b)
  }

  /** `q'` is `q` with one PENDING NOTIFY row per text of `n` appended to
      user `id`, in order, under consecutive ids. */
  predicate NoticesAppended(q: CommandQueue, q': CommandQueue, id: int, n: seq<string>, now: int)
  {
    q'.nextId == q.nextId + |n| && |q'.rows| == |q.rows| + |n|
    && q'.rows[..|q.rows|] == q.rows
    && forall k :: 0 <= k < |n| ==> q'.rows[|q.rows| + k] == NotifyRow(q.nextId + k, id, n[k], now)
  }

  /** `POST /api/users/:id/status`: the `is_blocked` part, then the
      `is_premium` part. */
  method SetUserStatus(db: Db, id: int, blocked: Option<bool>, premium: Option<bool>, now: int)
    modifies db`users, db`commands
    ensures db.users == Patch(old(db.users), id, StatusUpdate(blocked, premium))
    ensures NoticesAppended(old(db.commands), db.commands, id, Notices(blocked, premium), now)
  {
    ghost var users0 := db.users;
    ghost var q0 := db.commands;
    if blocked.Some? {
      ApplyBlocked(db, id, blocked.value, now);
    } else {
      NoFieldNoChange(db.users, id);
    }
    ghost var q1 := db.commands;
    if premium.Some? {
      ApplyPremium(db, id, premium.value, now);
    } else {
      NoFieldNoChange(db.users, id);
    }
    StatusInTwoSteps(users0, id, blocked, premium);
    NoticeRows(q0, q1, db.commands, id, blocked, premium, now);
  }

  /** A request without either field leaves the users table as it is. */
  lemma NoFieldNoChange(users: seq<User>, id: int)
    ensures Patch(users, id, StatusUpdate(None, None)) == users
  {
    var r := Patch(users, id, StatusUpdate(None, None));
    assert forall k :: 0 <= k < |r| ==> r[k] == users[k];
  }

  /** The `is_blocked` branch followed by the `is_premium` branch makes the
      whole update. */
  lemma StatusInTwoSteps(users: seq<User>, id: int, blocked: Option<bool>, premium: Option<bool>)
    ensures Patch(Patch(users, id, StatusUpdate(blocked, None)), id, StatusUpdate(None, premium))
         == Patch(users, id, StatusUpdate(blocked, premium))
  {
    PatchThen(users, id, StatusUpdate(blocked, None), StatusUpdate(None, premium), StatusUpdate(blocked, premium));
  }

  /** The NOTIFY rows of the two branches, one after the other. */
  lemma NoticeRows(q0: CommandQueue, q1: CommandQueue, q2: CommandQueue, id: int,
                   blocked: Option<bool>, premium: Option<bool>, now: int)
    requires q1 == if blocked.Some? then Append(q0, NotifyKind, NotifyBody(id, if blocked.value then BlockedNotice else UnblockedNotice),
                                                None, None, None, now)
                   else q0
    requires q2 == if premium == Some(true) then Append(q1, NotifyKind, NotifyBody(id, PremiumNotice), None, None, None, now) else q1
    ensures NoticesAppended(q0, q2, id, Notices(blocked, premium), now)
  {
  }

  /** The `is_blocked` branch: a block first drops premium; the flag is
      written and the user notified. */
  method ApplyBlocked(db: Db, id: int, blocked: bool, now: int)
    modifies db`users, db`commands
    ensures db.users == Patch(old(db.users), id, StatusUpdate(Some(blocked), None))
    ensures db.commands == Append(old(db.commands), NotifyKind,
                                  NotifyBody(id, if blocked then BlockedNotice else UnblockedNotice), None, None, None, now)
  {
    ghost var users0 := db.users;
    if blocked {
      db.users := Patch(db.users, id, SetPremium(false));
    }
    db.users := Patch(db.users, id, SetBlocked(blocked));
    if blocked {
      PatchThen(users0, id, SetPremium(false), SetBlocked(true), StatusUpdate(Some(true), None));
    } else {
      PatchCongruent(users0, id, SetBlocked(false), StatusUpdate(Some(false), None));
    }
    var text := if blocked then BlockedNotice else UnblockedNotice;
    db.commands := Append(db.commands, NotifyKind, NotifyBody(id, text), None, None, None, now);
  }

  /** The `is_premium` branch: a grant first unblocks; the flag is written,
      and only a grant notifies the user. */
  method ApplyPremium(db: Db, id: int, premium: bool, now: int)
    modifies db`users, db`commands
    ensures db.users == Patch(old(db.users), id, StatusUpdate(None, Some(premium)))
    ensures db.commands == if premium then Append(old(db.commands), NotifyKind, NotifyBody(id, PremiumNotice), None, None, None, now)
                           else old(db.commands)
  {
    ghost var users0 := db.users;
    if premium {
      db.users := Patch(db.users, id, SetBlocked(false));
    }
    db.users := Patch(db.users, id, SetPremium(premium));
    if premium {
      PatchThen(users0, id, SetBlocked(false), SetPremium(true), StatusUpdate(None, Some(true)));
      db.commands := Append(db.commands, NotifyKind, NotifyBody(id, PremiumNotice), None, None, None, now);
    } else {
      PatchCongruent(users0, id, SetPremium(false), StatusUpdate(None, Some(false)));
    }
  }

  /** The status route touches only the flags of user `id`: once any field
      is sent the user is never both blocked and premium, a grant leaves the
      user unblocked even when a block came with it, and a block without a
      grant drops premium. No other user changes. */
  lemma StatusEffect(users: seq<User>, id: int, blocked: Option<bool>, premium: Option<bool>, other: int)
    requires UniqueUserIds(users) && FindUser(users, id).Some?
    ensures var r := FindUser(Patch(users, id, StatusUpdate(blocked, premium)), id);
      var before := FindUser(users, id).value;
      r.Some?
      && r.value.(isBlocked := before.isBlocked, isPremium := before.isPremium) == before
      && (blocked.Some? || premium.Some? ==> !(r.value.isBlocked && r.value.isPremium))
      && (premium == Some(true) ==> r.value.isPremium && !r.value.isBlocked)
      && (blocked == Some(true) && premium != Some(true) ==> r.value.isBlocked && !r.value.isPremium)
      && (blocked.None? && premium.None? ==> r.value == before)
    ensures other != id ==> FindUser(Patch(users, id, StatusUpdate(blocked, premium)), other) == FindUser(users, other)
  {
    FindAfterPatch(users, id, id, StatusUpdate(blocked, premium));
    FindAfterPatch(users, id, other, StatusUpdate(blocked, premium));
  }

  /** Each block or unblock appends one NOTIFY, a grant one more, a revoke
      none; the grant's text comes last. */
  lemma NoticesCount(blocked: Option<bool>, premium: Option<bool>)
    ensures var n := Notices(blocked, premium);
      |n| == (if blocked.Some? then 1 else 0) + (if premium == Some(true) then 1 else 0)
      && (premium == Some(true) ==> n[|n| - 1] == PremiumNotice)
      && (blocked == Some(true) ==> n[0] == BlockedNotice)
      && (blocked == Some(false) ==> n[0] == UnblockedNotice)
  {
  }

  /** A NOTIFY row from the status route has the shape the poller
      destructures: it succeeds exactly when Telegram accepts the message,
      which is then tracked as a REACTION of that user. */
  lemma NotifyRowDelivered(s: PollState, rowId: int, id: int, text: string, o: Outside, now: int)
    ensures Throws(NotifyRow(rowId, id, text, now), o) <==> o.sent.None?
    ensures o.sent.Some? ==>
      Dispatch(s, NotifyRow(rowId, id, text, now), o, now).messages == MessageBook.Track(s.messages, id, o.sent.value, Reaction, None, now)
    ensures Triggered(s.users, NotifyRow(rowId, id, text, now)) == []
  {
  }

  // --------------------------------------------------- POST /api/broadcast

  /** `value || null` for a numeric field. */
  function NullIfFalsy(n: Option<int>): (r: Option<int>)
    ensures r.Some? ==> TruthyInt(r.value) && r == n
    ensures TruthyOptInt(n) ==> r == n
  {
    if TruthyOptInt(n) then n else None
  }

  /** `target_group || 'all'`. */
  function GroupOrAll(g: Option<string>): (r: string)
    ensures r != ""
    ensures TruthyOptString(g) ==> r == g.value
  {
    if TruthyOptString(g) then g.value else "all"
  }

  method EnqueueBroadcast(db: Db, message: string, targetId: Option<int>, targetGroup: Option<string>,
                          ttl: Option<int>, now: int)
    modifies db`commands
    ensures db.commands == Append(old(db.commands), BroadcastKind, Text(message), NullIfFalsy(targetId),
                                  Some(GroupOrAll(targetGroup)), NullIfFalsy(ttl), now)
  {
    var target := if TruthyOptInt(targetId) then targetId else None;
    var group := if TruthyOptString(targetGroup) then targetGroup.value else "all";
    var ttlSeconds := if TruthyOptInt(ttl) then ttl else None;
    db.commands := Append(db.commands, BroadcastKind, Text(message), target, Some(group), ttlSeconds, now);
  }

  /** The row the broadcast route appends reaches, in the poller, exactly
      the target when one was given, and otherwise every user of the group;
      with no group given that is every user. */
  lemma BroadcastAudience(q: CommandQueue, users: seq<User>, message: string, targetId: Option<int>,
                          targetGroup: Option<string>, ttl: Option<int>, now: int)
    ensures var r := Append(q, BroadcastKind, Text(message), NullIfFalsy(targetId),
                            Some(GroupOrAll(targetGroup)), NullIfFalsy(ttl), now).rows;
      var c := r[|r| - 1];
      c.kind == BroadcastKind && c.status == Pending
      && (TruthyOptInt(targetId) ==> Audience(users, c) == [targetId.value])
      && (!TruthyOptInt(targetId) && !TruthyOptString(targetGroup) ==> Audience(users, c) == Handlers.UserIds(users))
      && (c.ttl.Some? ==> TruthyInt(c.ttl.value))
  {
    var r := Append(q, BroadcastKind, Text(message), NullIfFalsy(targetId),
                    Some(GroupOrAll(targetGroup)), NullIfFalsy(ttl), now).rows;
    var c := r[|r| - 1];
    if !TruthyOptInt(targetId) && !TruthyOptString(targetGroup) {
      FilterKeepsAll(users, InGroup(c.targetGroup));
    }
  }

  // ----------------------------------------------- POST /api/system/toggle

  /** system_config after the toggle: '1' for PAUSE_SYSTEM, '0' for any
      other command. */
  function Toggled(config: map<string, string>, command: string): map<string, string>
  {
    config[PauseKey := if command == PauseKind then "1" else "0"]
  }

  method Toggle(db: Db, command: string)
    modifies db`config
    ensures db.config == Toggled(old(db.config), command)
  {
    if command == PauseKind {
      db.config := db.config[PauseKey := "1"];
    } else {
      db.config := db.config[PauseKey := "0"];
    }
  }

  /** The scheduler sees the system paused after a toggle exactly when the
      command was PAUSE_SYSTEM, and the toggle stores the same flag the
      poller's PAUSE_SYSTEM and RESUME_SYSTEM handlers store. No other key
      changes. */
  lemma ToggleEffect(config: map<string, string>, command: string, s: PollState, c: Command, o: Outside, now: int)
    ensures Handlers.Paused(Toggled(config, command)) <==> command == PauseKind
    ensures forall key :: key in config && key != PauseKey ==> key in Toggled(config, command) && Toggled(config, command)[key] == config[key]
    ensures c.kind == PauseKind ==> Dispatch(s, c, o, now).config == Toggled(s.config, PauseKind)
    ensures c.kind == ResumeKind ==> Dispatch(s, c, o, now).config == Toggled(s.config, ResumeKind)
  {
  }

  // ------------------- POST /api/users/:id/check-session and /clear-history

  method RequestCheckSession(db: Db, id: int, now: int)
    modifies db`commands
    ensures db.commands == Append(old(db.commands), CheckSessionKind, UserRef(id), None, None, None, now)
  {
    db.commands := Append(db.commands, CheckSessionKind, UserRef(id), None, None, None, now);
  }

  method RequestClearHistory(db: Db, id: int, now: int)
    modifies db`commands
    ensures db.commands == Append(old(db.commands), ClearHistoryKind, UserRef(id), None, None, None, now)
  {
    db.commands := Append(db.commands, ClearHistoryKind, UserRef(id), None, None, None, now);
  }

  /** Each of the two routes appends exactly one PENDING row with a fresh
      id, whose payload the poller parses back to the user id; the table
      keys are kept when the clock has not gone backwards. */
  lemma UserCommandRoundTrip(q: CommandQueue, kind: string, id: int, now: int)
    requires CommandKeys(q) && LatestCreated(q.rows) <= now
    ensures var r := Append(q, kind, UserRef(id), None, None, None, now);
      |r.rows| == |q.rows| + 1 && r.rows[..|q.rows|] == q.rows
      && ParsedId(r.rows[|q.rows|].payload) == Some(id) && r.rows[|q.rows|].status == Pending
      && (forall k :: 0 <= k < |q.rows| ==> q.rows[k].id != r.rows[|q.rows|].id)
      && CommandKeys(r)
  {
    AppendKeepsKeys(q, kind, UserRef(id), None, None, None, now);
  }

  /** A CLEAR_HISTORY row from the API clears that user's history in the
      poller, and a CHECK_SESSION row checks that user. */
  lemma UserCommandHandled(s: PollState, rowId: int, id: int, o: Outside, now: int)
    ensures Dispatch(s, Command(rowId, ClearHistoryKind, UserRef(id), None, None, None, Pending, now), o, now).messages
      == ClearedFor(s.messages, id, o.dashboard, now)
    ensures Dispatch(s, Command(rowId, CheckSessionKind, UserRef(id), None, None, None, Pending, now), o, now)
      == CheckSession(s, Some(id), o.peek, now)
  {
  }
}
