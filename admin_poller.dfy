// The admin command consumer of src/api/admin_poller.js: every tick reads
// the PENDING rows of admin_commands in `created_at` order and, one row at a
// time, marks it PROCESSING, dispatches on its kind, and marks it COMPLETED
// when the handler returns or FAILED when it throws.
//
// Telegram and the browser are oracles: for each command the tick is given
// an `Outside` value saying what they answered. The file `logger` is never
// imported here, so every statement that uses it throws a ReferenceError;
// the dispatch below reproduces that, and the intended behaviour is given
// beside it (`DispatchIntended`).
module AdminPoller {
  import opened Common
  import opened Store
  import opened MessageBook
  import opened Automation
  import opened Handlers

  const BroadcastKind: string := "BROADCAST"
  const NotifyKind: string := "NOTIFY"
  const CheckSessionKind: string := "CHECK_SESSION"
  const ClearHistoryKind: string := "CLEAR_HISTORY"
  const TriggerCollectKind: string := "TRIGGER_COLLECT"
  const PauseKind: string := "PAUSE_SYSTEM"
  const ResumeKind: string := "RESUME_SYSTEM"

  /** What Telegram and the browser answered while one command was handled:
      the id of the NOTIFY message (None when `sendMessage` threw), the
      session peek of CHECK_SESSION, the id of the dashboard CLEAR_HISTORY
      sends afterwards (None when both the photo and the text send threw),
      and, for a broadcast that gets past its first line, the id returned
      for each recipient in audience order. */
  datatype Outside = Outside(sent: Option<int>, peek: SessionPeek, dashboard: Option<int>, replies: seq<Option<int>>)

  /** `parseInt(cmd.payload)`: a user id written by the API, and no number
      (NaN) for a JSON object. Free text is taken not to start with a digit. */
  function ParsedId(p: Payload): Option<int>
  {
    if p.UserRef? then Some(p.id) else None
  }

  // --------------------------------------------------------- the audience

  /** The users a broadcast group selects: 'premium' means premium and
      ACTIVE, 'blocked' means blocked, any other group every user. */
  function InGroup(group: Option<string>): User -> bool
  {
    (u: User) =>
      if group == Some("premium") then u.isPremium && u.status == Active
      else if group == Some("blocked") then u.isBlocked
      else true
  }

  /** `handleBroadcast`'s recipients: the target id alone when it is
      truthy, otherwise the group's users in table order. */
  function Audience(users: seq<User>, c: Command): seq<int>
  {
    if TruthyOptInt(c.targetId) then [c.targetId.value] else UserIds(Filter(users, InGroup(c.targetGroup)))
  }

  /** The audience is exactly the target, or exactly the users of the group. */
  lemma AudienceExact(users: seq<User>, c: Command)
    requires UniqueUserIds(users)
    ensures TruthyOptInt(c.targetId) ==> Audience(users, c) == [c.targetId.value]
    ensures !TruthyOptInt(c.targetId) ==>
      (forall k :: 0 <= k < |users| ==>
        (users[k].telegramId in Audience(users, c) <==>
          (c.targetGroup == Some("premium") ==> users[k].isPremium && users[k].status == Active)
          && (c.targetGroup == Some("blocked") ==> users[k].isBlocked)))
      && forall id :: id in Audience(users, c) ==> FindUser(users, id).Some?
  {
    if !TruthyOptInt(c.targetId) {
      PickedIff(users, InGroup(c.targetGroup));
    }
  }

  // ------------------------------------------------------- the dispatch

  /** The state the handlers of one tick change: the users table,
      bot_messages, system_config, the shared `activeTasks` set, and the
      users for whom a collection run was started and not awaited. */
  datatype PollState = PollState(users: seq<User>, messages: MessageTable, config: map<string, string>,
                                 active: set<int>, started: seq<int>)

  /** The two UPDATEs of a finished session check: the check status and
      time, then NEED_AUTH when the session was lost. */
  function StampSession(loggedIn: bool, now: int): User -> User
  {
    (u: User) => u.(lastCheckStatus := Some(if loggedIn then SessionActive else SessionExpired), lastCheckAt := Some(now))
  }

  function SessionChecked(users: seq<User>, uid: int, loggedIn: bool, now: int): seq<User>
  {
    var stamped := Patch(users, uid, StampSession(loggedIn, now));
    if loggedIn then stamped else Patch(stamped, uid, Demote())
  }

  /** A finished session check rewrites the checked user's status columns,
      and only those, and no other user. */
  lemma SessionCheckedEffect(users: seq<User>, uid: int, loggedIn: bool, now: int, other: int)
    requires UniqueUserIds(users) && FindUser(users, uid).Some?
    ensures var before := FindUser(users, uid).value;
      FindUser(SessionChecked(users, uid, loggedIn, now), uid) == Some(before.(
        lastCheckStatus := Some(if loggedIn then SessionActive else SessionExpired),
        lastCheckAt := Some(now),
        status := if loggedIn then before.status else NeedAuth))
    ensures other != uid ==> FindUser(SessionChecked(users, uid, loggedIn, now), other) == FindUser(users, other)
  {
    var stamped := Patch(users, uid, StampSession(loggedIn, now));
    FindAfterPatch(users, uid, uid, StampSession(loggedIn, now));
    FindAfterPatch(users, uid, other, StampSession(loggedIn, now));
    if !loggedIn {
      FindAfterPatch(stamped, uid, uid, Demote());
      FindAfterPatch(stamped, uid, other, Demote());
    }
  }

  /** `handleCheckSession(bot, id)`: nothing for an unknown user; otherwise
      the user is in `activeTasks` while the browser runs and taken out in
      the `finally`, and the users table is updated when the peek got as far
      as the login button. */
  function CheckSession(s: PollState, id: Option<int>, peek: SessionPeek, now: int): PollState
  {
    if id.None? || FindUser(s.users, id.value).None? then s
    else
      var users := if PeekResult(peek).Some? then SessionChecked(s.users, id.value, PeekResult(peek).value, now) else s.users;
      s.(users := users, active := s.active - {id.value})
  }

  /** bot_messages after `handleClearHistory` for user `uid`: all the user's
      rows are deleted, then the dashboard sent afterwards is tracked. */
  function ClearedFor(t: MessageTable, uid: int, dashboard: Option<int>, now: int): MessageTable
  {
    var purged := t.(rows := PurgeHistory(t.rows, uid, None, false));
    if dashboard.Some? then Track(purged, uid, dashboard.value, Dashboard, None, now) else purged
  }

  /** Whether handling `c` throws, as the code is written: BROADCAST,
      PAUSE_SYSTEM and RESUME_SYSTEM reach a `logger` call; NOTIFY throws
      unless its payload is a `{telegramId, text}` object and the send
      succeeds; CLEAR_HISTORY throws when no dashboard could be sent (always
      so for a payload that is not a number). */
  predicate Throws(c: Command, o: Outside)
  {
    if c.kind == BroadcastKind || c.kind == PauseKind || c.kind == ResumeKind then true
    else if c.kind == NotifyKind then !(c.payload.NotifyBody? && o.sent.Some?)
    else if c.kind == ClearHistoryKind then ParsedId(c.payload).None? || o.dashboard.None?
    else false
  }

  /** The handler's effect on the state, as the code is written. */
  function Dispatch(s: PollState, c: Command, o: Outside, now: int): (r: PollState)
    ensures r.started == s.started
  {
    if c.kind == NotifyKind then
      if c.payload.NotifyBody? && o.sent.Some?
      then s.(messages := Track(s.messages, c.payload.telegramId, o.sent.value, Reaction, None, now))
      else s
    else if c.kind == CheckSessionKind then CheckSession(s, ParsedId(c.payload), o.peek, now)
    else if c.kind == ClearHistoryKind then
      if ParsedId(c.payload).Some? then s.(messages := ClearedFor(s.messages, ParsedId(c.payload).value, o.dashboard, now))
      else s
    else if c.kind == PauseKind then s.(config := s.config[PauseKey := "1"])
    else if c.kind == ResumeKind then s.(config := s.config[PauseKey := "0"])
    else s
  }

  /** The user a TRIGGER_COLLECT starts a run for: the payload's id when
      that user exists. */
  function Triggered(users: seq<User>, c: Command): seq<int>
  {
    if c.kind == TriggerCollectKind && ParsedId(c.payload).Some? && FindUser(users, ParsedId(c.payload).value).Some?
    then [ParsedId(c.payload).value]
    else []
  }

  /** The state after handling `cmds` in order. */
  function TickFold(s: PollState, cmds: seq<Command>, world: int -> Outside, now: int): PollState
  {
    if |cmds| == 0 then s
    else
      var before := TickFold(s, cmds[..|cmds| - 1], world, now);
      var c := cmds[|cmds| - 1];
      Dispatch(before, c, world(c.id), now).(started := before.started + Triggered(before.users, c))
  }

  /** The status a handled row ends with. */
  function Outcome(c: Command, o: Outside): CommandStatus
  {
    if Throws(c, o) then Failed else Completed
  }

  /** A row after the tick: a PENDING row settles on its outcome, every
      other row is left as it was. */
  function Settled(c: Command, world: int -> Outside): Command
  {
    if c.status == Pending then c.(status := Outcome(c, world(c.id))) else c
  }

  function IsPending(): Command -> bool
  {
    (c: Command) => c.status == Pending
  }

  // ------------------------------------------------ properties of a tick

  /** Rows in non-decreasing `created_at` order. */
  predicate CreatedOrder(rows: seq<Command>)
  {
    forall i, j :: 0 <= i < j < |rows| ==> rows[i].createdAt <= rows[j].createdAt
  }

  /** The rows a tick handles come in `created_at` order. */
  lemma {:induction false} PendingInCreatedOrder(rows: seq<Command>)
    requires CreatedOrder(rows)
    ensures CreatedOrder(Filter(rows, IsPending()))
  {
    if |rows| > 0 {
      var tail := rows[1..];
      assert CreatedOrder(tail) by {
        forall i, j | 0 <= i < j < |tail| ensures tail[i].createdAt <= tail[j].createdAt {
          assert tail[i] == rows[i + 1] && tail[j] == rows[j + 1];
        }
      }
      PendingInCreatedOrder(tail);
      var rest := Filter(tail, IsPending());
      FilterMembers(tail, IsPending());
      forall x | x in rest ensures rows[0].createdAt <= x.createdAt {
        var m :| 0 <= m < |tail| && tail[m] == x;
        assert tail[m] == rows[m + 1];
      }
      var p := Filter(rows, IsPending());
      if rows[0].status == Pending {
        assert p == [rows[0]] + rest;
        forall i, j | 0 <= i < j < |p| ensures p[i].createdAt <= p[j].createdAt {
          assert p[j] == rest[j - 1];
          if i > 0 {
            assert p[i] == rest[i - 1];
          }
        }
      } else {
        assert p == rest;
      }
    }
  }

  /** Every handled row ends COMPLETED or FAILED and is never handed back
      to PENDING; other rows keep their status. */
  lemma SettledStatus(c: Command, world: int -> Outside)
    ensures c.status == Pending ==>
      (Settled(c, world).status == Failed <==> Throws(c, world(c.id)))
      && (Settled(c, world).status == Completed <==> !Throws(c, world(c.id)))
    ensures c.status != Pending ==> Settled(c, world) == c
    ensures Settled(c, world).id == c.id && Settled(c, world).kind == c.kind && Settled(c, world).payload == c.payload
  {
  }

  /** A command kind matching no case changes nothing and ends COMPLETED. */
  lemma UnknownKindCompletes(s: PollState, c: Command, o: Outside, now: int)
    requires c.kind !in {BroadcastKind, NotifyKind, CheckSessionKind, ClearHistoryKind,
                          TriggerCollectKind, PauseKind, ResumeKind}
    ensures Dispatch(s, c, o, now) == s && !Throws(c, o) && Triggered(s.users, c) == []
  {
  }

  /** TRIGGER_COLLECT never fails; it starts a run exactly when its user
      exists, and otherwise does nothing. */
  lemma TriggerCollectEffect(s: PollState, c: Command, o: Outside, now: int)
    requires c.kind == TriggerCollectKind
    ensures !Throws(c, o) && Dispatch(s, c, o, now) == s
    ensures Triggered(s.users, c) != [] <==> ParsedId(c.payload).Some? && FindUser(s.users, ParsedId(c.payload).value).Some?
  {
  }

  /** CHECK_SESSION never fails. For an unknown user nothing changes;
      otherwise the user leaves `activeTasks`, and when the peek reached the
      login button its check status becomes ACTIVE or EXPIRED at `now`, an
      expired session demotes the user to NEED_AUTH, and no other user
      changes. */
  lemma CheckSessionEffect(s: PollState, c: Command, o: Outside, now: int, other: int)
    requires UniqueUserIds(s.users) && c.kind == CheckSessionKind
    ensures !Throws(c, o)
    ensures var id := ParsedId(c.payload);
      var r := Dispatch(s, c, o, now);
      if id.None? || FindUser(s.users, id.value).None? then r == s
      else
        var uid := id.value;
        var before := FindUser(s.users, uid).value;
        r.active == s.active - {uid} && r.messages == s.messages && r.config == s.config
        && (PeekResult(o.peek).None? ==> r.users == s.users)
        && (PeekResult(o.peek).Some? ==>
              var loggedIn := PeekResult(o.peek).value;
              FindUser(r.users, uid) == Some(before.(
                lastCheckStatus := Some(if loggedIn then SessionActive else SessionExpired),
                lastCheckAt := Some(now),
                status := if loggedIn then before.status else NeedAuth))
              && (other != uid ==> FindUser(r.users, other) == FindUser(s.users, other)))
  {
    var id := ParsedId(c.payload);
    if id.Some? && FindUser(s.users, id.value).Some? && PeekResult(o.peek).Some? {
      SessionCheckedEffect(s.users, id.value, PeekResult(o.peek).value, now, other);
    }
  }

  /** CLEAR_HISTORY for a user id removes every bot_messages row of that
      user, whatever Telegram answered to the deletions, and leaves other
      users' rows; the only row of the user afterwards is the dashboard
      sent last. */
  lemma ClearHistoryEffect(t: MessageTable, uid: int, dashboard: Option<int>, now: int)
    requires TruthyInt(uid)
    ensures var r := ClearedFor(t, uid, dashboard, now).rows;
      (forall k :: 0 <= k < |r| && r[k].telegramId == uid ==>
         dashboard.Some? && r[k].messageId == dashboard.value && r[k].msgType == Dashboard)
      && (forall k :: 0 <= k < |r| && r[k].telegramId != uid ==> r[k] in t.rows)
      && forall k :: 0 <= k < |t.rows| && t.rows[k].telegramId != uid ==> t.rows[k] in r
  {
    var purged := t.(rows := PurgeHistory(t.rows, uid, None, false));
    if dashboard.Some? && TruthyInt(dashboard.value) {
      var kept := Filter(purged.rows, OtherMessage(uid, dashboard.value));
      FilterMembers(purged.rows, OtherMessage(uid, dashboard.value));
      var r := ClearedFor(t, uid, dashboard, now).rows;
      assert r == kept + [NewRow(purged, uid, dashboard.value, Dashboard, None, now)];
      forall k | 0 <= k < |t.rows| && t.rows[k].telegramId != uid ensures t.rows[k] in r {
        assert t.rows[k] in purged.rows;
        var m :| 0 <= m < |purged.rows| && purged.rows[m] == t.rows[k];
        assert t.rows[k] in kept;
      }
      forall k | 0 <= k < |r| && k < |kept| ensures r[k] in purged.rows {
        assert r[k] == kept[k];
      }
    }
  }

  // ------------------------------------------------------------ the tick

  /** `UPDATE admin_commands SET status = ? WHERE id = ?`. */
  function SetStatus(rows: seq<Command>, id: int, status: CommandStatus): (r: seq<Command>)
    ensures |r| == |rows|
    ensures forall k :: 0 <= k < |rows| ==> r[k] == if rows[k].id == id then rows[k].(status := status) else rows[k]
  {
    if |rows| == 0 then []
    else SetStatus(rows[..|rows| - 1], id, status)
         + [if rows[|rows| - 1].id == id then rows[|rows| - 1].(status := status) else rows[|rows| - 1]]
  }

  /** The body of the `try` in `handleCheckSession`: open a browser for
      the user, peek at the store page, close it and record the result. */
  method PeekSession(db: Db, user: User, peek: SessionPeek, now: int)
    modifies db`users
    ensures db.users == if PeekResult(peek).Some? then SessionChecked(old(db.users), user.telegramId, PeekResult(peek).value, now) else old(db.users)
  {
    var uid := user.telegramId;
    var automation := new Browser(user.email, uid);
    var threw := automation.Init(peek.launch);
    ghost var users0 := db.users;
    if !threw && peek.navigationOk {
      var isLogged := peek.loginHidden;
      var closed := automation.Close();
      db.users := Patch(db.users, uid, StampSession(isLogged, now));
      if !isLogged {
        db.users := Patch(db.users, uid, Demote());
      }
      assert PeekResult(peek) == Some(isLogged);
      assert db.users == SessionChecked(users0, uid, isLogged, now);
    } else {
      assert PeekResult(peek).None?;
    }
  }

  /** `handleCheckSession(bot, parseInt(payload))`. */
  method HandleCheckSession(db: Db, coord: Coordinator, id: Option<int>, peek: SessionPeek, now: int)
    modifies db`users, coord`activeTasks
    ensures var r := CheckSession(PollState(old(db.users), db.messages, db.config, old(coord.activeTasks), []), id, peek, now);
      db.users == r.users && coord.activeTasks == r.active
  {
    if id.None? {
      return;
    }
    var uid := id.value;
    var user := FindUser(db.users, uid);
    if user.None? {
      return;
    }
    coord.activeTasks := coord.activeTasks + {uid};
    PeekSession(db, user.value, peek, now);
    coord.activeTasks := coord.activeTasks - {uid};
  }

  /** `handleClearHistory(bot, parseInt(payload))`: Telegram is asked to
      delete each of the user's messages, errors ignored; the rows are then
      deleted and a fresh dashboard is sent and tracked. */
  method HandleClearHistory(db: Db, id: Option<int>, dashboard: Option<int>, now: int)
    returns (threw: bool, requested: seq<int>)
    modifies db`messages
    ensures threw <==> id.None? || dashboard.None?
    ensures id.None? ==> db.messages == old(db.messages) && requested == []
    ensures id.Some? ==>
      db.messages == ClearedFor(old(db.messages), id.value, dashboard, now)
      && requested == MessageIds(Filter(old(db.messages.rows), OfUser(id.value)))
  {
    if id.None? {
      return true, [];
    }
    var uid := id.value;
    requested := RequestDeletions(Filter(db.messages.rows, OfUser(uid)));
    db.messages := db.messages.(rows := PurgeHistory(db.messages.rows, uid, None, false));
    if dashboard.None? {
      return true, requested;
    }
    TrackMsg(db, uid, dashboard.value, Dashboard, None, now);
    threw := false;
  }

  /** The `switch` of the tick for one command. */
  method HandleCommand(db: Db, coord: Coordinator, cmd: Command, o: Outside, now: int)
    returns (threw: bool, started: seq<int>)
    modifies db`users, db`messages, db`config, coord`activeTasks
    ensures threw == Throws(cmd, o)
    ensures started == Triggered(old(db.users), cmd)
    ensures var r := Dispatch(PollState(old(db.users), old(db.messages), old(db.config), old(coord.activeTasks), []), cmd, o, now);
      db.users == r.users && db.messages == r.messages && db.config == r.config && coord.activeTasks == r.active
  {
    started := [];
    threw := false;
    if cmd.kind == BroadcastKind {
      var audience := Audience(db.users, cmd);
      // `logger.cmd` is the next statement; `logger` is not defined here
      threw := true;
    } else if cmd.kind == NotifyKind {
      if !cmd.payload.NotifyBody? || o.sent.None? {
        threw := true;
      } else {
        TrackMsg(db, cmd.payload.telegramId, o.sent.value, Reaction, None, now);
      }
    } else if cmd.kind == CheckSessionKind {
      HandleCheckSession(db, coord, ParsedId(cmd.payload), o.peek, now);
    } else if cmd.kind == ClearHistoryKind {
      var requested;
      threw, requested := HandleClearHistory(db, ParsedId(cmd.payload), o.dashboard, now);
    } else if cmd.kind == TriggerCollectKind {
      if ParsedId(cmd.payload).Some? && FindUser(db.users, ParsedId(cmd.payload).value).Some? {
        started := [ParsedId(cmd.payload).value];
      }
    } else if cmd.kind == PauseKind {
      db.config := db.config[PauseKey := "1"];
      threw := true;
    } else if cmd.kind == ResumeKind {
      db.config := db.config[PauseKey := "0"];
      threw := true;
    }
  }

  /** The queue rows once the commands whose ids are in `done` were
      handled: those rows are settled, the others are as they were. */
  ghost predicate SettledUpTo(cur: seq<Command>, rows: seq<Command>, done: set<int>, world: int -> Outside)
  {
    |cur| == |rows|
    && forall k :: 0 <= k < |rows| ==> cur[k] == if rows[k].id in done then Settled(rows[k], world) else rows[k]
  }

  /** Marking one more PENDING row PROCESSING and then with its outcome
      settles it. */
  lemma SettleStep(cur: seq<Command>, rows: seq<Command>, done: set<int>, world: int -> Outside, cmd: Command)
    requires SettledUpTo(cur, rows, done, world)
    requires Distinct(rows, CommandId) && cmd in rows && cmd.status == Pending
    ensures SettledUpTo(SetStatus(SetStatus(cur, cmd.id, Processing), cmd.id, Outcome(cmd, world(cmd.id))),
                        rows, done + {cmd.id}, world)
  {
    var next := SetStatus(SetStatus(cur, cmd.id, Processing), cmd.id, Outcome(cmd, world(cmd.id)));
    var m :| 0 <= m < |rows| && rows[m] == cmd;
    forall k | 0 <= k < |rows|
      ensures next[k] == if rows[k].id in done + {cmd.id} then Settled(rows[k], world) else rows[k]
    {
      if rows[k].id == cmd.id {
        assert CommandId(rows[m]) == CommandId(rows[k]);
        assert k == m;
      }
    }
  }

  /** The ids handled are those of the first `i` selected rows. */
  ghost predicate HandledPrefix(rows: seq<Command>, done: set<int>, selected: seq<Command>, i: int)
    requires 0 <= i <= |selected|
  {
    forall k :: 0 <= k < |rows| ==> (rows[k].id in done <==> rows[k] in selected[..i])
  }

  lemma HandledStep(rows: seq<Command>, done: set<int>, selected: seq<Command>, i: int)
    requires Distinct(rows, CommandId) && 0 <= i < |selected| && selected[i] in rows
    requires HandledPrefix(rows, done, selected, i)
    ensures HandledPrefix(rows, done + {selected[i].id}, selected, i + 1)
  {
    assert selected[..i + 1] == selected[..i] + [selected[i]];
    forall k | 0 <= k < |rows| && rows[k].id == selected[i].id ensures rows[k] == selected[i] {
      var m :| 0 <= m < |rows| && rows[m] == selected[i];
      assert CommandId(rows[m]) == CommandId(rows[k]);
    }
  }

  /** Once every PENDING row was handled, every row is settled. */
  lemma AllSettled(cur: seq<Command>, rows: seq<Command>, done: set<int>, world: int -> Outside)
    requires SettledUpTo(cur, rows, done, world)
    requires HandledPrefix(rows, done, Filter(rows, IsPending()), |Filter(rows, IsPending())|)
    ensures |cur| == |rows| && forall k :: 0 <= k < |rows| ==> cur[k] == Settled(rows[k], world)
  {
    var selected := Filter(rows, IsPending());
    assert selected[..|selected|] == selected;
    FilterMembers(rows, IsPending());
  }

  /** One pass of the tick's loop: the row is marked PROCESSING, handled,
      and marked with its outcome. */
  method HandleRow(db: Db, coord: Coordinator, cmd: Command, o: Outside, now: int) returns (started: seq<int>)
    modifies db`commands, db`users, db`messages, db`config, coord`activeTasks
    ensures db.commands == old(db.commands).(rows :=
      SetStatus(SetStatus(old(db.commands.rows), cmd.id, Processing), cmd.id, Outcome(cmd, o)))
    ensures started == Triggered(old(db.users), cmd)
    ensures var r := Dispatch(PollState(old(db.users), old(db.messages), old(db.config), old(coord.activeTasks), []), cmd, o, now);
      db.users == r.users && db.messages == r.messages && db.config == r.config && coord.activeTasks == r.active
  {
    db.commands := db.commands.(rows := SetStatus(db.commands.rows, cmd.id, Processing));
    var threw;
    threw, started := HandleCommand(db, coord, cmd, o, now);
    db.commands := db.commands.(rows := SetStatus(db.commands.rows, cmd.id, if threw then Failed else Completed));
  }

  /** One tick of `startAdminPoller`: the PENDING rows, read once in
      `created_at` order, are each marked PROCESSING, handled, and marked
      COMPLETED or FAILED. The ids of the collection runs started are
      returned. */
  method Tick(db: Db, coord: Coordinator, world: int -> Outside, now: int) returns (started: seq<int>)
    requires CommandKeys(db.commands)
    modifies db`commands, db`users, db`messages, db`config, coord`activeTasks
    ensures db.commands.nextId == old(db.commands.nextId)
    ensures |db.commands.rows| == |old(db.commands.rows)|
    ensures forall k :: 0 <= k < |db.commands.rows| ==> db.commands.rows[k] == Settled(old(db.commands.rows[k]), world)
    ensures PollState(db.users, db.messages, db.config, coord.activeTasks, started)
      == TickFold(PollState(old(db.users), old(db.messages), old(db.config), old(coord.activeTasks), []),
                  Filter(old(db.commands.rows), IsPending()), world, now)
  {
    ghost var rows0 := db.commands.rows;
    ghost var s0 := PollState(db.users, db.messages, db.config, coord.activeTasks, []);
    var commands := Filter(db.commands.rows, IsPending());
    FilterMembers(rows0, IsPending());
    ghost var done: set<int> := {};
    started := [];
    var i := 0;
    while i < |commands|
      invariant 0 <= i <= |commands|
      invariant db.commands.nextId == old(db.commands.nextId)
      invariant SettledUpTo(db.commands.rows, rows0, done, world)
      invariant HandledPrefix(rows0, done, commands, i)
      invariant PollState(db.users, db.messages, db.config, coord.activeTasks, started)
        == TickFold(s0, commands[..i], world, now)
    {
      var cmd := commands[i];
      ghost var pre := PollState(db.users, db.messages, db.config, coord.activeTasks, started);
      TickFoldNext(s0, commands, i, world, now);
      DispatchIgnoresStarted(pre.(started := []), cmd, world(cmd.id), now, started);
      SettleStep(db.commands.rows, rows0, done, world, cmd);
      HandledStep(rows0, done, commands, i);
      var triggered := HandleRow(db, coord, cmd, world(cmd.id), now);
      started := started + triggered;
      done := done + {cmd.id};
      i := i + 1;
    }
    AllSettled(db.commands.rows, rows0, done, world);
    assert commands[..i] == commands;
  }

  lemma TickFoldNext(s: PollState, cmds: seq<Command>, i: int, world: int -> Outside, now: int)
    requires 0 <= i < |cmds|
    ensures var before := TickFold(s, cmds[..i], world, now);
      TickFold(s, cmds[..i + 1], world, now)
      == Dispatch(before, cmds[i], world(cmds[i].id), now).(started := before.started + Triggered(before.users, cmds[i]))
  {
    assert cmds[..i + 1][..i] == cmds[..i];
  }

  /** The handlers never look at the runs already started. */
  lemma DispatchIgnoresStarted(s: PollState, c: Command, o: Outside, now: int, started: seq<int>)
    ensures Dispatch(s.(started := started), c, o, now) == Dispatch(s, c, o, now).(started := started)
  {
  }

  // ------------------------------------------------ the intended behaviour

  /** `trackMsg` as line 31 of `handleBroadcast` calls it: the TTL lands in
      the `type` parameter and the real TTL parameter keeps its default. */
  function TtlAsType(ttl: Option<int>): MsgType
  {
    if TruthyOptInt(ttl) then TypeNumber(ttl.value) else TypeNull
  }

  function TrackBroadcastAsWritten(t: MessageTable, uid: int, msgId: int, ttl: Option<int>, now: int): MessageTable
  {
    Track(t, uid, msgId, TtlAsType(ttl), None, now)
  }

  /** As written, a broadcast row is never reaped, whatever TTL was asked.
      The send loop is reached only once `logger` is imported: without it
      every BROADCAST throws first (`LoggerFailures`). */
  lemma BroadcastRowNeverExpires(t: MessageTable, uid: int, msgId: int, ttl: Option<int>, now: int, later: int)
    requires TruthyInt(uid) && TruthyInt(msgId)
    ensures NewRow(t, uid, msgId, TtlAsType(ttl), None, now)
      in Filter(TrackBroadcastAsWritten(t, uid, msgId, ttl, now).rows, Alive(later))
  {
    var rows := TrackBroadcastAsWritten(t, uid, msgId, ttl, now).rows;
    var row := NewRow(t, uid, msgId, TtlAsType(ttl), None, now);
    assert rows[|rows| - 1] == row;
    FilterMembers(rows, Alive(later));
  }

  /** The evident intent: the TTL is the TTL, and the type keeps its
      default. */
  function TrackBroadcast(t: MessageTable, uid: int, msgId: int, ttl: Option<int>, now: int): MessageTable
  {
    Track(t, uid, msgId, Reaction, ttl, now)
  }

  /** Intended: a broadcast row with a TTL is reaped by the first TTL tick
      after its deadline. */
  lemma BroadcastRowExpires(t: MessageTable, uid: int, msgId: int, ttl: Option<int>, now: int, later: int)
    requires TruthyInt(uid) && TruthyInt(msgId) && TruthyOptInt(ttl) && now + ttl.value * 1000 < later
    ensures NewRow(t, uid, msgId, Reaction, ttl, now) in Filter(TrackBroadcast(t, uid, msgId, ttl, now).rows, Expired(later))
    ensures NewRow(t, uid, msgId, Reaction, ttl, now) !in Filter(TrackBroadcast(t, uid, msgId, ttl, now).rows, Alive(later))
  {
    var rows := TrackBroadcast(t, uid, msgId, ttl, now).rows;
    var row := NewRow(t, uid, msgId, Reaction, ttl, now);
    assert rows[|rows| - 1] == row;
    FilterMembers(rows, Expired(later));
    FilterMembers(rows, Alive(later));
  }

  /** The tracking of an intended broadcast: one send per recipient, each
      accepted message tracked with the command's TTL. */
  function BroadcastTracked(t: MessageTable, audience: seq<int>, replies: seq<Option<int>>, ttl: Option<int>, now: int)
    : MessageTable
  {
    if |audience| == 0 then t
    else
      var before := BroadcastTracked(t, audience[..|audience| - 1], replies, ttl, now);
      var k := |audience| - 1;
      if k < |replies| && replies[k].Some? then TrackBroadcast(before, audience[k], replies[k].value, ttl, now)
      else before
  }

  /** Every row an intended broadcast adds carries the command's deadline. */
  lemma {:induction false} BroadcastRowsCarryTtl(t: MessageTable, audience: seq<int>, replies: seq<Option<int>>,
                                                  ttl: Option<int>, now: int)
    ensures forall row :: row in BroadcastTracked(t, audience, replies, ttl, now).rows ==>
      row in t.rows || (row.deleteAt == DeleteAtFor(now, ttl) && row.msgType == Reaction)
  {
    if |audience| > 0 {
      var before := BroadcastTracked(t, audience[..|audience| - 1], replies, ttl, now);
      BroadcastRowsCarryTtl(t, audience[..|audience| - 1], replies, ttl, now);
      var k := |audience| - 1;
      if k < |replies| && replies[k].Some? && TruthyInt(audience[k]) && TruthyInt(replies[k].value) {
        var kept := Filter(before.rows, OtherMessage(audience[k], replies[k].value));
        FilterMembers(before.rows, OtherMessage(audience[k], replies[k].value));
        var r := BroadcastTracked(t, audience, replies, ttl, now).rows;
        assert r == kept + [NewRow(before, audience[k], replies[k].value, Reaction, ttl, now)];
        forall row | row in r ensures row in t.rows || (row.deleteAt == DeleteAtFor(now, ttl) && row.msgType == Reaction) {
          if row in kept {
            var j :| 0 <= j < |kept| && kept[j] == row;
            assert row in before.rows;
          }
        }
      }
    }
  }

  /** What the handler throws once `logger` is defined: BROADCAST,
      PAUSE_SYSTEM and RESUME_SYSTEM no longer do. */
  predicate ThrowsIntended(c: Command, o: Outside)
  {
    if c.kind == BroadcastKind || c.kind == PauseKind || c.kind == ResumeKind then false
    else Throws(c, o)
  }

  /** The dispatch with `logger` defined and the TTL passed as the TTL. */
  function DispatchIntended(s: PollState, c: Command, o: Outside, now: int): PollState
  {
    if c.kind == BroadcastKind then
      s.(messages := BroadcastTracked(s.messages, Audience(s.users, c), o.replies, c.ttl, now))
    else Dispatch(s, c, o, now)
  }

  /** As written, BROADCAST fails before sending anything, and PAUSE_SYSTEM
      and RESUME_SYSTEM store the flag and still fail. */
  lemma LoggerFailures(s: PollState, c: Command, o: Outside, now: int)
    ensures c.kind == BroadcastKind ==> Throws(c, o) && Dispatch(s, c, o, now) == s
    ensures c.kind == PauseKind ==> Throws(c, o) && Dispatch(s, c, o, now).config[PauseKey] == "1"
    ensures c.kind == ResumeKind ==> Throws(c, o) && Dispatch(s, c, o, now).config[PauseKey] == "0"
  {
  }

  /** Intended: the flag commands end COMPLETED with the flag stored, and a
      broadcast ends COMPLETED having tracked only rows that carry its TTL. */
  lemma IntendedCommandsComplete(s: PollState, c: Command, o: Outside, now: int)
    ensures c.kind == PauseKind ==> !ThrowsIntended(c, o) && DispatchIntended(s, c, o, now).config[PauseKey] == "1"
    ensures c.kind == ResumeKind ==> !ThrowsIntended(c, o) && DispatchIntended(s, c, o, now).config[PauseKey] == "0"
    ensures c.kind == BroadcastKind ==>
      !ThrowsIntended(c, o)
      && forall row :: row in DispatchIntended(s, c, o, now).messages.rows ==>
           row in s.messages.rows || row.deleteAt == DeleteAtFor(now, c.ttl)
  {
    if c.kind == BroadcastKind {
      BroadcastRowsCarryTtl(s.messages, Audience(s.users, c), o.replies, c.ttl, now);
    }
  }
}
