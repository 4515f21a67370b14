// The SQLite tables the bot, the admin API and the poller share
// (src/database/index.js), as rows held in sequences in insertion order, and
// the in-place `Db` object whose fields the operations reassign.
//
// Timestamps are integer milliseconds. A column that may be NULL is an
// `Option`; `users.email` uses "" for NULL because every reader treats both
// as falsy.
module Store {
  import opened Common

  /** users.status: only 'NEED_AUTH' (the column default) and 'ACTIVE' are written. */
  datatype AuthStatus = NeedAuth | Active

  /** users.last_check_status, written by the admin session check. */
  datatype CheckStatus = SessionActive | SessionExpired

  datatype User = User(
    telegramId: int,
    email: string,
    status: AuthStatus,
    isPremium: bool,
    isBlocked: bool,
    lastCheckStatus: Option<CheckStatus>,
    lastCheckAt: Option<int>,
    trialExpiresAt: Option<int>)

  /** A row as `INSERT ... (telegram_id, email, status)` creates it: every
      other column takes its default. */
  function FreshUser(telegramId: int, email: string, status: AuthStatus): (u: User)
    ensures u.telegramId == telegramId && u.email == email && u.status == status
    ensures !u.isPremium && !u.isBlocked && u.lastCheckStatus.None? && u.lastCheckAt.None?
  {
    User(telegramId, email, status, false, false, None, None, None)
  }

  /** user_emails: one row per (user_id, email). */
  datatype EmailRow = EmailRow(userId: int, email: string)

  /** collection_logs; the core only ever writes the status 'SUCCESS'. */
  datatype LogRow = LogRow(userId: int, timestamp: int, status: string, rewards: int)

  const SuccessStatus: string := "SUCCESS"

  /** bot_messages.msg_type. The column is TEXT; a number bound into it is
      kept as `TypeNumber`, whose decimal text never equals a type name. */
  datatype MsgType = TypeName(name: string) | TypeNumber(n: int) | TypeNull

  const Reaction: MsgType := TypeName("REACTION")
  const Dashboard: MsgType := TypeName("DASHBOARD")

  /** bot_messages: `id` is the autoincrement key, `deleteAt` the TTL deadline.
      The free-text column is not modelled. */
  datatype MessageRow = MessageRow(id: int, telegramId: int, messageId: int, deleteAt: Option<int>, msgType: MsgType)

  /** The bot_messages table and the next autoincrement id it will hand out. */
  datatype MessageTable = MessageTable(rows: seq<MessageRow>, nextId: int)

  datatype CommandStatus = Pending | Processing | Completed | Failed

  /** admin_commands.payload. Producers write a user id, a JSON object
      `{telegramId, text}` or free text; the model keeps that structure
      instead of the serialised string. */
  datatype Payload = UserRef(id: int) | NotifyBody(telegramId: int, text: string) | Text(text: string)

  datatype Command = Command(
    id: int,
    kind: string,
    payload: Payload,
    targetId: Option<int>,
    targetGroup: Option<string>,
    ttl: Option<int>,
    status: CommandStatus,
    createdAt: int)

  /** The admin_commands table and the next autoincrement id. */
  datatype CommandQueue = CommandQueue(rows: seq<Command>, nextId: int)

  /** system_config keys. */
  const PauseKey: string := "is_paused"
  const RewardImage1Key: string := "reward_img_1"
  const RewardImage2Key: string := "reward_img_2"

  /** A day in milliseconds: the scheduler's collection period. */
  const DayMs: int := 86400000

  // ---------------------------------------------------------------- users

  function UserKey(u: User): int { u.telegramId }

  /** telegram_id is the primary key. */
  predicate UniqueUserIds(users: seq<User>)
  {
    Distinct(users, UserKey)
  }

  /** `SELECT * FROM users WHERE telegram_id = ?`. */
  function FindUser(users: seq<User>, id: int): (r: Option<User>)
    ensures r.None? <==> forall k :: 0 <= k < |users| ==> users[k].telegramId != id
    ensures r.Some? ==> r.value in users && r.value.telegramId == id
  {
    if |users| == 0 then None
    else if users[0].telegramId == id then Some(users[0])
    else FindUser(users[1..], id)
  }

  /** `UPDATE users SET ... WHERE telegram_id = id`: `f` is applied to the
      matching row; the key column itself is never rewritten. */
  function Patch(users: seq<User>, id: int, f: User -> User): (r: seq<User>)
    ensures |r| == |users|
    ensures forall k :: 0 <= k < |r| ==> r[k].telegramId == users[k].telegramId
    ensures forall k :: 0 <= k < |r| ==>
      r[k] == if users[k].telegramId == id then f(users[k]).(telegramId := id) else users[k]
  {
    if |users| == 0 then []
    else [if users[0].telegramId == id then f(users[0]).(telegramId := id) else users[0]]
         + Patch(users[1..], id, f)
  }

  /** After a patch the updated user is found with the patched value. */
  lemma {:induction false} FindAfterPatch(users: seq<User>, id: int, other: int, f: User -> User)
    requires UniqueUserIds(users)
    ensures UniqueUserIds(Patch(users, id, f))
    ensures FindUser(Patch(users, id, f), other) ==
      match FindUser(users, other)
      case None => None
      case Some(u) => if other == id then Some(f(u).(telegramId := id)) else Some(u)
  {
    if |users| > 0 {
      FindAfterPatch(users[1..], id, other, f);
    }
  }

  /** Two updaters that agree on every row make the same update. */
  lemma PatchCongruent(users: seq<User>, id: int, f: User -> User, g: User -> User)
    requires forall u: User :: f(u).(telegramId := id) == g(u).(telegramId := id)
    ensures Patch(users, id, f) == Patch(users, id, g)
  {
    var a := Patch(users, id, f);
    var b := Patch(users, id, g);
    assert forall k :: 0 <= k < |a| ==> a[k] == b[k];
  }

  /** Two UPDATEs of the same row in a row are one UPDATE doing both. */
  lemma PatchThen(users: seq<User>, id: int, f: User -> User, g: User -> User, h: User -> User)
    requires forall u: User :: g(f(u).(telegramId := id)).(telegramId := id) == h(u).(telegramId := id)
    ensures Patch(Patch(users, id, f), id, g) == Patch(users, id, h)
  {
    var a := Patch(Patch(users, id, f), id, g);
    var b := Patch(users, id, h);
    forall k | 0 <= k < |a| ensures a[k] == b[k] {
      if users[k].telegramId == id {
        assert a[k] == g(f(users[k]).(telegramId := id)).(telegramId := id);
      }
    }
  }

  // --------------------------------------------------------- user_emails

  function EmailRowKey(e: EmailRow): EmailRow { e }

  /** UNIQUE(user_id, email) of src/database/index.js. */
  predicate UniqueEmailRows(rows: seq<EmailRow>)
  {
    Distinct(rows, EmailRowKey)
  }

  /** `SELECT email FROM user_emails WHERE user_id = ?`, in table order. */
  function EmailsOf(rows: seq<EmailRow>, userId: int): (r: seq<string>)
    ensures |r| <= |rows|
    ensures forall e :: e in r <==> EmailRow(userId, e) in rows
  {
    if |rows| == 0 then []
    else (if rows[0].userId == userId then [rows[0].email] else []) + EmailsOf(rows[1..], userId)
  }

  /** A user without rows has no saved email. */
  lemma {:induction false} EmailsOfAbsent(rows: seq<EmailRow>, userId: int)
    requires forall k :: 0 <= k < |rows| ==> rows[k].userId != userId
    ensures EmailsOf(rows, userId) == []
  {
    if |rows| > 0 {
      EmailsOfAbsent(rows[1..], userId);
    }
  }

  // --------------------------------------------------------- bot_messages

  function RowId(r: MessageRow): int { r.id }

  function ChatMessage(r: MessageRow): (int, int) { (r.telegramId, r.messageId) }

  /** The autoincrement key: positive, below the next id, never repeated. */
  predicate MessageKeys(t: MessageTable)
  {
    0 < t.nextId
    && (forall k :: 0 <= k < |t.rows| ==> 0 < t.rows[k].id < t.nextId)
    && Distinct(t.rows, RowId)
  }

  /** UNIQUE(telegram_id, message_id) of src/database/index.js. */
  predicate OneRowPerMessage(rows: seq<MessageRow>)
  {
    Distinct(rows, ChatMessage)
  }

  // ------------------------------------------------------- admin_commands

  function CommandId(c: Command): int { c.id }

  /** The autoincrement key, and `created_at` never decreasing in insertion
      order (rows are stamped with the current time as they are inserted). */
  predicate CommandKeys(q: CommandQueue)
  {
    0 < q.nextId
    && (forall k :: 0 <= k < |q.rows| ==> 0 < q.rows[k].id < q.nextId)
    && Distinct(q.rows, CommandId)
    && (forall i, j :: 0 <= i < j < |q.rows| ==> q.rows[i].createdAt <= q.rows[j].createdAt)
  }

  /** The newest `created_at` in the queue (0 when empty). */
  function LatestCreated(rows: seq<Command>): (t: int)
    ensures forall k :: 0 <= k < |rows| ==> rows[k].createdAt <= t
  {
    if |rows| == 0 then 0
    else
      var rest := LatestCreated(rows[..|rows| - 1]);
      if rows[|rows| - 1].createdAt > rest then rows[|rows| - 1].createdAt else rest
  }

  /** `INSERT INTO admin_commands (...)`: one more row, after the existing
      ones, holding the given columns, PENDING and stamped `now`, under the
      id the counter handed out; the counter moves past it, and the id is
      used by no earlier row. */
  function Append(q: CommandQueue, kind: string, payload: Payload, targetId: Option<int>,
                  targetGroup: Option<string>, ttl: Option<int>, now: int): (r: CommandQueue)
    ensures |r.rows| == |q.rows| + 1 && r.rows[..|q.rows|] == q.rows
    ensures var c := r.rows[|q.rows|];
      c.kind == kind && c.payload == payload && c.targetId == targetId && c.targetGroup == targetGroup
      && c.ttl == ttl && c.status == Pending && c.createdAt == now
      && c.id == q.nextId < r.nextId
    ensures CommandKeys(q) ==> forall k :: 0 <= k < |q.rows| ==> q.rows[k].id != r.rows[|q.rows|].id
  {
    CommandQueue(q.rows + [Command(q.nextId, kind, payload, targetId, targetGroup, ttl, Pending, now)], q.nextId + 1)
  }

  /** Appending at a time no earlier than every row keeps the table keys. */
  lemma AppendKeepsKeys(q: CommandQueue, kind: string, payload: Payload, targetId: Option<int>,
                        targetGroup: Option<string>, ttl: Option<int>, now: int)
    requires CommandKeys(q) && LatestCreated(q.rows) <= now
    ensures CommandKeys(Append(q, kind, payload, targetId, targetGroup, ttl, now))
    ensures LatestCreated(Append(q, kind, payload, targetId, targetGroup, ttl, now).rows) == now
  {
    var r := Append(q, kind, payload, targetId, targetGroup, ttl, now).rows;
    assert r[..|r| - 1] == q.rows;
  }

  // ------------------------------------------------------------ the store

  class Db {
    var users: seq<User>
    var userEmails: seq<EmailRow>
    var logs: seq<LogRow>
    var messages: MessageTable
    var commands: CommandQueue
    var config: map<string, string>

    /** The keys the schema declares. */
    ghost predicate Valid()
      reads this
    {
      UniqueUserIds(users) && UniqueEmailRows(userEmails) && MessageKeys(messages) && CommandKeys(commands)
    }

    /** A freshly created, empty database. */
    constructor ()
      ensures Valid()
      ensures users == [] && userEmails == [] && logs == [] && config == map[]
      ensures messages == MessageTable([], 1) && commands == CommandQueue([], 1)
    {
      users := [];
      userEmails := [];
      logs := [];
      messages := MessageTable([], 1);
      commands := CommandQueue([], 1);
      config := map[];
    }
  }
}
