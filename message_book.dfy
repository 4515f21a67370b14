// Bookkeeping of the messages the bot has sent (src/bot/utils.js): the
// `trackMsg` upsert into bot_messages, the purges of a user's history and of
// their transient "REACTION" messages, and one tick of the TTL reaper.
//
// Telegram is an oracle whose deletions may fail; every failure is swallowed
// by the source, so the model only records which deletions were requested.
module MessageBook {
  import opened Common
  import opened Store

  // ------------------------------------------------------------ selectors

  /** Rows of any chat message other than (telegramId, messageId). */
  function OtherMessage(telegramId: int, messageId: int): MessageRow -> bool
  {
    (r: MessageRow) => !(r.telegramId == telegramId && r.messageId == messageId)
  }

  /** Rows of the chat message (telegramId, messageId). */
  function SameMessage(telegramId: int, messageId: int): MessageRow -> bool
  {
    (r: MessageRow) => r.telegramId == telegramId && r.messageId == messageId
  }

  function OfUser(telegramId: int): MessageRow -> bool
  {
    (r: MessageRow) => r.telegramId == telegramId
  }

  /** `WHERE telegram_id = ? AND msg_type = "REACTION"`. */
  function ReactionOf(telegramId: int): MessageRow -> bool
  {
    (r: MessageRow) => r.telegramId == telegramId && r.msgType == Reaction
  }

  function NotReactionOf(telegramId: int): MessageRow -> bool
  {
    (r: MessageRow) => !(r.telegramId == telegramId && r.msgType == Reaction)
  }

  /** `delete_at IS NOT NULL AND delete_at < now`. */
  predicate IsExpired(r: MessageRow, now: int)
  {
    r.deleteAt.Some? && r.deleteAt.value < now
  }

  function Expired(now: int): MessageRow -> bool
  {
    (r: MessageRow) => IsExpired(r, now)
  }

  function Alive(now: int): MessageRow -> bool
  {
    (r: MessageRow) => !IsExpired(r, now)
  }

  /** The message ids of `rows`, in order. */
  function MessageIds(rows: seq<MessageRow>): (ids: seq<int>)
    ensures |ids| == |rows|
    ensures forall k :: 0 <= k < |rows| ==> ids[k] == rows[k].messageId
  {
    if |rows| == 0 then [] else [rows[0].messageId] + MessageIds(rows[1..])
  }

  /** The (chat, message) pairs of `rows`, in order. */
  function ChatMessages(rows: seq<MessageRow>): (pairs: seq<(int, int)>)
    ensures |pairs| == |rows|
    ensures forall k :: 0 <= k < |rows| ==> pairs[k] == ChatMessage(rows[k])
  {
    if |rows| == 0 then [] else [ChatMessage(rows[0])] + ChatMessages(rows[1..])
  }

  lemma ChatMessagesSnoc(rows: seq<MessageRow>, row: MessageRow)
    ensures ChatMessages(rows + [row]) == ChatMessages(rows) + [ChatMessage(row)]
  {
    var l, r := ChatMessages(rows + [row]), ChatMessages(rows) + [ChatMessage(row)];
    assert |l| == |r|;
    forall k | 0 <= k < |l| ensures l[k] == r[k] {
      if k < |rows| { assert (rows + [row])[k] == rows[k]; }
    }
  }

  lemma {:induction false} MessageIdsAppend(a: seq<MessageRow>, b: seq<MessageRow>)
    ensures MessageIds(a + b) == MessageIds(a) + MessageIds(b)
  {
    var l, r := MessageIds(a + b), MessageIds(a) + MessageIds(b);
    assert |l| == |r|;
    forall k | 0 <= k < |l| ensures l[k] == r[k] {
      if k < |a| { assert (a + b)[k] == a[k]; } else { assert (a + b)[k] == b[k - |a|]; }
    }
  }

  /** The loop `for (const msg of messages) telegram.deleteMessage(...)`:
      one deletion request per selected row, in order; failures are ignored. */
  method RequestDeletions(messages: seq<MessageRow>) returns (requested: seq<int>)
    ensures requested == MessageIds(messages)
  {
    requested := [];
    var i := 0;
    while i < |messages|
      invariant 0 <= i <= |messages|
      invariant requested == MessageIds(messages[..i])
    {
      assert messages[..i + 1] == messages[..i] + [messages[i]];
      MessageIdsAppend(messages[..i], [messages[i]]);
      requested := requested + [messages[i].messageId];
      i := i + 1;
    }
    assert messages[..i] == messages;
  }

  // -------------------------------------------------------------- trackMsg

  /** `delete_at` for a row tracked at `now`: a deadline only when the TTL is
      truthy (a missing or zero TTL means the row never expires). */
  function DeleteAtFor(now: int, ttlSeconds: Option<int>): (r: Option<int>)
    ensures r.None? <==> !TruthyOptInt(ttlSeconds)
    ensures r.Some? ==> r.value - now == ttlSeconds.value * 1000
  {
    if TruthyOptInt(ttlSeconds) then Some(now + ttlSeconds.value * 1000) else None
  }

  /** The row `INSERT OR REPLACE` writes: the next autoincrement id. */
  function NewRow(t: MessageTable, telegramId: int, msgId: int, msgType: MsgType,
                  ttlSeconds: Option<int>, now: int): MessageRow
  {
    MessageRow(t.nextId, telegramId, msgId, DeleteAtFor(now, ttlSeconds), msgType)
  }

  /** The table after `trackMsg(telegramId, msgId, text, type, ttlSeconds)` at
      time `now`. A falsy id makes it a no-op; otherwise `INSERT OR REPLACE`
      deletes any row of the same (telegram_id, message_id) and inserts a new
      row with a new id. */
  function Track(t: MessageTable, telegramId: int, msgId: int, msgType: MsgType,
                 ttlSeconds: Option<int>, now: int): MessageTable
  {
    if !TruthyInt(msgId) || !TruthyInt(telegramId) then t
    else MessageTable(Filter(t.rows, OtherMessage(telegramId, msgId))
                        + [NewRow(t, telegramId, msgId, msgType, ttlSeconds, now)],
                      t.nextId + 1)
  }

  /** `trackMsg` keeps the autoincrement key and the UNIQUE(telegram_id,
      message_id) constraint of bot_messages. */
  lemma TrackKeepsKeys(t: MessageTable, telegramId: int, msgId: int, msgType: MsgType,
                       ttlSeconds: Option<int>, now: int)
    requires MessageKeys(t)
    ensures MessageKeys(Track(t, telegramId, msgId, msgType, ttlSeconds, now))
    ensures OneRowPerMessage(t.rows) ==> OneRowPerMessage(Track(t, telegramId, msgId, msgType, ttlSeconds, now).rows)
  {
    if TruthyInt(msgId) && TruthyInt(telegramId) {
      var kept := Filter(t.rows, OtherMessage(telegramId, msgId));
      var row := NewRow(t, telegramId, msgId, msgType, ttlSeconds, now);
      FilterMembers(t.rows, OtherMessage(telegramId, msgId));
      FilterDistinct(t.rows, OtherMessage(telegramId, msgId), RowId);
      AppendDistinct(kept, row, RowId);
      if OneRowPerMessage(t.rows) {
        FilterDistinct(t.rows, OtherMessage(telegramId, msgId), ChatMessage);
        AppendDistinct(kept, row, ChatMessage);
      }
    }
  }

  /** Appending a row whose key is new keeps a uniqueness constraint. */
  lemma AppendDistinct<K>(rows: seq<MessageRow>, row: MessageRow, key: MessageRow -> K)
    requires Distinct(rows, key)
    requires forall k :: 0 <= k < |rows| ==> key(rows[k]) != key(row)
    ensures Distinct(rows + [row], key)
  {
    var all := rows + [row];
    forall i, j | 0 <= i < j < |all| ensures key(all[i]) != key(all[j]) {
      assert all[i] == rows[i];
      if j < |rows| { assert all[j] == rows[j]; }
    }
  }

  /** After `trackMsg` with truthy ids the new row is the only row of its
      chat message, and the rows of every other message are untouched. */
  lemma {:induction false} TrackUpserts(t: MessageTable, telegramId: int, msgId: int, msgType: MsgType,
                                        ttlSeconds: Option<int>, now: int)
    requires TruthyInt(msgId) && TruthyInt(telegramId)
    ensures var r := Track(t, telegramId, msgId, msgType, ttlSeconds, now).rows;
      Filter(r, SameMessage(telegramId, msgId)) == [NewRow(t, telegramId, msgId, msgType, ttlSeconds, now)]
      && Filter(r, OtherMessage(telegramId, msgId)) == Filter(t.rows, OtherMessage(telegramId, msgId))
  {
    var kept := Filter(t.rows, OtherMessage(telegramId, msgId));
    var row := NewRow(t, telegramId, msgId, msgType, ttlSeconds, now);
    FilterAppend(kept, [row], SameMessage(telegramId, msgId));
    FilterDisjoint(t.rows, OtherMessage(telegramId, msgId), SameMessage(telegramId, msgId));
    assert Filter([row], SameMessage(telegramId, msgId)) == [row] by { assert [row][1..] == []; }
    FilterAppend(kept, [row], OtherMessage(telegramId, msgId));
    FilterKeepsAll(kept, OtherMessage(telegramId, msgId));
    assert Filter([row], OtherMessage(telegramId, msgId)) == [] by { assert [row][1..] == []; }
  }

  /** A tracked row is reaped by a later TTL tick exactly when it was given
      a truthy TTL and its deadline has passed: rows tracked without a TTL
      are never reaped. */
  lemma TrackedRowExpiry(t: MessageTable, telegramId: int, msgId: int, msgType: MsgType,
                         ttlSeconds: Option<int>, now: int, later: int)
    ensures IsExpired(NewRow(t, telegramId, msgId, msgType, ttlSeconds, now), later)
      <==> TruthyOptInt(ttlSeconds) && now + ttlSeconds.value * 1000 < later
  {
  }

  method TrackMsg(db: Db, telegramId: int, msgId: int, msgType: MsgType, ttlSeconds: Option<int>, now: int)
    modifies db`messages
    ensures db.messages == Track(old(db.messages), telegramId, msgId, msgType, ttlSeconds, now)
  {
    if !TruthyInt(msgId) || !TruthyInt(telegramId) {
      return;
    }
    var deleteAt: Option<int> := None;
    if TruthyOptInt(ttlSeconds) {
      deleteAt := Some(now + ttlSeconds.value * 1000);
    }
    var row := MessageRow(db.messages.nextId, telegramId, msgId, deleteAt, msgType);
    db.messages := MessageTable(Filter(db.messages.rows, OtherMessage(telegramId, msgId)) + [row],
                                db.messages.nextId + 1);
  }

  // -------------------------------------------------------- cleanupHistory

  /** What `cleanupHistory` keeps: other users' rows, and, when the
      dashboard is spared and known, the user's dashboard row. */
  function HistoryKept(telegramId: int, dashboardId: Option<int>, exceptDashboard: bool): MessageRow -> bool
  {
    (r: MessageRow) => r.telegramId != telegramId
         || (exceptDashboard && TruthyOptInt(dashboardId) && r.messageId == dashboardId.value)
  }

  /** Rows the deletion loop of `cleanupHistory` does not skip: all but the
      session's dashboard when it is spared. */
  function NotSpared(dashboardId: Option<int>, exceptDashboard: bool): MessageRow -> bool
  {
    (r: MessageRow) => !(exceptDashboard && dashboardId == Some(r.messageId))
  }

  /** bot_messages after purging a user's history. */
  function PurgeHistory(rows: seq<MessageRow>, telegramId: int, dashboardId: Option<int>, exceptDashboard: bool)
    : (r: seq<MessageRow>)
    ensures forall k :: 0 <= k < |rows| && rows[k].telegramId != telegramId ==> rows[k] in r
    ensures forall k :: 0 <= k < |r| ==> r[k] in rows
    ensures forall k :: 0 <= k < |r| && r[k].telegramId == telegramId ==>
      exceptDashboard && TruthyOptInt(dashboardId) && r[k].messageId == dashboardId.value
    ensures exceptDashboard && TruthyOptInt(dashboardId) ==>
      forall k :: 0 <= k < |rows| && rows[k].messageId == dashboardId.value ==> rows[k] in r
  {
    FilterMembers(rows, HistoryKept(telegramId, dashboardId, exceptDashboard));
    Filter(rows, HistoryKept(telegramId, dashboardId, exceptDashboard))
  }

  /** `cleanupHistory(ctx, exceptDashboard)`: `from` is the sender's id (absent
      for updates without a sender), `dashboardId` the session's dashboard.
      Telegram is asked to delete each of the user's messages but the spared
      dashboard; then the rows go, whatever Telegram answered. */
  method CleanupHistory(db: Db, from: Option<int>, dashboardId: Option<int>, exceptDashboard: bool)
    returns (requested: seq<int>)
    modifies db`messages
    ensures from.None? ==> db.messages == old(db.messages) && requested == []
    ensures from.Some? ==>
      db.messages == old(db.messages).(rows := PurgeHistory(old(db.messages.rows), from.value, dashboardId, exceptDashboard))
      && requested == MessageIds(Filter(Filter(old(db.messages.rows), OfUser(from.value)), NotSpared(dashboardId, exceptDashboard)))
  {
    requested := [];
    if from.None? {
      return;
    }
    var telegramId := from.value;
    var messages := Filter(db.messages.rows, OfUser(telegramId));
    requested := RequestDeletions(Filter(messages, NotSpared(dashboardId, exceptDashboard)));
    db.messages := db.messages.(rows := Filter(db.messages.rows, HistoryKept(telegramId, dashboardId, exceptDashboard)));
  }

  // ------------------------------------------------------ cleanupReactions

  /** bot_messages after deleting one user's REACTION rows. */
  function PurgeReactions(rows: seq<MessageRow>, telegramId: int): (r: seq<MessageRow>)
    ensures forall k :: 0 <= k < |r| ==> r[k] in rows && !(r[k].telegramId == telegramId && r[k].msgType == Reaction)
    ensures forall k :: 0 <= k < |rows| && (rows[k].telegramId != telegramId || rows[k].msgType != Reaction) ==> rows[k] in r
  {
    FilterMembers(rows, NotReactionOf(telegramId));
    Filter(rows, NotReactionOf(telegramId))
  }

  /** Purging twice is purging once. */
  lemma PurgeReactionsIdempotent(rows: seq<MessageRow>, telegramId: int)
    ensures PurgeReactions(PurgeReactions(rows, telegramId), telegramId) == PurgeReactions(rows, telegramId)
  {
    FilterKeepsAll(PurgeReactions(rows, telegramId), NotReactionOf(telegramId));
  }

  /** `cleanupReactions(telegram, telegramId)`: a falsy id does nothing. */
  method CleanupReactions(db: Db, telegramId: int) returns (requested: seq<int>)
    modifies db`messages
    ensures !TruthyInt(telegramId) ==> db.messages == old(db.messages) && requested == []
    ensures TruthyInt(telegramId) ==>
      db.messages == old(db.messages).(rows := PurgeReactions(old(db.messages.rows), telegramId))
      && requested == MessageIds(Filter(old(db.messages.rows), ReactionOf(telegramId)))
  {
    requested := [];
    if !TruthyInt(telegramId) {
      return;
    }
    var messages := Filter(db.messages.rows, ReactionOf(telegramId));
    requested := RequestDeletions(messages);
    db.messages := db.messages.(rows := Filter(db.messages.rows, NotReactionOf(telegramId)));
  }

  // ------------------------------------------------------------ TTL reaper

  /** The ids of `rows`. */
  function IdSet(rows: seq<MessageRow>): set<int>
  {
    if |rows| == 0 then {} else IdSet(rows[..|rows| - 1]) + {rows[|rows| - 1].id}
  }

  lemma {:induction false} IdSetHas(rows: seq<MessageRow>, id: int)
    ensures id in IdSet(rows) <==> exists k :: 0 <= k < |rows| && rows[k].id == id
  {
    if |rows| > 0 {
      var init := rows[..|rows| - 1];
      IdSetHas(init, id);
      if exists k :: 0 <= k < |init| && init[k].id == id {
        var k :| 0 <= k < |init| && init[k].id == id;
        assert rows[k] == init[k];
      }
      if exists k :: 0 <= k < |rows| && rows[k].id == id {
        var k :| 0 <= k < |rows| && rows[k].id == id;
        if k < |init| { assert init[k] == rows[k]; }
      }
    }
  }

  function IdNotIn(ids: set<int>): MessageRow -> bool
  {
    (r: MessageRow) => r.id !in ids
  }

  /** With unique ids, deleting the expired rows one id at a time leaves
      exactly the rows that have not expired. */
  lemma ExpiredIdsSelectExpired(rows: seq<MessageRow>, now: int)
    requires Distinct(rows, RowId)
    ensures Filter(rows, IdNotIn(IdSet(Filter(rows, Expired(now))))) == Filter(rows, Alive(now))
  {
    var expired := Filter(rows, Expired(now));
    FilterMembers(rows, Expired(now));
    forall k | 0 <= k < |rows|
      ensures IdNotIn(IdSet(expired))(rows[k]) <==> Alive(now)(rows[k])
    {
      IdSetHas(expired, rows[k].id);
      if rows[k].id in IdSet(expired) {
        var i :| 0 <= i < |expired| && expired[i].id == rows[k].id;
        var e := expired[i];
        assert e in rows;
        var j :| 0 <= j < |rows| && rows[j] == e;
        assert RowId(rows[j]) == RowId(rows[k]);
        assert j == k;
      }
    }
    FilterCongruent(rows, IdNotIn(IdSet(expired)), Alive(now));
  }

  /** Deleting by one more id. */
  lemma DeleteOneMoreId(before: seq<MessageRow>, done: seq<MessageRow>, msg: MessageRow)
    ensures Filter(Filter(before, IdNotIn(IdSet(done))), IdNotIn({msg.id}))
         == Filter(before, IdNotIn(IdSet(done + [msg])))
  {
    FilterCompose(before, IdNotIn(IdSet(done)), IdNotIn({msg.id}));
    assert (done + [msg])[..|done|] == done;
    assert IdSet(done + [msg]) == IdSet(done) + {msg.id};
    FilterCongruent(before, And(IdNotIn(IdSet(done)), IdNotIn({msg.id})), IdNotIn(IdSet(done + [msg])));
  }

  /** One tick of the TTL worker at time `now`. Every expired row is deleted
      by id after Telegram is asked to delete its message, whether or not
      that deletion succeeds; the (chat, message) pairs requested are
      returned. */
  method TtlTick(db: Db, now: int) returns (requested: seq<(int, int)>)
    requires MessageKeys(db.messages)
    modifies db`messages
    ensures db.messages == old(db.messages).(rows := Filter(old(db.messages.rows), Alive(now)))
    ensures requested == ChatMessages(Filter(old(db.messages.rows), Expired(now)))
  {
    ghost var before := db.messages.rows;
    var expired := Filter(db.messages.rows, Expired(now));
    requested := [];
    var i := 0;
    assert IdSet(expired[..0]) == {};
    FilterKeepsAll(before, IdNotIn({}));
    while i < |expired|
      invariant 0 <= i <= |expired|
      invariant db.messages.nextId == old(db.messages.nextId)
      invariant db.messages.rows == Filter(before, IdNotIn(IdSet(expired[..i])))
      invariant requested == ChatMessages(expired[..i])
    {
      var msg := expired[i];
      assert expired[..i + 1] == expired[..i] + [msg];
      ChatMessagesSnoc(expired[..i], msg);
      requested := requested + [(msg.telegramId, msg.messageId)];
      DeleteOneMoreId(before, expired[..i], msg);
      assert expired[..i + 1] == expired[..i] + [msg];
      db.messages := db.messages.(rows := Filter(db.messages.rows, IdNotIn({msg.id})));
      i := i + 1;
    }
    assert expired[..i] == expired;
    ExpiredIdsSelectExpired(before, now);
  }

  /** A TTL tick never removes a row without a deadline, nor one whose
      deadline is still ahead, and leaves no expired row behind. */
  lemma TtlTickExact(rows: seq<MessageRow>, now: int)
    ensures forall k :: 0 <= k < |rows| && (rows[k].deleteAt.None? || rows[k].deleteAt.value >= now) ==>
      rows[k] in Filter(rows, Alive(now))
    ensures forall r :: r in Filter(rows, Alive(now)) ==> !IsExpired(r, now)
  {
    FilterMembers(rows, Alive(now));
  }
}
