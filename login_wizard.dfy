// The login scene of src/bot/scenes/login.js: a three-step Telegraf wizard
// that asks for the Gameloft e-mail, starts the browser login, and submits
// the one-time code, then records the account and the first collection.
//
// `Wizard` is the scene as its authors evidently meant it, with
// `cleanupReactions` available. As the file is written the function is never
// imported, so the first step throws before it does anything and the wizard
// never moves (`StepAsWritten`).
//
// Telegram's replies are taken to succeed and are given as the message ids
// they return; the browser is an oracle as in the `Automation` module.
module LoginWizard {
  import opened Common
  import opened Store
  import opened MessageBook
  import opened Automation
  import opened Handlers

  // ------------------------------------------------------ the e-mail pattern

  /** `[^\s@]+`: a non-empty run of characters that are neither whitespace
      nor '@'. */
  predicate PlainRun(s: string)
  {
    |s| > 0 && forall k :: 0 <= k < |s| ==> !IsJsSpace(s[k]) && s[k] != '@'
  }

  /** `/^[^\s@]+@[^\s@]+\.[^\s@]+$/.test(s)`: an '@' at `i` and a '.' at `j`
      cut `s` into three plain runs. */
  predicate MatchesEmailPattern(s: string)
  {
    exists i, j :: 0 <= i < j < |s| && s[i] == '@' && s[j] == '.'
      && PlainRun(s[..i]) && PlainRun(s[i + 1..j]) && PlainRun(s[j + 1..])
  }

  /** The same language in words: no whitespace, exactly one '@' with
      something before it, and after it a '.' with at least one character
      on each side. */
  predicate EmailShape(s: string)
  {
    (forall k :: 0 <= k < |s| ==> !IsJsSpace(s[k]))
    && exists i :: 0 < i < |s| && s[i] == '@' && (forall k :: 0 <= k < |s| && s[k] == '@' ==> k == i)
         && exists j :: i + 1 < j < |s| - 1 && s[j] == '.'
  }

  /** The pattern accepts exactly the strings of that shape. */
  lemma EmailPatternIff(s: string)
    ensures MatchesEmailPattern(s) <==> EmailShape(s)
  {
    if MatchesEmailPattern(s) {
      PatternHasShape(s);
    }
    if EmailShape(s) {
      ShapeMatchesPattern(s);
    }
  }

  lemma PatternHasShape(s: string)
    requires MatchesEmailPattern(s)
    ensures EmailShape(s)
  {
    var i, j :| 0 <= i < j < |s| && s[i] == '@' && s[j] == '.'
      && PlainRun(s[..i]) && PlainRun(s[i + 1..j]) && PlainRun(s[j + 1..]);
    var local, mid, top := s[..i], s[i + 1..j], s[j + 1..];
    forall k | 0 <= k < |s| ensures !IsJsSpace(s[k]) && (s[k] == '@' ==> k == i) {
      if k < i {
        assert s[k] == local[k];
      } else if i < k < j {
        assert s[k] == mid[k - i - 1];
      } else if j < k {
        assert s[k] == top[k - j - 1];
      }
    }
    assert 0 < i && i + 1 < j < |s| - 1;
  }

  lemma ShapeMatchesPattern(s: string)
    requires EmailShape(s)
    ensures MatchesEmailPattern(s)
  {
    var i :| 0 < i < |s| && s[i] == '@' && (forall k :: 0 <= k < |s| && s[k] == '@' ==> k == i)
      && exists j :: i + 1 < j < |s| - 1 && s[j] == '.';
    var j :| i + 1 < j < |s| - 1 && s[j] == '.';
    var local, mid, top := s[..i], s[i + 1..j], s[j + 1..];
    forall k | 0 <= k < |local| ensures !IsJsSpace(local[k]) && local[k] != '@' {
      assert local[k] == s[k];
    }
    forall k | 0 <= k < |mid| ensures !IsJsSpace(mid[k]) && mid[k] != '@' {
      assert mid[k] == s[i + 1 + k];
    }
    forall k | 0 <= k < |top| ensures !IsJsSpace(top[k]) && top[k] != '@' {
      assert top[k] == s[j + 1 + k];
    }
    assert PlainRun(local) && PlainRun(mid) && PlainRun(top);
  }

  // --------------------------------------------------------- the phases

  const StartCommand: string := "/start"
  const CancelCommand: string := "/cancel"

  /** One update reaching the scene: the message text (None when the update
      carries no message, "" for a message without text), and what
      `init` followed by `startLogin` did (`Threw` when `init` threw). */
  datatype Update = Update(message: Option<string>, login: Completion<string>)

  /** `ctx.message.text?.trim() || ''`. */
  function TextOf(u: Update): string
  {
    if u.message.Some? then Trim(u.message.value) else ""
  }

  predicate IsCancel(text: string)
  {
    text == StartCommand || text == CancelCommand
  }

  /** Where the wizard is: the step cursor, and whether the user is still in
      the scene. */
  datatype Phase = Phase(cursor: nat, inScene: bool)

  /** The wizard's moves. Step 0 asks for the e-mail. Step 1 ignores an
      update without a message, leaves on /start or /cancel, stays on a
      string the pattern rejects, and otherwise moves to step 2 exactly when
      `startLogin` answered NEED_OTP, leaving on any other answer or an
      exception. Step 2 leaves once a message arrived. */
  function NextPhase(p: Phase, u: Update): Phase
  {
    if p.cursor == 0 then Phase(1, true)
    else if p.cursor == 1 then
      if u.message.None? then p
      else if IsCancel(TextOf(u)) then p.(inScene := false)
      else if !MatchesEmailPattern(TextOf(u)) then p
      else if u.login == Returned(NeedOtp) then Phase(2, true)
      else p.(inScene := false)
    else if u.message.None? then p
    else p.(inScene := false)
  }

  /** From the e-mail step the wizard reaches the code step exactly when a
      message arrived whose trimmed text is an e-mail and `startLogin`
      answered NEED_OTP; it leaves exactly on /start, /cancel, or an e-mail
      whose login did not answer NEED_OTP. */
  lemma EmailStepMoves(u: Update)
    ensures NextPhase(Phase(1, true), u).cursor == 2 <==>
      u.message.Some? && !IsCancel(TextOf(u)) && EmailShape(TextOf(u)) && u.login == Returned(NeedOtp)
    ensures !NextPhase(Phase(1, true), u).inScene <==>
      u.message.Some? && (IsCancel(TextOf(u)) || (EmailShape(TextOf(u)) && u.login != Returned(NeedOtp)))
  {
    EmailPatternIff(TextOf(u));
  }

  // ---------------------------------------------------- the scene's writes

  /** `UPDATE users SET email = ?, status = "ACTIVE"`. */
  function Activate(email: string): User -> User
  {
    (u: User) => u.(email := email, status := Active)
  }

  /** `INSERT OR IGNORE INTO user_emails`. */
  function InsertOrIgnore(rows: seq<EmailRow>, row: EmailRow): seq<EmailRow>
  {
    if row in rows then rows else rows + [row]
  }

  /** The row is there afterwards, nothing else is added or lost, and the
      table's uniqueness is kept; inserting again changes nothing. */
  lemma InsertOrIgnoreEffect(rows: seq<EmailRow>, row: EmailRow)
    requires UniqueEmailRows(rows)
    ensures var r := InsertOrIgnore(rows, row);
      UniqueEmailRows(r) && row in r
      && (forall x :: x in r <==> x in rows || x == row)
      && InsertOrIgnore(r, row) == r
      && (row in rows ==> r == rows)
  {
    if row !in rows {
      var r := rows + [row];
      forall a, b | 0 <= a < b < |r| ensures EmailRowKey(r[a]) != EmailRowKey(r[b]) {
        if b == |rows| {
          assert r[a] in rows;
        } else {
          assert r[a] == rows[a] && r[b] == rows[b];
        }
      }
    }
  }

  /** The collection_logs row of the first collection: only a positive
      count is logged. A SESSION_LOST answer destructures to an undefined
      count and is not logged. */
  function FirstLog(uid: int, result: CollectResult, now: int): (r: seq<LogRow>)
    ensures |r| <= 1
    ensures |r| == 1 <==> result.Rewards? && result.count > 0
    ensures |r| == 1 ==> r[0] == LogRow(uid, now, SuccessStatus, result.count)
  {
    if result.Rewards? && result.count > 0 then [LogRow(uid, now, SuccessStatus, result.count)] else []
  }

  /** How many reward photos are sent: one per image, and only after a
      positive count. */
  function PhotoCount(result: CollectResult): nat
  {
    if result.Rewards? && result.count > 0 then |result.images| else 0
  }

  /** The login answer the step sees: `init` throws unless the browser
      launched, then `startLogin` answers. */
  function LoginOutcome(launch: Launch, page: LoginPage): Completion<string>
  {
    if launch.Launched? then Returned(StartLoginResult(page)) else Threw
  }

  /** The user's row after a successful code: e-mail and status ACTIVE, the
      other columns and every other user untouched. */
  lemma ActivateEffect(users: seq<User>, uid: int, email: string, other: int)
    requires UniqueUserIds(users)
    ensures FindUser(Patch(users, uid, Activate(email)), uid) ==
      if FindUser(users, uid).Some? then Some(FindUser(users, uid).value.(email := email, status := Active)) else None
    ensures other != uid ==> FindUser(Patch(users, uid, Activate(email)), other) == FindUser(users, other)
  {
    FindAfterPatch(users, uid, uid, Activate(email));
    FindAfterPatch(users, uid, other, Activate(email));
  }

  // ------------------------------------------------------------- the scene

  class Wizard {
    const uid: int
    var cursor: nat
    var inScene: bool
    /** `ctx.wizard.state.email`. */
    var email: string
    /** `ctx.wizard.state.automation`. */
    var automation: Browser?

    /** `ctx.scene.enter('LOGIN_SCENE')`: empty wizard state at step 0. */
    constructor (uid: int)
      ensures this.uid == uid && cursor == 0 && inScene && email == "" && automation == null
    {
      this.uid := uid;
      cursor := 0;
      inScene := true;
      email := "";
      automation := null;
    }

    /** Step 0: the user's REACTION rows are purged, the prompt is sent and
        tracked, and the wizard moves on. */
    method AskEmail(db: Db, prompt: int, now: int)
      requires cursor == 0 && inScene
      modifies this`cursor, db`messages
      ensures cursor == 1 && inScene
      ensures db.messages == TrackSent(Reactionless(old(db.messages), uid), uid, Some(prompt), now)
    {
      var requested := CleanupReactions(db, uid);
      TrackMsg(db, uid, prompt, Reaction, None, now);
      cursor := 1;
    }

    /** Step 1. `wait` and `reply` are the ids of the "initialising" message
        and of the message that follows the login attempt (the invalid-e-mail
        notice when the pattern rejects the text). */
    method HandleEmail(db: Db, message: Option<string>, launch: Launch, page: LoginPage, wait: int, reply: int, now: int)
      returns (browser: Browser?)
      requires cursor == 1 && inScene
      modifies this`cursor, this`inScene, this`email, this`automation, db`messages
      ensures var u := Update(message, LoginOutcome(launch, page));
        Phase(cursor, inScene) == NextPhase(old(Phase(cursor, inScene)), u)
      ensures var text := TextOf(Update(message, Threw));
        if message.None? || IsCancel(text) then
          browser == null && email == old(email) && automation == old(automation) && db.messages == old(db.messages)
        else if !MatchesEmailPattern(text) then
          browser == null && email == old(email) && automation == old(automation)
          && db.messages == TrackSent(Reactionless(old(db.messages), uid), uid, Some(reply), now)
        else
          var waited := TrackSent(Reactionless(old(db.messages), uid), uid, Some(wait), now);
          browser != null && fresh(browser) && browser.email == text && browser.telegramId == uid
          && email == text
          && (!launch.Launched? ==>
                db.messages == waited && automation == old(automation)
                && browser.closeRequests == (if browser.hasContext then 1 else 0))
          && (launch.Launched? ==>
                db.messages == TrackSent(Reactionless(waited, uid), uid, Some(reply), now)
                && if StartLoginResult(page) == NeedOtp then automation == browser && browser.closeRequests == 0
                   else automation == old(automation) && browser.closeRequests == 1)
    {
      browser := null;
      if message.None? {
        return;
      }
      var text := Trim(message.value);
      if text == StartCommand || text == CancelCommand {
        inScene := false;
        return;
      }
      if !MatchesEmailPattern(text) {
        var requested := CleanupReactions(db, uid);
        TrackMsg(db, uid, reply, Reaction, None, now);
        return;
      }
      email := text;
      var next;
      browser, next := TryLogin(db, text, launch, page, wait, reply, now);
      if next {
        automation := browser;
        cursor := 2;
      } else {
        inScene := false;
      }
    }

    /** The rest of step 1 once the text is an e-mail: the wait message, the
        browser, and `startLogin`; `next` says whether it answered NEED_OTP.
        On any other outcome the browser is closed. */
    method TryLogin(db: Db, text: string, launch: Launch, page: LoginPage, wait: int, reply: int, now: int)
      returns (browser: Browser, next: bool)
      modifies db`messages
      ensures fresh(browser) && browser.email == text && browser.telegramId == uid
      ensures next <==> LoginOutcome(launch, page) == Returned(NeedOtp)
      ensures var waited := TrackSent(Reactionless(old(db.messages), uid), uid, Some(wait), now);
        (!launch.Launched? ==>
           db.messages == waited && browser.closeRequests == (if browser.hasContext then 1 else 0))
        && (launch.Launched? ==>
              db.messages == TrackSent(Reactionless(waited, uid), uid, Some(reply), now)
              && browser.closeRequests == (if next then 0 else 1))
    {
      ghost var before := db.messages;
      var requested := CleanupReactions(db, uid);
      assert db.messages == Reactionless(before, uid);
      TrackMsg(db, uid, wait, Reaction, None, now);
      ghost var waited := db.messages;
      assert waited == TrackSent(Reactionless(before, uid), uid, Some(wait), now);
      browser := new Browser(text, uid);
      var threw := browser.Init(launch);
      if threw {
        var closed := browser.Close();
        return browser, false;
      }
      var result := browser.StartLogin(page);
      assert LoginOutcome(launch, page) == Returned(result);
      requested := CleanupReactions(db, uid);
      assert db.messages == Reactionless(waited, uid);
      next := result == NeedOtp;
      TrackMsg(db, uid, reply, Reaction, None, now);
      if !next {
        var closed := browser.Close();
      }
    }

    /** Step 2. `reply` is the id of the success or failure message and
        `photos` the ids Telegram returned for the reward photos. */
    method HandleOtp(db: Db, message: Option<string>, otp: OtpPage, store: StorePage, reply: int,
                     photos: seq<Option<int>>, now: int)
      requires cursor == 2 && inScene && automation != null
      modifies this`inScene, automation`closeRequests, db`users, db`userEmails, db`logs, db`messages
      ensures Phase(cursor, inScene) == NextPhase(old(Phase(cursor, inScene)), Update(message, Threw))
      ensures message.None? ==>
        db.users == old(db.users) && db.userEmails == old(db.userEmails) && db.logs == old(db.logs)
        && db.messages == old(db.messages) && automation.closeRequests == old(automation.closeRequests)
      ensures message.Some? ==>
        var purged := Reactionless(old(db.messages), uid);
        automation.closeRequests == old(automation.closeRequests) + (if automation.hasContext then 1 else 0)
        && if !otp.fault && !otp.codeFieldStillVisible then
             var result := Collect(store);
             db.users == Patch(old(db.users), uid, Activate(email))
             && db.userEmails == InsertOrIgnore(old(db.userEmails), EmailRow(uid, email))
             && db.logs == old(db.logs) + FirstLog(uid, result, now)
             && db.messages == TrackPhotos(TrackSent(purged, uid, Some(reply), now), uid, photos, PhotoCount(result), now)
           else
             db.users == old(db.users) && db.userEmails == old(db.userEmails) && db.logs == old(db.logs)
             && db.messages == TrackSent(purged, uid, Some(reply), now)
    {
      if message.None? {
        return;
      }
      var text := Trim(message.value);
      var browser := automation;
      var success := browser.SubmitOtp(text, otp);
      var requested := CleanupReactions(db, uid);
      if success {
        var result := browser.CollectRewards(store);
        var closed := browser.Close();
        RecordLogin(db, uid, email, result, reply, photos, now);
      } else {
        var closed := browser.Close();
        TrackMsg(db, uid, reply, Reaction, None, now);
      }
      inScene := false;
    }
  }

  /** The writes after a successful code: the account, its e-mail, the
      result message, and for a positive count the log row and the photos. */
  method RecordLogin(db: Db, uid: int, email: string, result: CollectResult, reply: int,
                     photos: seq<Option<int>>, now: int)
    modifies db`users, db`userEmails, db`logs, db`messages
    ensures db.users == Patch(old(db.users), uid, Activate(email))
    ensures db.userEmails == InsertOrIgnore(old(db.userEmails), EmailRow(uid, email))
    ensures db.logs == old(db.logs) + FirstLog(uid, result, now)
    ensures db.messages == TrackPhotos(TrackSent(old(db.messages), uid, Some(reply), now), uid, photos, PhotoCount(result), now)
  {
    db.users := Patch(db.users, uid, Activate(email));
    db.userEmails := InsertOrIgnore(db.userEmails, EmailRow(uid, email));
    TrackMsg(db, uid, reply, Reaction, None, now);
    if result.Rewards? && result.count > 0 {
      db.logs := db.logs + [LogRow(uid, now, SuccessStatus, result.count)];
      SendPhotos(db, uid, photos, |result.images|, now);
    }
  }

  // ------------------------------------------------------- as it is written

  /** What an update does to the scene as login.js is written, and whether
      it throws: every step reaches a call to the missing `cleanupReactions`
      (lines 14, 26 and 33, and 66) unless it returns before it. */
  function StepAsWritten(p: Phase, u: Update): (Phase, bool)
  {
    if p.cursor == 0 then (p, true)
    else if p.cursor == 1 then
      if u.message.None? then (p, false)
      else if IsCancel(TextOf(u)) then (p.(inScene := false), false)
      else (p, true)
    else if u.message.None? then (p, false)
    else (p, true)
  }

  /** The phase after a run of updates, as written. */
  function RunAsWritten(p: Phase, updates: seq<Update>): Phase
  {
    if |updates| == 0 then p
    else StepAsWritten(RunAsWritten(p, updates[..|updates| - 1]), updates[|updates| - 1]).0
  }

  function RunIntended(p: Phase, updates: seq<Update>): Phase
  {
    if |updates| == 0 then p
    else NextPhase(RunIntended(p, updates[..|updates| - 1]), updates[|updates| - 1])
  }

  /** As written, a user who enters the scene stays at step 0 whatever
      arrives, and every update throws. */
  lemma {:induction false} AsWrittenStaysAtFirstStep(updates: seq<Update>)
    ensures RunAsWritten(Phase(0, true), updates) == Phase(0, true)
    ensures forall k :: 0 <= k < |updates| ==> StepAsWritten(RunAsWritten(Phase(0, true), updates[..k]), updates[k]).1
  {
    if |updates| > 0 {
      var init := updates[..|updates| - 1];
      AsWrittenStaysAtFirstStep(init);
      forall k | 0 <= k < |updates|
        ensures StepAsWritten(RunAsWritten(Phase(0, true), updates[..k]), updates[k]).1
      {
        if k < |updates| - 1 {
          assert updates[..k] == init[..k] && updates[k] == init[k];
        } else {
          assert updates[..k] == init;
        }
      }
    }
  }

  /** The run that shows it: entering the scene, then sending
      "a@b.c" for an account whose login asks for a code. The intended
      wizard waits for the code; the written one is still at step 0. */
  lemma EmailRunDiverges()
    ensures var updates := [Update(None, Threw), Update(Some(SampleEmail), Returned(NeedOtp))];
      RunIntended(Phase(0, true), updates) == Phase(2, true)
      && RunAsWritten(Phase(0, true), updates) == Phase(0, true)
  {
    var updates := [Update(None, Threw), Update(Some(SampleEmail), Returned(NeedOtp))];
    var entered := updates[..1];
    assert entered[..0] == [];
    assert RunIntended(Phase(0, true), entered) == Phase(1, true);
    assert updates[..|updates| - 1] == entered;
    SampleEmailAccepted();
    assert NextPhase(Phase(1, true), updates[1]) == Phase(2, true);
    AsWrittenStaysAtFirstStep(updates);
  }

  const SampleEmail: string := "a@b.c"

  lemma SampleEmailAccepted()
    ensures TextOf(Update(Some(SampleEmail), Threw)) == SampleEmail
    ensures MatchesEmailPattern(SampleEmail) && !IsCancel(SampleEmail)
  {
    SampleEmailTrimmed();
    SampleEmailMatches();
    SampleEmailNotCommand();
  }

  lemma SampleEmailNotCommand()
    ensures !IsCancel(SampleEmail)
  {
    assert |SampleEmail| == 5 && |StartCommand| == 6 && |CancelCommand| == 7;
  }

  lemma SampleEmailTrimmed()
    ensures Trim(SampleEmail) == SampleEmail
  {
    var s := SampleEmail;
    assert s[0] == 'a' && s[4] == 'c';
    TrimOfTrimmed(s);
  }

  lemma SampleEmailMatches()
    ensures MatchesEmailPattern(SampleEmail)
  {
    var s := SampleEmail;
    assert s[1] == '@' && s[3] == '.';
    assert s[..1] == "a" && s[2..3] == "b" && s[4..] == "c";
    assert PlainRun("a") && PlainRun("b") && PlainRun("c");
  }
}
