# AsphaltDailyRewards in Dafny

AsphaltDailyRewards is a Telegram bot. It signs a user's Gameloft Club account in through a headless browser and collects the free daily rewards of the Asphalt Legends web shop. An admin API queues commands for it. This project models the bot's decision logic over its SQLite tables and proves properties about it. Two generations of the bot are modelled:

- the modular bot (`src/…`);
- the older single-file bot (`bot.js` with `automation.js`).

The browser, Telegram and the clock are not modelled as code. Every observation they supply is a parameter:

- Playwright answers (is the login button visible, did the click succeed, the image `src` read);
- message ids returned by Telegram, or `None` when a send failed;
- the current time in milliseconds.

Tables are fields of `Store.Db`, a class whose methods reassign them. The in-memory `activeTasks` set and the `lastActions` cooldown map are fields of `Handlers.Coordinator` and `LegacyBot.Bot`.

Modules, one per source file:

| module | file | models |
|---|---|---|
| `Common` | `common.dfy` | `Filter` over sequences and its laws; JavaScript `String.prototype.trim`; JavaScript truthiness |
| `Store` | `store.dfy` | the rows of `users`, `user_emails`, `collection_logs`, `bot_messages`, `admin_commands` and `system_config` (src/database/index.js), keyed updates, and the `Db` class |
| `MessageBook` | `message_book.dfy` | src/bot/utils.js: `trackMsg` upsert, `cleanupHistory`, `cleanupReactions`, the TTL worker tick |
| `Automation` | `automation.dfy` | src/services/automation.js: `init`, `startLogin`, `submitOtp`, the two-slot `collectRewards` loop, `close` |
| `LegacyAutomation` | `legacy_automation.dfy` | automation.js: the older routines, whose errors propagate to the caller |
| `Handlers` | `handlers.dfy` | src/bot/handlers.js: cooldowns, action gates, the e-mail list, the per-user collection run, the scheduler tick |
| `AdminPoller` | `admin_poller.dfy` | src/api/admin_poller.js: the PENDING → PROCESSING → COMPLETED/FAILED tick and each command's effect |
| `AdminApi` | `admin_api.dfy` | src/api/index.js: the status route and the routes that enqueue commands |
| `LoginWizard` | `login_wizard.dfy` | src/bot/scenes/login.js: the three-step login scene and the e-mail pattern |
| `LegacyBot` | `legacy_bot.dfy` | bot.js: cooldowns, gates, the wizard, collection, the scheduler and the admin poller of the older bot |

A JavaScript `try`/`catch` becomes a result value. Two datatypes carry it:

- `Completion` (`Returned(v)` or `Threw`);
- a `threw` out-parameter.

A promise that is started but not awaited is reported as a "started" id. These are the runs of the scheduler and of TRIGGER_COLLECT. The run itself is the separate method `RunCollectionForUser`.

## Model

| member | source | states |
|---|---|---|
| Common.Trim | src/bot/scenes/login.js:22 | the trimmed text has no JavaScript whitespace at either end, is no longer than the input and holds only characters of the input |
| Common.TrimIdempotent | bot.js:146 | trimming an already trimmed message changes nothing |
| Store.FreshUser | src/database/index.js:17-26 | a row inserted with only id, e-mail and status takes the column defaults: not premium, not blocked, no check status and no check time |
| Store.FindUser | src/bot/handlers.js:39 | the lookup by primary key finds nothing exactly when no row has the id, and otherwise returns a row of the table with that id |
| Store.Patch | src/bot/handlers.js:219 | `UPDATE … WHERE telegram_id = ?` keeps the number and keys of rows, rewrites the rows with the id and leaves every other row as it was |
| Store.FindAfterPatch | src/bot/handlers.js:219 | after an update the keys stay unique, the updated user is found with the new values, and every other id finds what it found before |
| Store.EmailsOf | src/bot/handlers.js:45 | an e-mail is listed for a user exactly when the `(user_id, email)` row exists |
| Store.Append | src/api/index.js:132-133 | an INSERT into `admin_commands` keeps every old row as a prefix and adds one row holding the given columns, PENDING, stamped with the current time, under an id no old row has and below the new counter |
| Store.AppendKeepsKeys | src/database/index.js:46-52 | appending keeps ids unique and below the next id, and keeps `created_at` non-decreasing in insertion order |
| Store.Db.constructor | src/database/index.js:16-77 | a new database has empty tables |
| MessageBook.RequestDeletions | src/bot/utils.js:66-69 | one Telegram delete is requested per selected row, in row order |
| MessageBook.DeleteAtFor | src/bot/utils.js:8-11 | `delete_at` is null exactly when the ttl is falsy, and otherwise lies ttl × 1000 ms after now |
| MessageBook.TrackKeepsKeys | src/bot/utils.js:12-13 | `INSERT OR REPLACE` keeps the autoincrement key valid and keeps at most one row per `(telegram_id, message_id)`, as `UNIQUE` demands |
| MessageBook.TrackUpserts | src/bot/utils.js:5-13 | with truthy ids, exactly one row for the message remains after tracking, and it is the new one; the rows of every other message are kept |
| MessageBook.TrackedRowExpiry | src/bot/utils.js:8-11 | a tracked row is reaped at a later time exactly when the ttl was truthy and now + ttl × 1000 is before that time |
| MessageBook.TrackMsg | src/bot/utils.js:4-17 | the method leaves the table as the upsert model says, a no-op when either id is falsy |
| MessageBook.PurgeHistory | src/bot/utils.js:44-48 | other users' rows are kept; the user keeps a row only when it is the spared dashboard; the spared dashboard is never removed |
| MessageBook.CleanupHistory | src/bot/utils.js:33-50 | with no sender nothing happens; otherwise the table is purged as `PurgeHistory` says, and deletes are requested for every row of the user except the spared dashboard |
| MessageBook.PurgeReactions | src/bot/utils.js:70 | exactly the user's REACTION rows are removed; every other row is kept |
| MessageBook.PurgeReactionsIdempotent | src/bot/utils.js:65-70 | purging reactions twice is purging once |
| MessageBook.CleanupReactions | src/bot/utils.js:52-72 | with a falsy id nothing happens; otherwise deletes are requested for the user's REACTION rows and those rows are removed |
| MessageBook.ExpiredIdsSelectExpired | src/bot/utils.js:79-83 | deleting by the ids of the expired rows, one at a time, leaves exactly the rows that are not expired |
| MessageBook.TtlTick | src/bot/utils.js:74-87 | a tick keeps exactly the rows that are not expired, even when Telegram deletes fail, and requests a delete for each expired `(chat, message)` |
| MessageBook.TtlTickExact | src/bot/utils.js:79 | a row with null `delete_at`, or one not strictly before now, survives the tick; no surviving row is expired |
| Automation.Recorded | src/services/automation.js:137-139 | a slot records at most one image URL, and only a non-empty one |
| Automation.SlotLoop | src/services/automation.js:124-156 | the slot loop always returns rewards, whose count is 0 after a fault outside a slot's `try` and otherwise at least what was collected before it started |
| Automation.Collect | src/services/automation.js:102-118 | `SESSION_LOST` is returned exactly when the login button is visible, the reload succeeds and the button is still visible afterwards |
| Automation.SlotLoopBounds | src/services/automation.js:124-157 | from a valid loop state the count is at most 2, there are at most 2 images, at most count + 1 of them, and none is empty |
| Automation.CollectBounds | src/services/automation.js:121-157 | every reward result has count ≤ 2 and at most min(2, count + 1) non-empty images |
| Automation.FailureInSlotKeepsEarlierClaim | src/services/automation.js:132-157 | when the second slot fails inside its `try`, the first slot's claim and its image are still returned |
| Automation.FaultOutsideSlotDiscardsClaims | src/services/automation.js:158-161 | a fault outside a slot's `try` discards earlier claims and yields count 0 with no images |
| Automation.TwoClaims | src/services/automation.js:124-148 | two successful slots yield count 2 with both slots' images |
| Automation.Browser.constructor | src/services/automation.js:7-13 | a new automation has its e-mail and user id and no browser context |
| Automation.Browser.Init | src/services/automation.js:24-36 | `init` throws exactly when the launch did not fully succeed, and a context exists once the persistent context was created |
| Automation.Browser.StartLogin | src/services/automation.js:56-80 | a navigation fault returns its message; a hidden login button returns `ALREADY_LOGGED`; otherwise a form fault's message or `NEED_OTP` |
| Automation.Browser.SubmitOtp | src/services/automation.js:82-96 | the OTP is accepted exactly when no step threw and the five-character input is gone after the wait |
| Automation.Browser.CollectRewards | src/services/automation.js:98-162 | the imperative routine returns what `Collect` specifies, with the same counter and image list |
| Automation.Browser.Close | src/services/automation.js:164-170 | `close` always returns true, and asks the browser to close only when a context was opened |
| LegacyAutomation.StartLoginOutcome | automation.js:52-91 | a navigation fault throws; `ALREADY_LOGGED` exactly when the login click failed and a nickname shows or the button is gone; `FAILED: UI_NOT_READY` exactly when the e-mail form failed after the first gate passed |
| LegacyAutomation.SlotLoop | automation.js:140-174 | a slot loop that does not throw returns rewards |
| LegacyAutomation.Collect | automation.js:115-134 | `SESSION_LOST` is returned exactly when the login button survives one reload |
| LegacyAutomation.SlotLoopBounds | automation.js:140-175 | the count is at most 2, and the screenshot list holds count or count + 1 paths, numbered by slot |
| LegacyAutomation.CollectBounds | automation.js:137-175 | a returned reward result has count ≤ 2 and a screenshot list of length count or count + 1 |
| LegacyAutomation.TileTextStopsLoop | automation.js:148-160 | a tile whose trimmed text is not exactly "Free" ends the loop with nothing new; a failing click after the screenshot ends it with one more screenshot and the same count |
| LegacyAutomation.Browser.constructor | automation.js:6-12 | a new automation has its e-mail and user id and no context |
| LegacyAutomation.Browser.Init | automation.js:19-32 | `init` throws unless both the context and its page were obtained; a context is stored unless launching the context itself failed, so a failed `newPage` leaves one for `close` |
| LegacyAutomation.Browser.StartLogin | automation.js:52-91 | the routine's outcome, a value or a thrown error, is `StartLoginOutcome` of the page |
| LegacyAutomation.Browser.SubmitOtp | automation.js:93-113 | the OTP step throws exactly when the form or the revisit fails, and otherwise reports whether the login button is hidden |
| LegacyAutomation.Browser.CollectRewards | automation.js:115-176 | the imperative routine returns what `Collect` specifies |
| LegacyAutomation.Browser.Close | automation.js:178-184 | a close is requested only with a context; a failing close throws, otherwise true is returned |
| Handlers.CooldownWait | src/bot/handlers.js:18 | the wait is 0 exactly when the cooldown has passed; otherwise it is the remaining time rounded up to whole seconds |
| Handlers.RecordOnlyTouches | src/bot/handlers.js:19-20 | recording a time changes only that user's entry for that action |
| Handlers.CooldownAfterRecord | src/bot/handlers.js:14-21 | after an action is recorded at `now`, it is free again exactly when `seconds` have passed since `now` |
| Handlers.CheckGate | src/bot/handlers.js:233-234 | the check and collect gates ask to log in exactly when the user is missing or not ACTIVE, and admit exactly when the user is ACTIVE and not blocked |
| Handlers.CollectGate | src/bot/handlers.js:266-272 | `action_collect` adds the trial gate: it admits exactly when the check gate admits and the user is premium or within the trial |
| Handlers.MissingTrialDateRefuses | src/bot/handlers.js:269-272 | a non-premium user with no `trial_expires_at` is always past the trial (`new Date(null)` is the epoch) |
| Handlers.AuthGate | src/bot/handlers.js:190-207 | `action_auth` crashes on a missing user, refuses blocked users, and enters the scene exactly when the user is unblocked, premium or not ACTIVE, under 3 e-mails if premium, and not busy |
| Handlers.EmailsToProcess | src/bot/handlers.js:40-53 | a missing or blocked user gives no e-mails; premium gives its `user_emails`, or its own e-mail when there are none; otherwise `user.email \|\| emailHint`; empty entries are dropped |
| Handlers.LastSuccess | src/bot/handlers.js:298-299 | the time of the latest SUCCESS row with rewards for the user, or none exactly when there is no such row |
| Handlers.DueIff | src/bot/handlers.js:298-300 | a user is due exactly when every nonzero SUCCESS row is at least 24 h old, and, with no such row, the clock is at least 24 h past the epoch |
| Handlers.SchedulerPicksExact | src/bot/handlers.js:291-300 | a user is picked exactly when the system is not paused, the user is ACTIVE, premium, unblocked, not busy and due; every pick is such a user of the table |
| Handlers.WithRewardImages | src/bot/handlers.js:24-35 | fewer than 2 images leave the config as it was; otherwise both image keys hold the first two images and every other key is kept |
| Handlers.WithRewardImagesIdempotent | src/bot/handlers.js:30-32 | storing the same images again changes nothing, which is the case the comparison skips |
| Handlers.RunAppendsLogs | src/bot/handlers.js:55-100 | a run over the e-mails appends to `collection_logs` exactly the rows of `LogsFor`, and keeps the old rows |
| Handlers.LogsForShape | src/bot/handlers.js:75-78 | a run writes at most one row per e-mail, each a SUCCESS of this user, at this time, with 1 or 2 rewards |
| Handlers.RunKeepsMessageKeys | src/bot/handlers.js:62-93 | a run keeps `bot_messages` keys valid and one row per message |
| Handlers.SendPhotos | src/bot/handlers.js:85-88 | each reward photo Telegram returned is tracked as a REACTION, in order |
| Handlers.CollectOneEmail | src/bot/handlers.js:56-99 | one e-mail's pass leaves the tables as `EmailStep` says: nothing when `init` throws, otherwise the reactions purge and the recorded result |
| Handlers.RecordResult | src/bot/handlers.js:64-95 | a SESSION_LOST result only tracks the notice; count > 0 stamps `last_check_at`, logs a SUCCESS row, stores the images and tracks notice and photos; count 0 tracks the notice only |
| Handlers.RunCollectionForUser | src/bot/handlers.js:37-101 | the method applies one pass per e-mail of `EmailsToProcess`, in order |
| Handlers.LogoutReopensAuth | src/bot/handlers.js:210-228 | after a logout, an unblocked user is sent into the login scene by `action_auth` again |
| Handlers.Coordinator.constructor | src/bot/handlers.js:11-12 | the coordinator starts with no busy users and no cooldowns |
| Handlers.Coordinator.CheckCooldown | src/bot/handlers.js:14-22 | returns the remaining wait, and records now only when the wait is 0 |
| Handlers.Coordinator.ActionLogout | src/bot/handlers.js:210-228 | only an ACTIVE user is logged out: status NEED_AUTH, every `user_emails` row of the user deleted, the user not busy afterwards; any other user changes nothing |
| Handlers.Coordinator.ActionCheck | src/bot/handlers.js:230-261 | refusal and cooldown change nothing; otherwise the cooldown is recorded, the user is released in `finally`, demoted only when the probe says logged out, and reactions are purged only when the probe completed |
| Handlers.RunSessionPeek | src/bot/handlers.js:242-256 | the `try` of `action_check` answers the probe's result; only a completed probe purges the user's reactions, and only a logged-out answer demotes the user |
| Handlers.Coordinator.ActionCollect | src/bot/handlers.js:263-284 | refusal and cooldown change nothing; otherwise the cooldown is recorded and the user is marked busy without a membership test |
| Handlers.Coordinator.Release | src/bot/handlers.js:280-283 | a settled run removes exactly that user from `activeTasks` |
| Handlers.Coordinator.SchedulerTick | src/bot/handlers.js:287-307 | the tick starts exactly `SchedulerPicks`, in table order, and marks each of them busy |
| Handlers.PickIdle | src/bot/handlers.js:296-304 | the loop over the selected users starts exactly those that are idle and due, and adds them to the busy set |
| AdminPoller.AudienceExact | src/api/admin_poller.js:13-22 | a truthy `target_id` is the only recipient; otherwise 'premium' means premium and ACTIVE, 'blocked' means blocked, and any other group means every user |
| AdminPoller.SessionCheckedEffect | src/api/admin_poller.js:53-55 | a check stamps status ACTIVE or EXPIRED and the time, demotes to NEED_AUTH only on EXPIRED, and leaves other users as they were |
| AdminPoller.Dispatch | src/api/admin_poller.js:84-111 | dispatching a command never records a started run itself; background runs are reported by `Triggered` |
| AdminPoller.PendingInCreatedOrder | src/api/admin_poller.js:79 | the PENDING rows, taken in insertion order, are in `created_at` order |
| AdminPoller.SettledStatus | src/api/admin_poller.js:112-116 | a PENDING row ends FAILED exactly when its handler throws and COMPLETED otherwise; other rows are untouched; id, kind and payload never change |
| AdminPoller.UnknownKindCompletes | src/api/admin_poller.js:84-112 | a kind no case matches changes nothing, does not throw, and starts nothing |
| AdminPoller.TriggerCollectEffect | src/api/admin_poller.js:99-102 | TRIGGER_COLLECT never throws and changes no table; it starts a run exactly when the payload is an id of a known user |
| AdminPoller.CheckSessionEffect | src/api/admin_poller.js:38-61 | CHECK_SESSION never throws; for an unknown user it changes nothing; otherwise the user is released, and a completed probe stamps the status as `SessionCheckedEffect` says |
| AdminPoller.ClearHistoryEffect | src/api/admin_poller.js:63-73 | after CLEAR_HISTORY the user has at most the fresh dashboard row; other users' rows are exactly kept |
| AdminPoller.SetStatus | src/api/admin_poller.js:82 | `UPDATE admin_commands SET status` rewrites only the row with that id |
| AdminPoller.PeekSession | src/api/admin_poller.js:45-55 | a completed probe writes the check to the user; a failed one writes nothing |
| AdminPoller.HandleCheckSession | src/api/admin_poller.js:38-61 | the handler leaves users and `activeTasks` as `CheckSession` says |
| AdminPoller.HandleClearHistory | src/api/admin_poller.js:63-73 | deletes are requested for every row of the user; the rows go whatever Telegram answers; the handler throws when the id is not a number or the dashboard cannot be sent |
| AdminPoller.HandleCommand | src/api/admin_poller.js:84-111 | the switch throws exactly as `Throws` says, starts exactly `Triggered`, and leaves the tables as `Dispatch` says |
| AdminPoller.HandleRow | src/api/admin_poller.js:82-116 | a row goes to PROCESSING and then to COMPLETED or FAILED by the handler's outcome; tables follow `Dispatch` |
| AdminPoller.Tick | src/api/admin_poller.js:75-120 | after a tick every PENDING row is settled, other rows are kept, no row is added, and the tables are the fold of `Dispatch` over the PENDING rows in order |
| AdminPoller.BroadcastRowNeverExpires | src/api/admin_poller.js:31 | as written, a broadcast row gets no `delete_at`, so the TTL worker never reaps it |
| AdminPoller.BroadcastRowExpires | src/api/admin_poller.js:31 | with ttl passed as the ttl argument, a broadcast row with a truthy ttl is reaped once its time has passed |
| AdminPoller.BroadcastRowsCarryTtl | src/api/admin_poller.js:26-35 | every row a corrected broadcast adds is a REACTION with the command's `delete_at` |
| AdminPoller.LoggerFailures | src/api/admin_poller.js:24 | as written, BROADCAST throws before sending, and PAUSE/RESUME write the flag and then throw |
| AdminPoller.IntendedCommandsComplete | src/api/admin_poller.js:103-110 | with a logger in scope, PAUSE and RESUME complete with the flag set, and BROADCAST completes with only ttl-carrying rows added |
| AdminApi.SetUserStatus | src/api/index.js:119-153 | the route updates the user by `StatusUpdate` and appends exactly the NOTIFY rows of `Notices`, in order, after the old rows |
| AdminApi.NoFieldNoChange | src/api/index.js:126-146 | a request with neither field changes no user |
| AdminApi.StatusInTwoSteps | src/api/index.js:126-146 | applying the block part and then the premium part equals the combined update |
| AdminApi.NoticeRows | src/api/index.js:131-145 | the two optional inserts append exactly the `Notices` rows with consecutive ids |
| AdminApi.ApplyBlocked | src/api/index.js:126-134 | blocking clears premium and sets blocked; unblocking clears blocked; one NOTIFY with the matching text is appended |
| AdminApi.ApplyPremium | src/api/index.js:136-146 | a premium grant also unblocks and appends the premium NOTIFY; a revoke appends nothing |
| AdminApi.StatusEffect | src/api/index.js:126-139 | only the two flags change; after either field the user is never both blocked and premium; a grant ends premium and unblocked; a block without a grant ends blocked and not premium; other users are untouched |
| AdminApi.NoticesCount | src/api/index.js:131-145 | one notice per block field, one per premium grant, with the premium text last and the block/unblock text first |
| AdminApi.NotifyRowDelivered | src/api/admin_poller.js:88-92 | a NOTIFY row the API wrote fails exactly when the send fails; otherwise the poller tracks the sent message for the user of the payload |
| AdminApi.NullIfFalsy | src/api/index.js:160 | `x \|\| null` keeps truthy values and turns falsy ones into null |
| AdminApi.GroupOrAll | src/api/index.js:160 | the stored group is never empty, and is the request's group when that is truthy |
| AdminApi.EnqueueBroadcast | src/api/index.js:155-163 | one BROADCAST row is appended, with null target and ttl when falsy and group 'all' by default |
| AdminApi.BroadcastAudience | src/api/index.js:159-160 | the queued broadcast is PENDING; with a target it reaches only that user; with no target and no group it reaches every user; a stored ttl is truthy |
| AdminApi.Toggle | src/api/index.js:165-176 | the route stores the pause flag as `Toggled` says |
| AdminApi.ToggleEffect | src/api/index.js:169-173 | the system is paused exactly after PAUSE_SYSTEM; other keys are kept; the poller's PAUSE/RESUME write the same config |
| AdminApi.RequestCheckSession | src/api/index.js:178-184 | one CHECK_SESSION row with the user id as payload is appended |
| AdminApi.RequestClearHistory | src/api/index.js:186-192 | one CLEAR_HISTORY row with the user id as payload is appended |
| AdminApi.UserCommandRoundTrip | src/api/index.js:181 | the appended row is PENDING, has a fresh id, and its payload parses back to the user id |
| AdminApi.UserCommandHandled | src/api/admin_poller.js:93-98 | the poller handles the queued CHECK_SESSION and CLEAR_HISTORY rows for exactly the user id the route put in the payload |
| LoginWizard.EmailPatternIff | src/bot/scenes/login.js:8 | `^[^\s@]+@[^\s@]+\.[^\s@]+$` matches exactly the text with one '@', no whitespace, a non-empty local part, and a '.' after the '@' with a character on each side |
| LoginWizard.PatternHasShape | src/bot/scenes/login.js:8 | every match of the pattern has that shape |
| LoginWizard.ShapeMatchesPattern | src/bot/scenes/login.js:8 | every text of that shape matches the pattern |
| LoginWizard.EmailStepMoves | src/bot/scenes/login.js:20-57 | the e-mail step moves to the OTP step exactly on a valid e-mail for which `startLogin` returned NEED_OTP, and leaves the scene exactly on /start, /cancel, or a valid e-mail with any other outcome |
| LoginWizard.InsertOrIgnoreEffect | src/bot/scenes/login.js:78-79 | `INSERT OR IGNORE` keeps `UNIQUE(user_id, email)`, adds only the new row, is idempotent, and changes nothing when the row exists |
| LoginWizard.FirstLog | src/bot/scenes/login.js:84-86 | a SUCCESS row with the count is written exactly when the count is positive |
| LoginWizard.ActivateEffect | src/bot/scenes/login.js:74-75 | the user's e-mail and status ACTIVE are set and nothing else; other users are untouched |
| LoginWizard.Wizard.constructor | src/bot/scenes/login.js:10-11 | a new scene is at the first step |
| LoginWizard.Wizard.AskEmail | src/bot/scenes/login.js:13-18 | the first step purges reactions, tracks the prompt and advances to the e-mail step |
| LoginWizard.Wizard.HandleEmail | src/bot/scenes/login.js:20-58 | the step moves as `NextPhase` says; cancel and no message write nothing; an invalid e-mail tracks the retry prompt; a valid one stores the e-mail, keeps the browser only on NEED_OTP and closes it otherwise |
| LoginWizard.Wizard.TryLogin | src/bot/scenes/login.js:33-57 | the login attempt continues exactly on NEED_OTP, closes the browser otherwise, and tracks the waiting and result messages |
| LoginWizard.Wizard.HandleOtp | src/bot/scenes/login.js:60-103 | with a message the browser is closed and the scene left; an accepted OTP activates the user, inserts the e-mail row if absent, logs only a positive count and tracks reply and photos; a refused one writes only the failure reply |
| LoginWizard.RecordLogin | src/bot/scenes/login.js:72-94 | the writes after an accepted OTP: user activated, e-mail row inserted if absent, log row when count > 0, result and photos tracked |
| LoginWizard.AsWrittenStaysAtFirstStep | src/bot/scenes/login.js:13-17 | as written, every update throws in the first step, so the scene never leaves it |
| LoginWizard.EmailRunDiverges | src/bot/scenes/login.js:13-17 | on the same two updates the intended scene reaches the OTP step while the written one stays at the first step |
| LegacyBot.InsertKeepsKeys | bot.js:358-363 | a plain INSERT into `bot_messages` keeps the row-id key valid |
| LegacyBot.InsertDuplicates | bot.js:25-31 | the table has no UNIQUE constraint, so tracking the same message twice leaves two more rows for it |
| LegacyBot.DeliverAppends | bot.js:422-431 | a broadcast only appends rows, for recipients only, after the old rows, and keeps the key valid |
| LegacyBot.ReplaceEffect | bot.js:193-194 | `INSERT OR REPLACE` keeps keys unique, leaves exactly the new row for the id, and leaves other users unchanged |
| LegacyBot.ReloginResetsFlags | bot.js:193-194 | a sign-in rewrites the user row, so premium and blocked go back to their defaults and the last check is cleared |
| LegacyBot.AuthGateIgnoresFlags | bot.js:247-256 | the legacy `action_auth` decision depends on status and busy users only, not on flags an update may change |
| LegacyBot.LogoutThenAuth | bot.js:258-273 | after a legacy logout, `action_auth` lets the user into the scene |
| LegacyBot.Bot.constructor | bot.js:18-19 | the bot starts with no busy users and no cooldowns |
| LegacyBot.Bot.CheckCooldown | bot.js:53-65 | returns the remaining wait, and records now only when the wait is 0 |
| LegacyBot.Bot.ActionLogout | bot.js:258-273 | only an ACTIVE user is logged out: status NEED_AUTH and not busy afterwards; no `user_emails` table is touched; others change nothing |
| LegacyBot.Bot.ActionCheck | bot.js:275-301 | refusal and cooldown change nothing; otherwise the cooldown is recorded, the user is released in `finally`, and demoted only when the probe says logged out |
| LegacyBot.Bot.ActionCollect | bot.js:303-317 | refusal and cooldown change nothing; otherwise the cooldown is recorded and the user is marked busy |
| LegacyBot.Bot.Release | bot.js:313-316 | a settled run removes exactly that user from `activeTasks` |
| LegacyBot.Bot.SchedulerTick | bot.js:365-382 | the tick starts exactly `LegacyPicks` and marks them busy |
| LegacyBot.RunEffectFacts | bot.js:319-356 | a legacy run logs one SUCCESS row of 1 or 2 rewards exactly when it collected, and demotes the user exactly on SESSION_LOST |
| LegacyBot.RunMessagesAppend | bot.js:325-355 | a legacy run only appends message rows, all for this user |
| LegacyBot.DeliverAll | bot.js:422-431 | the loop tracks each returned message, in recipient order |
| LegacyBot.RunCollectionForUser | bot.js:319-356 | the method leaves users, logs and messages as `RunEffect` says, including a throwing close caught by the outer `catch` |
| LegacyBot.LegacyPicksExact | bot.js:370-378 | the legacy scheduler picks exactly the ACTIVE, idle, due users |
| LegacyBot.SchedulersCompared | bot.js:370-375 | every modular pick is a legacy pick; a legacy pick is missing from the modular tick exactly when the system is paused or the user is not premium or is blocked |
| LegacyBot.SignInEffect | bot.js:188-199 | a sign-in leaves the user as a fresh ACTIVE row with the e-mail, and adds a log row of at most 2 rewards exactly when the count is positive |
| LegacyBot.RecordSignIn | bot.js:188-207 | the sign-in writes the tables as `SignInTables` says, and throws exactly when the collection returned SESSION_LOST |
| LegacyBot.AttemptLogin | bot.js:157-180 | the login attempt continues exactly on NEED_OTP; otherwise the browser is closed, once more after a failing close, and the reply is tracked only when `startLogin` returned |
| LegacyBot.Wizard.constructor | bot.js:137-138 | a new legacy scene is at the first step |
| LegacyBot.Wizard.AskEmail | bot.js:139-143 | the first step tracks the prompt and advances |
| LegacyBot.Wizard.HandleEmail | bot.js:144-181 | cancel and no message write nothing; an invalid e-mail tracks the retry; a valid one marks the user busy, advances on NEED_OTP, and otherwise releases the user and leaves |
| LegacyBot.Wizard.HandleOtp | bot.js:182-217 | the OTP step writes the tables as `OtpTables` says; when it throws the user stays busy and the scene stays open; otherwise the user is released and the scene left; the browser gets one close request exactly when `submitOtp`, and for a hidden login button `collectRewards`, returned, so an earlier throw leaves it open |
| LegacyBot.Wizard.HandleOtpFinally | bot.js:182-217 | with the release in `finally`, the user is released whatever the outcome; the tables and the close request are as in the written step |
| LegacyBot.StuckUserRefused | bot.js:247-253 | a user left in `activeTasks` is never scheduled, and `action_auth` answers busy unless the user is already signed in |
| LegacyBot.CheckedUsersEffect | bot.js:433-459 | CHECK_SESSION changes nothing for an unknown user or a failed probe; otherwise it stamps ACTIVE or EXPIRED and the time, demotes on EXPIRED, and leaves other users as they were |
| LegacyBot.DispatchFacts | bot.js:396-412 | every legacy command keeps the keys; a broadcast appends rows only for ACTIVE users after the old rows; a clear removes every row of the user; an unknown kind changes nothing |
| LegacyBot.CheckSessionOf | bot.js:433-459 | the handler leaves users as `CheckedUsers` says |
| LegacyBot.ClearHistoryOf | bot.js:468-475 | deletes are requested for every row of the user, and all of them are removed |
| LegacyBot.HandleCommand | bot.js:396-412 | the switch starts exactly `Triggered` and leaves the tables as `Dispatch` says |
| LegacyBot.HandleRow | bot.js:393-413 | a row goes to PROCESSING and then COMPLETED; tables follow `Dispatch` |
| LegacyBot.Tick | bot.js:386-420 | after a tick every PENDING row is COMPLETED, other rows are kept, no row is added, and the tables are the fold of `Dispatch` over the PENDING rows |
| LegacyBot.TickKeepsKeys | bot.js:390-417 | a legacy tick keeps the message key and unique user ids |
| LegacyBot.TickStartsKnownUsers | bot.js:477-485 | a tick starts at most one run per command, only for ids of the user table, and never adds or removes users |

## Left out

- The Telegram API is not modelled. Each send is a parameter. Where the source catches a failed send or lets it fail the command (photos, admin sends, the modular run's notice), the parameter is the returned message id or `None`. Elsewhere it is a plain id, so the send is taken to succeed; the members concerned are listed below. Edits, the dashboard rendering (src/bot/dashboard.js, bot.js:67-133) and `showDashboard` are also left out. Where `showDashboardToUser` matters, in CLEAR_HISTORY, its tracked row is a parameter.
- Playwright is not modelled. Every navigation, wait, click, visibility and attribute read is an observation parameter. `randomDelay` and `humanScroll` have no modelled effect.
- `setInterval` timing and concurrency are left out. One tick is one method call with one `now`. Unawaited runs are returned as started ids and run separately. Interleaving between the scheduler, the poller and the handlers is not modelled.
- SQLite failures are not modelled. Every `db.run` succeeds, so the outer `catch` blocks that swallow database errors never fire.
- Timestamps are integer milliseconds. `CURRENT_TIMESTAMP` and `Date.now()` are both the tick's `now`. ISO string comparison of `delete_at` is the same as integer comparison.
- `logActivity` and the `user_activity` table are left out: they are write-only from the core's point of view.
- The `/start` registration, with its `trial_expires_at` date arithmetic (src/bot/handlers.js:123-138), is left out. `trial_expires_at` is a parameter of the user row.
- The message middlewares are left out (src/bot/handlers.js:105-121, bot.js:223-228). So are `action_info`, `action_rewards` and `action_start`.
- `/api/stats`, the GET routes and the Express listener of src/api/index.js are left out. So are server.js and dashboard/app.js.
- The `:id` route parameter is taken as an integer. `parseInt` of a payload is `ParsedId`: a user id or nothing. Text payloads are assumed not to parse as numbers.
- The legacy `bot_messages` rowid is modelled as a counter `nextId`.
- Reward image URLs are strings. Photo messages count as sent when Telegram returned one.
- Deleting screenshot files and browser profiles on the filesystem is left out.
- `updated_at` of `system_config` is not modelled. That is why storing the same reward images again is a no-op in the model.
- MessageBook.CleanupHistory: deletions are requested in table order. src/bot/utils.js:37 orders them by `timestamp DESC`, which the model does not track.
- Handlers.RunCollectionForUser: `init(false)` launches a visible browser. Headless mode is not modelled.
- AdminPoller.Dispatch: its own contract states only that dispatch records no started run. The effect of each kind is stated by AudienceExact, CheckSessionEffect, ClearHistoryEffect, TriggerCollectEffect, UnknownKindCompletes, LoggerFailures and AdminApi.NotifyRowDelivered.
- LegacyAutomation.SlotLoop: its own contract states only that a returned value is rewards. The bounds are in SlotLoopBounds and TileTextStopsLoop.
- LoginWizard.Wizard.AskEmail: the prompt's `ctx.reply` is taken to succeed; a failing one would throw before the prompt is tracked and the wizard advances.
- LoginWizard.Wizard.HandleEmail: the retry, wait and result replies are taken to succeed; a failing one throws out of the step with the scene still open.
- LoginWizard.Wizard.TryLogin: the wait and result replies are taken to succeed. A failing wait reply (src/bot/scenes/login.js:34) would throw out of the step with the scene open; a failing OTP or error reply (lines 45 and 49) would land in the `catch`, which closes the browser, swallows the error and leaves without tracking the reply.
- LoginWizard.Wizard.HandleOtp: the result reply is taken to succeed. At src/bot/scenes/login.js:81 a failed reply would throw after the UPDATE and the INSERT OR IGNORE, before the log row at line 85, and the scene would not be left.
- LoginWizard.RecordLogin: the result reply is taken to succeed, so the log row and the photos always follow it.
- LegacyBot.Wizard.AskEmail: the prompt's reply is taken to succeed.
- LegacyBot.Wizard.HandleEmail: the wait reply at bot.js:157 is taken to succeed. It comes after `activeTasks.add` at line 156 and outside any `try`, so a failed send would leave the user busy for good, as in the OTP finding below.
- LegacyBot.AttemptLogin: the OTP prompt and error replies are taken to succeed; a failing one lands in the `catch`, which the model reaches only through a failing `init`, `startLogin` or `close`.
- LegacyBot.Wizard.HandleOtp: the result replies are taken to succeed. At bot.js:201 a failed reply would throw after the REPLACE and the log row, leaving the user busy.
- LegacyBot.RecordSignIn: the result reply is taken to succeed, so tracking always follows the REPLACE and the log row.
- LegacyBot.RunCollectionForUser: the status and error messages (bot.js:328, 341, 349 and 353) are taken to succeed. A failed send at 328, 341 or 349 would fall to the `catch`, whose own send at 353 could fail too and reject the run.

## Where the code and its description differ

The model follows the code in each case:

- On SESSION_LOST, src/bot/handlers.js:64-70 only notifies the user and moves on. It does not set status NEED_AUTH. bot.js:325-327 does, and `LegacyBot.RunEffectFacts` states that.
- Single-flight is not enforced on every path:
  - `action_check` and `action_collect` add to `activeTasks` without testing membership.
  - CHECK_SESSION adds unconditionally.
  - TRIGGER_COLLECT never touches the set.
  - Only the scheduler and `action_auth` look first.
- The legacy sign-in uses `INSERT OR REPLACE INTO users`, which rewrites the whole row. A premium or blocked user who signs in again loses those flags (`LegacyBot.ReloginResetsFlags`).
- In the legacy CHECK_SESSION, `activeTasks` gets the payload string, which is a different `Set` key from the numeric id. The numeric `activeTasks` is therefore unchanged. The SQL lookup still finds the user through INTEGER affinity.
- Legacy `action_check` has `try`/`finally` and no `catch`. A failing probe leaves the user as they were and releases them.
- Legacy `trackMsg` is a plain INSERT into a table with no UNIQUE constraint, so the same message can be tracked twice.

## Findings

| source | as written | input that shows it | evidently intended | confidence | as-written member | corrected member |
|---|---|---|---|---|---|---|
| src/api/admin_poller.js:24 | `logger` is used but never imported, so lines 24, 105 and 109 throw a ReferenceError | any BROADCAST, PAUSE_SYSTEM or RESUME_SYSTEM row | these commands complete; broadcasts reach their audience | not executed | AdminPoller.LoggerFailures | AdminPoller.IntendedCommandsComplete |
| src/api/admin_poller.js:31 | `ttl \|\| null` is passed as the fourth argument of `trackMsg`, which is `type` (src/bot/utils.js:4), so `ttlSeconds` is null. As written this line is never reached: every BROADCAST throws at line 24 first, so this defect is hidden behind the missing `logger` | once `logger` is imported, a BROADCAST with `ttl_seconds` 60, reaped 61 s later | the row gets `delete_at` = now + ttl × 1000 and the TTL worker removes it | not executed | AdminPoller.BroadcastRowNeverExpires | AdminPoller.BroadcastRowExpires |
| src/bot/scenes/login.js:14 | `cleanupReactions` is called but never imported, so the first step throws before `ctx.wizard.next()`; `ctx.scene.enter` at src/bot/handlers.js:207 is not awaited, so the error surfaces as an unhandled promise rejection rather than in a `catch` | entering the scene, then sending "a@b.c" | the scene advances to the e-mail step and then to the OTP step | not executed | LoginWizard.EmailRunDiverges | LoginWizard.Wizard.HandleEmail |
| bot.js:182-217 | the OTP step releases `activeTasks` only on its normal path; a SESSION_LOST result throws at line 203, after the DB writes and the reply, and a failing close throws too | an accepted OTP whose collection returns SESSION_LOST | the user is released whatever happens, as `try`/`finally` would do | not executed | LegacyBot.Wizard.HandleOtp | LegacyBot.Wizard.HandleOtpFinally |
