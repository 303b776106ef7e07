# Reminder lifecycle of reminder-ai-bot, in Dafny

This project models the reminder engine of a Telegram reminder bot written
in TypeScript. The bot keeps reminders in a Firestore collection
(`reminders`). It also keeps an in-memory index of them (a `ReminderManager`
over a `Map` keyed by document id) and a registry of armed jobs
(`scheduledJobs`, keyed by `"reminder-" + id`). The model covers:

- the lifecycle in `src/services/cron.ts`: schedule, fire, deliver,
  repeat with a count and an end date, clean up, and reschedule at start-up;
- the earlier, one-shot generation of that lifecycle in `src/cron.ts`,
  `src/firebase.ts` and `src/manager.ts`;
- the store operations both generations call (`src/store/firebase.ts`,
  `src/store/model.ts`);
- the plan table and the plan manager that gate features
  (`src/types/subscription.ts`, `src/services/plan.ts`);
- the two string utilities (`src/utils/index.ts`).

Design of the model:

- **Values, objects and state.** Reminders and Firestore documents are
  datatypes (`Types`). The in-memory index (`StoreModel.ReminderManager`,
  `Manager.ReminderManager`), the collection (`Firestore.Collection`), the
  job registry (`Jobs.JobRegistry`) and the plan manager
  (`Plan.PlanManager`) are classes whose fields the methods update, as in
  the source.
- **Specifications.** Each state-changing method is proved against a pure
  function of the old state, such as `Schedule`, `Deliver` or
  `UpdatedDocs`. These functions act on a `Worlds.World`, a snapshot of
  the index, the registry and the documents. The lifecycle properties are
  lemmas about those functions.
- **Aliasing.** A field assignment the cron code makes on a reminder object
  is also seen through the index, because every caller passes the object the
  index holds. The model writes such assignments through to the index entry
  with the same id (`Worlds.WriteThrough`). A job's callback works on the
  index's copy when it holds one, and otherwise on the object the job was
  built with (`Worlds.Current`).
- **Jobs.** `Jobs.Registry` records, for each key, the timer, the reminder
  object and the delay it was armed with. It also records the set of timers
  still running (neither stopped nor fired). Arming a key that already has
  a running job replaces the entry without stopping the old timer, exactly
  as the source does.
- **Environment as parameters.**
  - The clock is a parameter `now`.
  - Store reachability is a parameter `up`, one per operation.
  - Whether Telegram accepted the message is a parameter `send`.
  - The generated document id is a parameter `newId`.
  - The random draws of `generateShortCode` are a parameter `draw`.
  - The date arithmetic of `getNextRepeatDate` is a parameter
    `next: (int, RepeatType) -> Option<int>`.
- **Firestore semantics.**
  - A query without `orderBy` returns documents by ascending id. This is
    modelled by a lexicographic order on ids (`Order.IdLe`).
  - `orderBy("scheduleDateTime")` sorts by instant, ties by id
    (`Order.SortedIds`).
  - A `set(..., {merge: true})` replaces the named fields of the document
    and keeps the others.
- **JavaScript equality.** `===` between a number and a string is always
  false (`Types.JsValue`). This is how the two findings below arise.

## Model

| member | source | states |
|---|---|---|
| Types.NumberNeverEqualsString | src/store/model.ts:98 | a number is never strictly equal to a string, whatever its digits |
| Types.NumberToString | src/store/model.ts:98 | the decimal rendering of an integer is never empty |
| Types.DigitsInjective | src/store/model.ts:98 | distinct naturals have distinct digit strings |
| Types.NumberToStringInjective | src/store/model.ts:98 | two integers that print the same are equal, so comparing `String(chatId)` with a user id identifies one chat |
| Order.IdLeTotal | src/store/firebase.ts:124-128 | the document-id order compares every pair of ids |
| Order.IdLeAntisymmetric | src/store/firebase.ts:124-128 | two ids ordered both ways are equal |
| Order.IdLeTransitive | src/store/firebase.ts:124-128 | the document-id order is transitive |
| Order.LeastIsUnique | src/store/firebase.ts:124-128 | a set of ids has at most one first element, so `limit(1)` picks a determined document |
| Order.LeastIsUniqueAll | src/store/firebase.ts:124-128 | the same, for all pairs of candidates at once |
| Order.LeastExists | src/store/firebase.ts:124-128 | every non-empty set of ids has a first element |
| Order.MinBy | src/store/firebase.ts:124-128 | the chosen id belongs to the set and comes before every other member |
| Order.SortsCons | src/store/firebase.ts:201-206 | the least element followed by a sorted listing of the rest is a sorted listing of the whole set |
| Order.SortedIds | src/store/firebase.ts:201-206 | a query result lists its set exactly once, ascending by instant, ties by id |
| Order.SortsEnumerates | src/store/firebase.ts:17-25 | a sorted listing enumerates exactly its set |
| ReminderMap.FromSeq | src/store/model.ts:25-28 | `reset` leaves an index keyed by id whose keys are exactly the ids listed |
| ReminderMap.FromSeqLastWins | src/store/model.ts:25-28 | for a repeated id, `reset` keeps the last reminder listed with it |
| ReminderMap.FromSeqSnoc | src/store/model.ts:25-28 | resetting with one more element is the earlier reset plus that entry |
| ReminderMap.ResetWithListing | src/store/model.ts:25-28 | resetting with a listing of a keyed index rebuilds that index |
| ReminderMap.DistinctIdsCard | src/store/model.ts:75-77 | a listing without repeated ids has as many ids as elements |
| ReminderMap.KeptNone | src/services/plan.ts:82-84 | a filter that rejects every element keeps nothing |
| ReminderMap.KeptMembers | src/services/plan.ts:82-84 | `filter` keeps exactly the listed elements that pass the test |
| ReminderMap.KeptDistinct | src/services/plan.ts:82-84 | filtering a listing without repeated ids leaves one without repeated ids |
| ReminderMap.ListsPartStep | src/store/model.ts:75-77 | emitting one more unseen entry extends a partial listing of the index |
| ReminderMap.ListsPartComplete | src/store/model.ts:75-77 | a partial listing that has seen every key is a listing of the index |
| ReminderMap.Values | src/store/model.ts:75-77 | enumerates every entry of the index exactly once |
| Jobs.JobKey | src/services/cron.ts:67 | the key is `"reminder-"` followed by the id |
| Jobs.JobKeyInjective | src/services/cron.ts:67 | distinct reminders get distinct keys |
| Jobs.ArmJob | src/services/cron.ts:80-87 | arming starts a fresh timer under the key, with that reminder and delay; other keys keep their jobs; a timer already running keeps running |
| Jobs.StopJob | src/store/model.ts:43-49 | `stop()` plus `delete` removes the key and stops its timer |
| Jobs.ForgetJob | src/services/cron.ts:58 | `delete scheduledJobs[jobId]` removes the key and stops nothing |
| Jobs.CompleteJob | src/services/cron.ts:14-64 | a fired timer stops running; the registry's entries are unchanged |
| Jobs.ReArmOrphansRunningJob | src/services/cron.ts:87 | re-arming a key with a running job leaves that job running with no key reaching it |
| Jobs.JobRegistry.constructor | src/services/cron.ts:8 | the registry starts empty |
| Jobs.JobRegistry.Arm | src/services/cron.ts:80-87 | the registry's new state is `ArmJob` of the old |
| Jobs.JobRegistry.StopAndDelete | src/store/model.ts:43-49 | the registry's new state is `StopJob` of the old |
| Jobs.JobRegistry.Delete | src/services/cron.ts:58 | the registry's new state is `ForgetJob` of the old |
| Jobs.JobRegistry.Complete | src/services/cron.ts:14-64 | the registry's new state is `CompleteJob` of the old |
| StoreModel.InPeriodSymmetric | src/store/model.ts:90-95 | swapping reversed bounds leaves the period test unchanged |
| StoreModel.OwnedByNeverHolds | src/store/model.ts:98 | the owner test `r.chatId === userId` is false for every reminder and every user id |
| StoreModel.OwnedByCounterexample | src/store/model.ts:98 | chat 42 and user id "42" fail the owner test |
| StoreModel.OwnedByCorrectedIsChat | src/store/model.ts:98 | the corrected owner test holds exactly for the chat the id prints |
| StoreModel.RemoveJobs | src/store/model.ts:42-49 | when the indexed reminder has a registered non-empty `jobId`, that job is stopped and deleted; otherwise the registry is unchanged |
| StoreModel.ReminderManager.constructor | src/store/model.ts:10 | the index starts empty |
| StoreModel.ReminderManager.Reset | src/store/model.ts:25-28 | the new index is `FromSeq` of the listing; its keys are the listed ids |
| StoreModel.ReminderManager.Clear | src/store/model.ts:33-35 | the index becomes empty |
| StoreModel.ReminderManager.Remove | src/store/model.ts:42-51 | the result says whether the id was indexed; the id leaves the index; its job is stopped and deleted as `RemoveJobs` says |
| StoreModel.ReminderManager.Add | src/store/model.ts:57-60 | the entry for the reminder's id becomes that reminder |
| StoreModel.ReminderManager.GetById | src/store/model.ts:67-69 | finds a reminder exactly when the id is indexed, and it is the indexed one |
| StoreModel.ReminderManager.ToArray | src/store/model.ts:75-77 | lists every indexed reminder exactly once; the length is the index size |
| StoreModel.ReminderManager.Select | src/store/model.ts:87-109 | keeps exactly the indexed reminders that pass the test, without repeats |
| StoreModel.ReminderManager.Filter | src/store/model.ts:87-109 | returns exactly the indexed reminders in the period that pass the owner test as written, without repeats |
| StoreModel.ReminderManager.FilterCorrected | src/store/model.ts:87-109 | the same, with the corrected owner test |
| StoreModel.FilterIsAlwaysEmpty | src/store/model.ts:98 | any result matching the `filter` contract is empty |
| Manager.ReminderManager.constructor | src/manager.ts:10 | the earlier index starts empty |
| Manager.ReminderManager.Reset | src/manager.ts:21-24 | the new index is `FromSeq` of the listing |
| Manager.ReminderManager.Clear | src/manager.ts:26-28 | the index becomes empty |
| Manager.ReminderManager.Remove | src/manager.ts:30-33 | the result says whether the id was indexed; the id leaves the index; no job is touched |
| Manager.ReminderManager.Add | src/manager.ts:35-38 | the entry for the reminder's id becomes that reminder |
| Manager.ReminderManager.GetById | src/manager.ts:40-42 | finds a reminder exactly when the id is indexed |
| Manager.ReminderManager.ToArray | src/manager.ts:44-46 | lists every indexed reminder exactly once |
| Firestore.Collection.constructor | src/store/firebase.ts:17-20 | the collection holds the given documents |
| Firestore.Collection.DeleteEach | src/store/firebase.ts:27-29 | deleting the snapshot one by one removes exactly the listed ids |
| Firestore.Upcoming | src/store/firebase.ts:17-20 | the `>` query returns exactly the documents after `now` |
| Firestore.Expired | src/store/firebase.ts:22-25 | the `<=` query returns exactly the documents at or before `now` |
| Firestore.WithoutExpired | src/store/firebase.ts:27-29 | after the deletions, exactly the future documents remain, unchanged |
| Firestore.DeleteExpired | src/store/firebase.ts:22-29 | removing the expired documents leaves exactly the upcoming ones |
| Firestore.ExpiredSnapshot | src/store/firebase.ts:22-25 | the expired query's listing enumerates exactly the expired documents |
| StoreFirebase.Loaded | src/store/firebase.ts:31-40 | a loaded reminder copies the document's fields and repetition, defaults `jobId` to "" and is unmarked |
| StoreFirebase.LoadedIndex | src/store/firebase.ts:17-41 | the loaded index holds exactly the future documents, each as `Loaded` |
| StoreFirebase.LoadedList | src/store/firebase.ts:31-40 | the map over the snapshot loads each listed document in place |
| StoreFirebase.LoadedListRebuilds | src/store/firebase.ts:31-41 | resetting with the mapped snapshot yields the loaded index |
| StoreFirebase.LoadedListLists | src/store/firebase.ts:31-41 | the mapped snapshot lists the loaded index exactly once |
| StoreFirebase.Snapshot | src/store/firebase.ts:17-41 | the mapped upcoming snapshot resets the index to `LoadedIndex` |
| StoreFirebase.LoadReminders | src/store/firebase.ts:12-49 | with the store up: expired documents are gone and the index is the loaded future ones; with the store down: documents are unchanged and the index is empty |
| StoreFirebase.Merged | src/store/firebase.ts:63-78 | a merge-write replaces the six written fields and keeps the repetition fields of an existing document |
| StoreFirebase.UpdateReminder | src/store/firebase.ts:55-86 | an empty id or a failed write changes nothing; otherwise the document is merged and the reminder is re-added to the index |
| StoreFirebase.UpdateKeepsRepeatFields | src/store/firebase.ts:63-78 | an update never changes a document's repetition fields or any other document |
| StoreFirebase.NewDoc | src/store/firebase.ts:95-107 | a new document is unarmed with an empty `jobId` and carries the code and repetition fields |
| StoreFirebase.AddReminder | src/store/firebase.ts:91-115 | success returns the new id, writes the document and indexes the reminder under it; failure is passed on and changes nothing |
| StoreFirebase.WithCode | src/store/firebase.ts:124-127 | the query returns exactly the documents whose code equals the argument |
| StoreFirebase.DeleteTarget | src/store/firebase.ts:124-133 | a document is chosen exactly when the store is up and some code matches, and it is the least matching id |
| StoreFirebase.DeleteReminder | src/store/firebase.ts:120-147 | deletes exactly `DeleteTarget`'s document, un-indexes that id and stops its job; otherwise nothing changes |
| StoreFirebase.Listed | src/store/firebase.ts:213-220 | a listed reminder carries its document's id, chat, task, instant and mark |
| StoreFirebase.ActiveOf | src/store/firebase.ts:201-205 | exactly the chat's marked documents after `now` |
| StoreFirebase.ListedList | src/store/firebase.ts:213-220 | the map over the snapshot lists each document in place |
| StoreFirebase.ListedListAscending | src/store/firebase.ts:201-220 | a sorted snapshot maps to a listing of the active documents in ascending order |
| StoreFirebase.GetAllUserReminders | src/store/firebase.ts:195-226 | null exactly when the store fails; otherwise every active document of the chat exactly once, ascending by instant |
| StoreFirebase.LimitIsIgnored | src/store/firebase.ts:208-210 | the result does not depend on `limit` |
| StoreFirebase.OwnedDocs | src/store/firebase.ts:235-238 | exactly the documents whose chat strictly equals the argument |
| StoreFirebase.ClearUserReminders | src/store/firebase.ts:231-256 | with the store up, exactly the owned documents are deleted in one batch; otherwise nothing changes |
| StoreFirebase.ClearWithStringIdKeepsAll | src/store/firebase.ts:235-238 | called with a string user id, the query matches no numeric `chatId` |
| Firebase.Loaded | src/firebase.ts:36-46 | the earlier loader copies chat, task, instant and `jobId`, drops code and repetition, and unmarks |
| Firebase.LoadedIndex | src/firebase.ts:17-47 | the earlier loaded index holds exactly the future documents |
| Firebase.LoadedList | src/firebase.ts:36-46 | the earlier map loads each listed document in place |
| Firebase.LoadedListLists | src/firebase.ts:36-47 | the mapped snapshot lists the loaded index exactly once |
| Firebase.Snapshot | src/firebase.ts:17-47 | the mapped snapshot resets the index to the loaded one |
| Firebase.LoadReminders | src/firebase.ts:17-55 | with the store up, expired documents go and the index is the loaded future ones; with it down, the index is empty |
| Firebase.Merged | src/firebase.ts:69-83 | the earlier merge replaces five fields and keeps code and repetition |
| Firebase.UpdateReminder | src/firebase.ts:61-91 | an empty id or a failed write changes nothing; otherwise one document is merged |
| Firebase.UpdateTouchesOneDocument | src/firebase.ts:69-83 | an update neither adds nor removes documents and keeps code, repetition and every other document |
| Firebase.NewDoc | src/firebase.ts:99-105 | the earlier document has no code and no repetition and is unarmed |
| Firebase.AddReminder | src/firebase.ts:96-115 | success returns the id and writes the document; failure is passed on and changes nothing |
| Firebase.DeleteReminder | src/firebase.ts:120-130 | deletes the document with that id unless the id is empty or the store fails |
| Worlds.WriteThrough | src/services/cron.ts:89-90 | an assignment on the reminder object is seen through its index entry only |
| Worlds.Current | src/services/cron.ts:82 | the callback's reminder keeps the armed reminder's id |
| Worlds.ProgressEnd | src/services/cron.ts:98-107 | once the listing is done, every indexed reminder is marked and armed with its own value |
| ServicesCron.WriteBack | src/services/cron.ts:89-90 | the index's entry for the reminder takes its new value; nothing else changes |
| ServicesCron.DeleteByCodeM | src/services/cron.ts:76 | the call changes the state as `DeleteByCode` says |
| ServicesCron.ScheduleNotification | src/services/cron.ts:66-93 | the new state and the reminder's new value are `Schedule` of the old |
| ServicesCron.Fire | src/services/cron.ts:14-64 | only a registered, running job fires; the new state is `Deliver` of the old |
| ServicesCron.ScheduleArms | src/services/cron.ts:80-91 | a future reminder is marked with its key, armed with delay `instant - now` and written through and to the store |
| ServicesCron.ProgressStep | src/services/cron.ts:98-107 | handling one listed reminder keeps the reschedule invariant |
| ServicesCron.RescheduleListed | src/services/cron.ts:98-107 | over a fresh listing, every indexed reminder ends marked and armed; an empty listing changes nothing |
| ServicesCron.RescheduleAllReminders | src/services/cron.ts:95-108 | afterwards every indexed reminder is armed; with the store up the index holds exactly the documents that were in the future; with it down the index is empty and no job is armed |
| ServicesCron.DeleteByIdMisses | src/services/cron.ts:76 | passing an id where a code is expected deletes nothing unless some document's code equals that id |
| ServicesCron.SchedulePastArmsNothing | src/services/cron.ts:70-78 | a past reminder arms no job and is returned unchanged |
| ServicesCron.RescheduleOrphansEarlierJob | src/services/cron.ts:80-87 | rescheduling a running reminder orphans its earlier job |
| ServicesCron.DeliverFailedKeeps | src/services/cron.ts:59-63 | a failed send finishes the timer, keeps the registry entry and unmarks the reminder in memory and in the store |
| ServicesCron.DeliverWithoutRepeatRemoves | src/services/cron.ts:55-58 | a sent reminder that does not repeat leaves the index and the registry |
| ServicesCron.DeliverExhaustedRemoves | src/services/cron.ts:37-46 | a spent count removes the reminder from the index; its key is forgotten only through the index |
| ServicesCron.DeliverRepeatReArms | src/services/cron.ts:24-51 | a repeat moves the instant to the next date, decrements the count when there is one, and re-arms under the same key; the store's repetition fields are unchanged |
| ServicesCron.CountedDelivery | src/services/cron.ts:24-51 | one delivery of a pending counted reminder with count `c`, whose next date exists, is later and lies within its end date, leaves it pending with count `c - 1` at that date, or removes it when `c` is 1 |
| ServicesCron.CountedPrefix | src/services/cron.ts:24-51 | after `k < N` deliveries the reminder is pending with count `N - k` at its `k`-th repeat date, with the same end date |
| ServicesCron.ExactlyCountDeliveries | src/services/cron.ts:24-58 | a reminder with `repeatCount` `N` whose first `N` repeat dates exist and stay within its end date (if any) fires at most `N` times; before the `k`-th fire it is pending with count `N - k` at its `k`-th repeat date; after the `N`-th it is neither indexed nor registered |
| ServicesCron.IterateByOne | src/services/cron.ts:26-35 | with a repetition that advances one unit, the `k`-th repeat date from `t0` is `t0 + k` |
| ServicesCron.RepeatsWithinEndDate | src/services/cron.ts:31-34 | the hypothesis of the counting lemmas can be met by a reminder with an end date: one-unit steps from `t0` with end date `t0 + N` |
| Cron.DeleteById | src/firebase.ts:120-130 | the earlier delete removes exactly that id when the store is up and the id is not empty |
| Cron.SchedulePastOnlyDeletes | src/cron.ts:17-23 | a past reminder is only deleted from the store; it stays indexed and nothing is armed |
| Cron.ScheduleArmsTimeout | src/cron.ts:25-55 | a future reminder gets a fresh running timeout with delay `instant - now` under its key, is marked, and the store records the mark |
| Cron.WriteBack | src/cron.ts:53-54 | the index's entry for the reminder takes its new value |
| Cron.ScheduleNotification | src/cron.ts:13-58 | the new state and the reminder's new value are `Schedule` of the old |
| Cron.Fire | src/cron.ts:27-46 | only a registered, running timeout fires; the new state is `Deliver` of the old |
| Cron.DeliverSentRemoves | src/cron.ts:31-40 | a sent reminder leaves the index, the registry and the store; other documents stay |
| Cron.DeliverFailedKeeps | src/cron.ts:41-45 | a failed send unmarks the reminder in memory and in the store and keeps its key |
| Cron.ReschedulePastStaysIndexed | src/cron.ts:65-67 | the earlier reschedule deletes a past document but leaves it indexed |
| Cron.ProgressStep | src/cron.ts:62-68 | handling one listed reminder keeps the reschedule invariant |
| Cron.RescheduleListed | src/cron.ts:62-68 | over a fresh listing every indexed reminder ends marked and armed |
| Cron.RescheduleAllReminders | src/cron.ts:60-69 | afterwards every indexed reminder is armed; with the store up the index holds exactly the documents that were in the future |
| Utils.GenerateShortCode | src/utils/index.ts:4-12 | the code has at most six characters, all from the alphabet; with in-range draws it has exactly six, the `i`-th being the alphabet's `draw(i)`-th |
| Utils.EscapeMarkdownV2 | src/utils/index.ts:17-19 | the result is longer by the number of special characters; every special character in it is preceded by a backslash |
| Utils.EscapeAppend | src/utils/index.ts:17-19 | escaping distributes over concatenation |
| Utils.EscapeOne | src/utils/index.ts:17-19 | a special character becomes backslash plus itself; any other is kept |
| Utils.UnescapeEscape | src/utils/index.ts:17-19 | removing the inserted backslashes gives the text back |
| Subscriptions.EachPlanOnce | src/types/subscription.ts:37-92 | every plan has exactly one entry in the table |
| Subscriptions.IdInjective | src/types/subscription.ts:2-7 | distinct plans have distinct string values |
| Subscriptions.FreePlanLimits | src/types/subscription.ts:38-48 | the free plan allows five reminders and ten repeats, with no services and no AI |
| Subscriptions.MaxRemindersIncrease | src/types/subscription.ts:43-84 | the reminder limit strictly increases along the table and ends unbounded |
| Subscriptions.DevPlanUnbounded | src/types/subscription.ts:79-91 | the developer plan has every service and unbounded repeats |
| Plan.FindPlan | src/services/plan.ts:33-35 | `find` returns the first entry with that id, and nothing exactly when no entry has it |
| Plan.GetPlanDetailsFindsOwnEntry | src/services/plan.ts:33-35 | a plan's id finds that plan's entry; any other string finds nothing |
| Plan.GetFeaturesLimits | src/services/plan.ts:37-41 | the reminder limit of each plan name, and five for an unknown name |
| Plan.GetPlanDetailsTable | src/services/plan.ts:33-35 | the entry found for each of the four names |
| Plan.GetFeaturesFallsBackToFree | src/services/plan.ts:37-41 | an unknown plan name gets the free plan's features |
| Plan.FeatureFlags | src/services/plan.ts:77-79 | the AI flag is truthy exactly on PRO and DEV; the other three features are always truthy |
| Plan.Patched | src/services/plan.ts:44-48 | each field comes from the patch when the patch has it, else from the profile; an empty patch changes nothing |
| Plan.PlanManager.constructor | src/services/plan.ts:16-19 | the manager holds the profile and its id |
| Plan.PlanManager.SetProfile | src/services/plan.ts:25-27 | the profile is replaced; the user id is kept |
| Plan.PlanManager.SyncProfile | src/services/plan.ts:43-53 | the new profile is the patched one stamped `now`, and it is returned |
| Plan.PlanManager.Upgrade | src/services/plan.ts:55-64 | the plan, expiry and update time change; nothing else |
| Plan.PlanManager.Downgrade | src/services/plan.ts:66-75 | the plan becomes FREE with no expiry, stamped `now` |
| Plan.PlanManager.HasExceededReminderLimit | src/services/plan.ts:81-86 | as written, the limit is never reported as reached |
| Plan.PlanManager.HasExceededReminderLimitCorrected | src/services/plan.ts:81-86 | reached exactly when the user's indexed reminders number at least the plan's limit |
| Plan.KeptCountsOwned | src/services/plan.ts:82-85 | the filtered listing's length is the number of indexed reminders that pass the test |

## Left out

- Telegram I/O: `sendMessage` is the boolean `send`. The text of the message is not modelled.
- Logging (`console.log`, `console.error`) is not modelled.
- Asynchrony: each operation runs to completion. Interleavings at `await` points, and the un-awaited `updateReminder` and `deleteReminder` calls, are not modelled.
- Store reachability: one flag `up` covers every store call of one operation. A store that fails between two calls of one operation is not modelled.
- Timers: the registry records the delay a job was armed with. An orphaned timer (one that no key reaches) may still fire in the source. The model only fires jobs reachable through their key.
- Time zones and `dayjs`/`Date` conversions: instants are integers.
- getNextRepeatDate and generateShortCode's randomness are parameters. Their own code is not part of this model.
- `Timestamp.now()` is the parameter `now`.
- saveUserProfile and getUserAgenda are not part of this model. The plan manager's calls to saveUserProfile are not modelled.
- Plan.PlanManager.Downgrade: the user id passed to saveUserProfile is unused, because the save is not modelled.
- Plan.Patched: covers the profile's fields. A partial profile that sets a key to `undefined` is not modelled.
- ReminderMap.Values, StoreModel.ReminderManager.ToArray, StoreModel.ReminderManager.Select, StoreModel.ReminderManager.Filter, StoreModel.ReminderManager.FilterCorrected and Manager.ReminderManager.ToArray: a JavaScript `Map` lists its entries in insertion order, and `filter` works in that order. The model keeps the index as a map without an order, so these results are specified up to order: each indexed entry appears exactly once, in some order.
- Null and undefined in optional fields are both `None`.
- StoreFirebase.UpdateReminder: a reminder loaded without a code writes `code: undefined`. Whether Firestore rejects that depends on settings outside the repository. The model writes the empty string.
- StoreFirebase.DeleteReminder: every caller in the lifecycle passes the reminder's id, not its code. The model keeps the source's code query; ServicesCron.DeleteByIdMisses states what follows from that.

## Findings

| source | as written | input that shows it | evidently intended | confidence | as-written member | corrected member |
|---|---|---|---|---|---|---|
| src/store/model.ts:98 | `filter` keeps a reminder only when `r.chatId === userId`, comparing a number with a string | chat 42 with user id "42": the reminder is dropped, so `filter` always returns nothing | keep the reminders whose chat id prints as the user id | not executed | StoreModel.FilterIsAlwaysEmpty | StoreModel.ReminderManager.FilterCorrected |
| src/services/plan.ts:84 | `hasExceededReminderLimit` counts reminders with `r.chatId === this.profile.id`, a number against a string | a FREE user with id "42" holding five reminders of chat 42: the count is 0, so the limit of five is never reached | count the reminders of the user's chat against the plan limit | not executed | Plan.PlanManager.HasExceededReminderLimit | Plan.PlanManager.HasExceededReminderLimitCorrected |
