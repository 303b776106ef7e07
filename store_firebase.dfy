/** The store operations of src/store/firebase.ts, against the abstract
    collection. `up` is false when the store call fails (the query or write
    raises); the source catches that, logs it and carries on, except in
    `addReminder`, which re-throws. */
module StoreFirebase {
  import opened Wrappers
  import opened Types
  import opened Order
  import opened ReminderMap
  import opened Jobs
  import opened Firestore
  import StoreModel

  datatype StoreError = StoreUnavailable

  /** `{...data, id, scheduleDateTime, jobId: data.jobId || "", isScheduled: false}`:
      a loaded document as an in-memory reminder. */
  function Loaded(id: string, d: Doc): (r: Reminder)
    ensures r.id == id && r.chatId == d.chatId && r.task == d.task
    ensures r.scheduleDateTime == d.scheduleDateTime && !r.isScheduled
    ensures r.jobId == (if d.jobId.Some? then d.jobId.value else "")
    ensures r.repeat == d.repeat && r.repeatCount == d.repeatCount && r.repeatUntil == d.repeatUntil
  {
    Reminder(id, d.chatId, d.task, d.scheduleDateTime, d.jobId.GetOr(""), false,
             d.code.GetOr(""), d.repeat, d.repeatCount, d.repeatUntil)
  }

  /** The index `loadReminders` builds: every document after `now`, loaded. */
  function LoadedIndex(docs: map<string, Doc>, now: int): (m: map<string, Reminder>)
    ensures Keyed(m)
    ensures forall id :: id in m <==> id in docs && docs[id].scheduleDateTime > now
    ensures forall id :: id in m ==> m[id] == Loaded(id, docs[id])
  {
    map id | id in docs && docs[id].scheduleDateTime > now :: Loaded(id, docs[id])
  }

  /** `snapshot.docs.map(...)`, in query order. */
  function LoadedList(docs: map<string, Doc>, order: seq<string>): (rs: seq<Reminder>)
    requires forall i :: 0 <= i < |order| ==> order[i] in docs
    ensures |rs| == |order|
    ensures forall i :: 0 <= i < |order| ==> rs[i] == Loaded(order[i], docs[order[i]])
  {
    seq(|order|, i requires 0 <= i < |order| => Loaded(order[i], docs[order[i]]))
  }

  lemma LoadedListRebuilds(docs: map<string, Doc>, now: int, order: seq<string>)
    requires Sorts(InstantOf(docs), order, Upcoming(docs, now))
    ensures FromSeq(LoadedList(docs, order)) == LoadedIndex(docs, now)
  {
    LoadedListLists(docs, now, order);
    ResetWithListing(LoadedList(docs, order), LoadedIndex(docs, now));
  }

  lemma LoadedListLists(docs: map<string, Doc>, now: int, order: seq<string>)
    requires Sorts(InstantOf(docs), order, Upcoming(docs, now))
    ensures Lists(LoadedList(docs, order), LoadedIndex(docs, now))
  {
    var rs, m := LoadedList(docs, order), LoadedIndex(docs, now);
    assert m.Keys == Upcoming(docs, now);
    assert |rs| == |m|;
    forall k | k in m ensures m[k] in rs {
      var i :| 0 <= i < |order| && order[i] == k;
      assert rs[i] == m[k];
    }
  }

  /** The upcoming documents, loaded in query order. */
  function Snapshot(docs: map<string, Doc>, now: int): (rs: seq<Reminder>)
    ensures FromSeq(rs) == LoadedIndex(docs, now)
  {
    var order := SortedIds(InstantOf(docs), Upcoming(docs, now));
    LoadedListRebuilds(docs, now, order);
    LoadedList(docs, order)
  }

  /** `loadReminders(now)`: every document at or before `now` is deleted and
      the index is reset to the later ones; when the store fails the index is
      cleared. */
  method LoadReminders(db: Collection, local: StoreModel.ReminderManager, now: int, up: bool)
    modifies db, local
    ensures local.Valid()
    ensures up ==> db.docs == WithoutExpired(old(db.docs), now)
    ensures up ==> local.reminders == LoadedIndex(old(db.docs), now)
    ensures !up ==> db.docs == old(db.docs) && local.reminders == map[]
  {
    if !up {
      local.Clear();
      return;
    }
    var docs0 := db.docs;
    var rs := Snapshot(docs0, now);
    db.DeleteEach(ExpiredSnapshot(docs0, now));
    DeleteExpired(docs0, now);
    local.Reset(rs);
  }

  /** The document `set(..., {merge: true})` leaves: the six written fields
      replaced, everything else kept; a missing document is created with
      only those six fields. */
  function Merged(old_: Option<Doc>, r: Reminder): (d: Doc)
    ensures d.chatId == r.chatId && d.task == r.task && d.scheduleDateTime == r.scheduleDateTime
    ensures d.jobId == Some(r.jobId) && d.isScheduled == r.isScheduled && d.code == Some(r.code)
    ensures old_.Some? ==> d.repeat == old_.value.repeat && d.repeatCount == old_.value.repeatCount
                           && d.repeatUntil == old_.value.repeatUntil
    ensures old_.None? ==> d.repeat.None? && d.repeatCount.None? && d.repeatUntil.None?
  {
    match old_
    case Some(d0) =>
      d0.(chatId := r.chatId, task := r.task, scheduleDateTime := r.scheduleDateTime,
          jobId := Some(r.jobId), isScheduled := r.isScheduled, code := Some(r.code))
    case None =>
      Doc(r.chatId, r.task, r.scheduleDateTime, Some(r.jobId), r.isScheduled, Some(r.code), None, None, None)
  }

  function Lookup(docs: map<string, Doc>, id: string): Option<Doc> {
    if id in docs then Some(docs[id]) else None
  }

  /** The collection after `updateReminder(r)`. */
  function UpdatedDocs(docs: map<string, Doc>, r: Reminder, up: bool): map<string, Doc> {
    if r.id == "" || !up then docs else docs[r.id := Merged(Lookup(docs, r.id), r)]
  }

  /** The index after `updateReminder(r)`: upserted on success only. */
  function UpdatedIndex(index: map<string, Reminder>, r: Reminder, up: bool): map<string, Reminder> {
    if r.id == "" || !up then index else index[r.id := r]
  }

  /** `updateReminder(r)`: nothing without an id; otherwise a merge-write of
      six fields and, when that succeeds, an upsert into the index. */
  method UpdateReminder(db: Collection, local: StoreModel.ReminderManager, r: Reminder, up: bool)
    requires local.Valid()
    modifies db, local
    ensures local.Valid()
    ensures db.docs == UpdatedDocs(old(db.docs), r, up)
    ensures local.reminders == UpdatedIndex(old(local.reminders), r, up)
  {
    if r.id == "" {
      return;
    }
    if up {
      db.docs := db.docs[r.id := Merged(Lookup(db.docs, r.id), r)];
      local.Add(r);
    }
  }

  /** Updates never persist the repeat fields: whatever the in-memory
      reminder holds, the stored `repeat`, `repeatCount` and `repeatUntil`
      stay as they were. */
  lemma UpdateKeepsRepeatFields(docs: map<string, Doc>, r: Reminder, up: bool)
    requires r.id in docs
    ensures r.id in UpdatedDocs(docs, r, up)
    ensures UpdatedDocs(docs, r, up)[r.id].repeat == docs[r.id].repeat
    ensures UpdatedDocs(docs, r, up)[r.id].repeatCount == docs[r.id].repeatCount
    ensures UpdatedDocs(docs, r, up)[r.id].repeatUntil == docs[r.id].repeatUntil
    ensures forall id :: id in docs && id != r.id ==> UpdatedDocs(docs, r, up)[id] == docs[id]
  {
  }

  /** The document `addReminder` writes. */
  function NewDoc(r: Reminder): (d: Doc)
    ensures d.jobId == Some("") && !d.isScheduled
    ensures d.chatId == r.chatId && d.task == r.task && d.scheduleDateTime == r.scheduleDateTime
    ensures d.code == Some(r.code) && d.repeat == r.repeat && d.repeatCount == r.repeatCount
    ensures d.repeatUntil == r.repeatUntil
  {
    Doc(r.chatId, r.task, r.scheduleDateTime, Some(""), false, Some(r.code), r.repeat, r.repeatCount, r.repeatUntil)
  }

  /** `addReminder(r)`: the store picks the fresh id `newId`. On success the
      document is written and the reminder indexed under that id, unarmed;
      on failure nothing changes and the error is passed on. */
  method AddReminder(db: Collection, local: StoreModel.ReminderManager, r: Reminder, newId: string, up: bool)
    returns (res: Result<string, StoreError>)
    requires local.Valid()
    requires newId != "" && newId !in db.docs
    modifies db, local
    ensures local.Valid()
    ensures up ==> res == Success(newId)
    ensures up ==> db.docs == old(db.docs)[newId := NewDoc(r)]
    ensures up ==> local.reminders == old(local.reminders)[newId := r.(id := newId, jobId := "", isScheduled := false)]
    ensures !up ==> res == Failure(StoreUnavailable)
    ensures !up ==> db.docs == old(db.docs) && local.reminders == old(local.reminders)
  {
    if !up {
      return Failure(StoreUnavailable);
    }
    db.docs := db.docs[newId := NewDoc(r)];
    local.Add(r.(id := newId, jobId := "", isScheduled := false));
    res := Success(newId);
  }

  /** The documents a `where("code", "==", code)` query returns. */
  function WithCode(docs: map<string, Doc>, code: string): (ids: set<string>)
    ensures forall id :: id in ids <==> id in docs && docs[id].code == Some(code)
  {
    set id | id in docs && docs[id].code == Some(code)
  }

  /** The document `deleteReminder(code)` deletes: with `limit(1)` and no
      ordering the store returns the least matching document id. */
  function DeleteTarget(docs: map<string, Doc>, code: string, up: bool): (t: Option<string>)
    ensures t.Some? <==> up && WithCode(docs, code) != {}
    ensures t.Some? ==> t.value in docs && docs[t.value].code == Some(code)
    ensures t.Some? ==> forall id :: id in WithCode(docs, code) ==> IdLe(t.value, id)
  {
    if up && WithCode(docs, code) != {} then Some(MinBy(_ => 0, WithCode(docs, code))) else None
  }

  /** `deleteReminder(code)`: true iff some document has that code; exactly
      that one document is deleted and its id removed from the index (which
      stops its job). A miss or a failure changes nothing. */
  method DeleteReminder(db: Collection, local: StoreModel.ReminderManager, reg: JobRegistry, code: string, up: bool)
    returns (deleted: bool)
    requires local.Valid()
    modifies db, local, reg
    ensures local.Valid()
    ensures deleted <==> DeleteTarget(old(db.docs), code, up).Some?
    ensures deleted ==> var id := DeleteTarget(old(db.docs), code, up).value;
      && db.docs == old(db.docs) - {id}
      && local.reminders == old(local.reminders) - {id}
      && reg.State() == StoreModel.RemoveJobs(old(local.reminders), old(reg.State()), id)
    ensures !deleted ==> db.docs == old(db.docs) && local.reminders == old(local.reminders) && reg.State() == old(reg.State())
  {
    if !up {
      return false;
    }
    var snapshot := WithCode(db.docs, code);
    if snapshot == {} {
      return false;
    }
    var id := MinBy(_ => 0, snapshot);
    db.docs := db.docs - {id};
    var _ := local.Remove(id, reg);
    deleted := true;
  }

  /** `{...data, id, scheduleDateTime}`: a listed document as a reminder. */
  function Listed(id: string, d: Doc): (r: Reminder)
    ensures r.id == id && r.chatId == d.chatId && r.scheduleDateTime == d.scheduleDateTime
    ensures r.isScheduled == d.isScheduled && r.task == d.task
  {
    Reminder(id, d.chatId, d.task, d.scheduleDateTime, d.jobId.GetOr(""), d.isScheduled,
             d.code.GetOr(""), d.repeat, d.repeatCount, d.repeatUntil)
  }

  /** The documents `getAllUserReminders` asks for. */
  function ActiveOf(docs: map<string, Doc>, chatId: int, now: int): (ids: set<string>)
    ensures forall id :: id in ids <==>
      id in docs && docs[id].chatId == chatId && docs[id].isScheduled && docs[id].scheduleDateTime > now
  {
    set id | id in docs && docs[id].chatId == chatId && docs[id].isScheduled && docs[id].scheduleDateTime > now
  }

  /** The chat's documents listed in the order `order`. */
  function ListedList(docs: map<string, Doc>, order: seq<string>): (rs: seq<Reminder>)
    requires forall i :: 0 <= i < |order| ==> order[i] in docs
    ensures |rs| == |order|
    ensures forall i :: 0 <= i < |order| ==> rs[i] == Listed(order[i], docs[order[i]])
  {
    seq(|order|, i requires 0 <= i < |order| => Listed(order[i], docs[order[i]]))
  }

  /** Listing in ascending instant order: every wanted document exactly
      once, with instants non-decreasing. */
  ghost predicate ListsAscending(rs: seq<Reminder>, docs: map<string, Doc>, ids: set<string>) {
    && ids <= docs.Keys
    && |rs| == |ids|
    && (forall i :: 0 <= i < |rs| ==> rs[i].id in ids && rs[i] == Listed(rs[i].id, docs[rs[i].id]))
    && (forall id :: id in ids ==> exists i :: 0 <= i < |rs| && rs[i].id == id)
    && (forall i, j :: 0 <= i < j < |rs| ==> rs[i].id != rs[j].id)
    && (forall i, j :: 0 <= i < j < |rs| ==> rs[i].scheduleDateTime <= rs[j].scheduleDateTime)
  }

  lemma ListedListAscending(docs: map<string, Doc>, ids: set<string>, order: seq<string>)
    requires ids <= docs.Keys && Sorts(InstantOf(docs), order, ids)
    ensures ListsAscending(ListedList(docs, order), docs, ids)
  {
    var rs := ListedList(docs, order);
    assert forall i :: 0 <= i < |order| ==> rs[i].id == order[i];
    forall id | id in ids ensures exists i :: 0 <= i < |rs| && rs[i].id == id {
      var i :| 0 <= i < |order| && order[i] == id;
      assert rs[i].id == id;
    }
  }

  /** `getAllUserReminders(chatId, limit)`: the chat's armed future documents in
      ascending instant order, every one of them (`query.limit(limit)` builds
      a new query whose value is dropped); `None` when the store fails. */
  function GetAllUserReminders(docs: map<string, Doc>, chatId: int, limit: int, now: int, up: bool)
    : (res: Option<seq<Reminder>>)
    ensures res.Some? <==> up
    ensures res.Some? ==> ListsAscending(res.value, docs, ActiveOf(docs, chatId, now))
  {
    if !up then None
    else
      var ids := ActiveOf(docs, chatId, now);
      var order := SortedIds(InstantOf(docs), ids);
      ListedListAscending(docs, ids, order);
      Some(ListedList(docs, order))
  }

  /** The limit has no effect on the listing. */
  lemma LimitIsIgnored(docs: map<string, Doc>, chatId: int, l1: int, l2: int, now: int, up: bool)
    ensures GetAllUserReminders(docs, chatId, l1, now, up) == GetAllUserReminders(docs, chatId, l2, now, up)
  {
  }

  /** The documents a `where("chatId", "==", chatId)` query returns: a number
      matches only a number and a string only a string. */
  function OwnedDocs(docs: map<string, Doc>, chatId: JsValue): (ids: set<string>)
    ensures forall id :: id in ids <==> id in docs && StrictEquals(JsNumber(docs[id].chatId), chatId)
  {
    set id | id in docs && StrictEquals(JsNumber(docs[id].chatId), chatId)
  }

  /** `clearUserReminders(chatId)`: one batch deletes every document of that
      chat. The index and the job registry are not touched. */
  method ClearUserReminders(db: Collection, chatId: JsValue, up: bool)
    modifies db
    ensures up ==> db.docs == old(db.docs) - OwnedDocs(old(db.docs), chatId)
    ensures !up ==> db.docs == old(db.docs)
  {
    if !up {
      return;
    }
    var snapshot := SortedIds(_ => 0, OwnedDocs(db.docs, chatId));
    if |snapshot| == 0 {
      return;
    }
    var batch: set<string> := {};
    for i := 0 to |snapshot|
      invariant batch == set j | 0 <= j < i :: snapshot[j]
    {
      assert (set j | 0 <= j < i + 1 :: snapshot[j]) == batch + {snapshot[i]};
      batch := batch + {snapshot[i]};
    }
    assert batch == OwnedDocs(db.docs, chatId) by {
      forall x | x in OwnedDocs(db.docs, chatId) ensures x in batch {
        var i :| 0 <= i < |snapshot| && snapshot[i] == x;
      }
    }
    db.docs := db.docs - batch;
  }

  /** Clearing with a string id, as the clear dialog does with the profile id,
      deletes nothing: stored chat ids are numbers. */
  lemma ClearWithStringIdKeepsAll(docs: map<string, Doc>, userId: string)
    ensures OwnedDocs(docs, JsString(userId)) == {}
  {
  }
}
