/** The store operations of the earlier src/firebase.ts, against the same
    abstract collection and the earlier in-memory index of src/manager.ts.
    These versions know nothing of codes or repetition. */
module Firebase {
  import opened Wrappers
  import opened Types
  import opened Order
  import opened ReminderMap
  import opened Firestore
  import Manager

  datatype StoreError = StoreUnavailable

  /** `{id, chatId, task, scheduleDateTime, jobId: data.jobId || "", isScheduled: false}`:
      the fields the earlier loader copies; code and repetition are dropped. */
  function Loaded(id: string, d: Doc): (r: Reminder)
    ensures r.id == id && r.chatId == d.chatId && r.task == d.task
    ensures r.scheduleDateTime == d.scheduleDateTime && !r.isScheduled
    ensures r.jobId == (if d.jobId.Some? then d.jobId.value else "")
    ensures r.code == "" && r.repeat.None? && r.repeatCount.None? && r.repeatUntil.None?
  {
    Reminder(id, d.chatId, d.task, d.scheduleDateTime, d.jobId.GetOr(""), false, "", None, None, None)
  }

  /** The index the earlier `loadReminders` builds. */
  function LoadedIndex(docs: map<string, Doc>, now: int): (m: map<string, Reminder>)
    ensures Keyed(m)
    ensures forall id :: id in m <==> id in docs && docs[id].scheduleDateTime > now
    ensures forall id :: id in m ==> m[id] == Loaded(id, docs[id])
  {
    map id | id in docs && docs[id].scheduleDateTime > now :: Loaded(id, docs[id])
  }

  function LoadedList(docs: map<string, Doc>, order: seq<string>): (rs: seq<Reminder>)
    requires forall i :: 0 <= i < |order| ==> order[i] in docs
    ensures |rs| == |order|
    ensures forall i :: 0 <= i < |order| ==> rs[i] == Loaded(order[i], docs[order[i]])
  {
    seq(|order|, i requires 0 <= i < |order| => Loaded(order[i], docs[order[i]]))
  }

  lemma LoadedListLists(docs: map<string, Doc>, now: int, order: seq<string>)
    requires Sorts(InstantOf(docs), order, Upcoming(docs, now))
    ensures Lists(LoadedList(docs, order), LoadedIndex(docs, now))
  {
    var rs, m := LoadedList(docs, order), LoadedIndex(docs, now);
    assert m.Keys == Upcoming(docs, now);
    assert |rs| == |m|;
    forall k | k in m ensures m[k] in rs {
      var i :| 0 <= i < |order| && order[i] == k;
      assert rs[i] == m[k];
    }
  }

  /** The upcoming documents, loaded in query order. */
  function Snapshot(docs: map<string, Doc>, now: int): (rs: seq<Reminder>)
    ensures FromSeq(rs) == LoadedIndex(docs, now)
  {
    var order := SortedIds(InstantOf(docs), Upcoming(docs, now));
    LoadedListLists(docs, now, order);
    ResetWithListing(LoadedList(docs, order), LoadedIndex(docs, now));
    LoadedList(docs, order)
  }

  /** The earlier `loadReminders()`: expired documents deleted, the index
      reset to the upcoming ones; cleared when the store fails. */
  method LoadReminders(db: Collection, local: Manager.ReminderManager, now: int, up: bool)
    modifies db, local
    ensures local.Valid()
    ensures up ==> db.docs == WithoutExpired(old(db.docs), now)
    ensures up ==> local.reminders == LoadedIndex(old(db.docs), now)
    ensures !up ==> db.docs == old(db.docs) && local.reminders == map[]
  {
    if !up {
      local.Clear();
      return;
    }
    var docs0 := db.docs;
    var rs := Snapshot(docs0, now);
    db.DeleteEach(ExpiredSnapshot(docs0, now));
    DeleteExpired(docs0, now);
    local.Reset(rs);
  }

  /** The document the earlier merge-write leaves: five fields replaced,
      code and repetition kept; a missing document gets only those five. */
  function Merged(old_: Option<Doc>, r: Reminder): (d: Doc)
    ensures d.chatId == r.chatId && d.task == r.task && d.scheduleDateTime == r.scheduleDateTime
    ensures d.jobId == Some(r.jobId) && d.isScheduled == r.isScheduled
    ensures old_.Some? ==> d.code == old_.value.code && d.repeat == old_.value.repeat
                           && d.repeatCount == old_.value.repeatCount && d.repeatUntil == old_.value.repeatUntil
    ensures old_.None? ==> d.code.None? && d.repeat.None? && d.repeatCount.None? && d.repeatUntil.None?
  {
    match old_
    case Some(d0) =>
      d0.(chatId := r.chatId, task := r.task, scheduleDateTime := r.scheduleDateTime,
          jobId := Some(r.jobId), isScheduled := r.isScheduled)
    case None =>
      Doc(r.chatId, r.task, r.scheduleDateTime, Some(r.jobId), r.isScheduled, None, None, None, None)
  }

  function Lookup(docs: map<string, Doc>, id: string): Option<Doc> {
    if id in docs then Some(docs[id]) else None
  }

  /** The collection after the earlier `updateReminder(r)`. */
  function UpdatedDocs(docs: map<string, Doc>, r: Reminder, up: bool): map<string, Doc> {
    if r.id == "" || !up then docs else docs[r.id := Merged(Lookup(docs, r.id), r)]
  }

  /** The earlier `updateReminder(r)`: a merge-write to the store only; the
      in-memory index is left to the caller. */
  method UpdateReminder(db: Collection, r: Reminder, up: bool)
    modifies db
    ensures db.docs == UpdatedDocs(old(db.docs), r, up)
  {
    if r.id == "" {
      return;
    }
    if up {
      db.docs := db.docs[r.id := Merged(Lookup(db.docs, r.id), r)];
    }
  }

  /** An update touches one document and only its five status fields. */
  lemma UpdateTouchesOneDocument(docs: map<string, Doc>, r: Reminder, up: bool)
    requires r.id in docs
    ensures UpdatedDocs(docs, r, up).Keys == docs.Keys
    ensures UpdatedDocs(docs, r, up)[r.id].code == docs[r.id].code
    ensures UpdatedDocs(docs, r, up)[r.id].repeat == docs[r.id].repeat
    ensures forall id :: id in docs && id != r.id ==> UpdatedDocs(docs, r, up)[id] == docs[id]
  {
  }

  /** The document the earlier `addReminder` writes: unarmed, without code. */
  function NewDoc(r: Reminder): (d: Doc)
    ensures d.jobId == Some("") && !d.isScheduled && d.code.None? && d.repeat.None?
    ensures d.chatId == r.chatId && d.task == r.task && d.scheduleDateTime == r.scheduleDateTime
  {
    Doc(r.chatId, r.task, r.scheduleDateTime, Some(""), false, None, None, None, None)
  }

  /** The earlier `addReminder(data)`: the store picks the fresh id `newId`;
      only the store is written; a failure is passed on. */
  method AddReminder(db: Collection, r: Reminder, newId: string, up: bool)
    returns (res: Result<string, StoreError>)
    requires newId != "" && newId !in db.docs
    modifies db
    ensures up ==> res == Success(newId) && db.docs == old(db.docs)[newId := NewDoc(r)]
    ensures !up ==> res == Failure(StoreUnavailable) && db.docs == old(db.docs)
  {
    if !up {
      return Failure(StoreUnavailable);
    }
    db.docs := db.docs[newId := NewDoc(r)];
    res := Success(newId);
  }

  /** The earlier `deleteReminder(id)`: deletes the document with that id;
      an empty id is an invalid path and, like a store failure, is logged
      and swallowed. */
  method DeleteReminder(db: Collection, id: string, up: bool)
    modifies db
    ensures up && id != "" ==> db.docs == old(db.docs) - {id}
    ensures !up || id == "" ==> db.docs == old(db.docs)
  {
    if up && id != "" {
      db.docs := db.docs - {id};
    }
  }
}
