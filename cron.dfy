/** The earlier, one-shot delivery code of src/cron.ts: a reminder is armed
    with a plain timeout; when it fires and the send succeeds the reminder
    is deleted by id everywhere, otherwise it is unmarked. */
module Cron {
  import opened Wrappers
  import opened Types
  import opened ReminderMap
  import opened Jobs
  import opened Firestore
  import opened Worlds
  import Manager
  import Firebase

  function Snap(local: Manager.ReminderManager, reg: JobRegistry, db: Collection): World
    reads local, reg, db
  {
    World(local.reminders, reg.State(), db.docs)
  }

  /** The earlier `deleteReminder(id)` on the store. */
  function DeleteById(docs: map<string, Doc>, id: string, up: bool): (d: map<string, Doc>)
    ensures up && id != "" ==> d == docs - {id}
    ensures !(up && id != "") ==> d == docs
  {
    if up && id != "" then docs - {id} else docs
  }

  /** The earlier `scheduleNotification(r)`: the new world and the reminder
      object's new value. A past reminder is only deleted from the store; any
      other is armed with a timeout of `scheduleDateTime - now`, marked and
      written to the store. */
  function Schedule(w: World, r: Reminder, now: int, up: bool): (World, Reminder) {
    if IsPast(r.scheduleDateTime, now) then (w.(docs := DeleteById(w.docs, r.id, up)), r)
    else
      var w1 := WriteThrough(w.(reg := ArmJob(w.reg, JobKey(r.id), Marked(r), r.scheduleDateTime - now)), Marked(r));
      (w1.(docs := Firebase.UpdatedDocs(w1.docs, Marked(r), up)), Marked(r))
  }

  /** A past reminder arms nothing and stays as it is, in memory and in the
      index; only its document is deleted. */
  lemma SchedulePastOnlyDeletes(w: World, r: Reminder, now: int, up: bool)
    requires IsPast(r.scheduleDateTime, now)
    ensures Schedule(w, r, now, up).1 == r
    ensures Schedule(w, r, now, up).0.reg == w.reg && Schedule(w, r, now, up).0.index == w.index
    ensures up && r.id != "" ==> Schedule(w, r, now, up).0.docs == w.docs - {r.id}
    ensures !(up && r.id != "") ==> Schedule(w, r, now, up).0.docs == w.docs
  {
  }

  /** A reminder that is not past gets a fresh running timer with delay
      `scheduleDateTime - now` under `"reminder-" + id`, is marked with that
      key, and the store records the mark; no clamp, no chaining. */
  lemma ScheduleArmsTimeout(w: World, r: Reminder, now: int, up: bool)
    requires w.reg.Valid() && !IsPast(r.scheduleDateTime, now)
    ensures var (w', r') := Schedule(w, r, now, up);
      && r' == Marked(r) && r'.jobId == JobKey(r.id) && r'.isScheduled
      && JobKey(r.id) in w'.reg.jobs
      && w'.reg.jobs[JobKey(r.id)].delay == r.scheduleDateTime - now
      && w'.reg.jobs[JobKey(r.id)].reminder == r'
      && w'.reg.jobs[JobKey(r.id)].timer in w'.reg.running
      && w'.reg.jobs[JobKey(r.id)].timer !in w.reg.running
      && w'.reg.Valid()
      && w'.index.Keys == w.index.Keys
      && (r.id in w.index ==> w'.index[r.id] == r')
      && (up && r.id != "" ==> r.id in w'.docs && w'.docs[r.id].isScheduled && w'.docs[r.id].jobId == Some(JobKey(r.id)))
  {
  }

  /** The timeout callback of the job under `key`; `send` is whether the
      message went out. */
  function Deliver(w: World, key: string, send: bool, up: bool): World
    requires key in w.reg.jobs
  {
    var job := w.reg.jobs[key];
    var reg0 := CompleteJob(w.reg, job.timer);
    var r := Current(w.index, job.reminder);
    if send then
      World(w.index - {r.id}, ForgetJob(reg0, key), DeleteById(w.docs, r.id, up))
    else
      var r1 := r.(isScheduled := false);
      var w1 := WriteThrough(w.(reg := reg0), r1);
      w1.(docs := Firebase.UpdatedDocs(w1.docs, r1, up))
  }

  method WriteBack(local: Manager.ReminderManager, r: Reminder)
    requires local.Valid()
    modifies local
    ensures local.Valid()
    ensures local.reminders == WriteThrough(World(old(local.reminders), Empty, map[]), r).index
  {
    if r.id in local.reminders {
      local.Add(r);
    }
  }

  /** The earlier `scheduleNotification(reminder)`; returns the object's new
      value. */
  method ScheduleNotification(db: Collection, local: Manager.ReminderManager, reg: JobRegistry,
                              r: Reminder, now: int, up: bool) returns (r': Reminder)
    requires local.Valid()
    modifies db, local, reg
    ensures local.Valid()
    ensures (Snap(local, reg, db), r') == Schedule(old(Snap(local, reg, db)), r, now, up)
  {
    if IsPast(r.scheduleDateTime, now) {
      Firebase.DeleteReminder(db, r.id, up);
      return r;
    }
    var delay := r.scheduleDateTime - now;
    reg.Arm(JobKey(r.id), Marked(r), delay);
    r' := Marked(r);
    WriteBack(local, r');
    Firebase.UpdateReminder(db, r', up);
  }

  /** The timeout under `key` fires. Only a registered timer still running
      can fire. */
  method Fire(db: Collection, local: Manager.ReminderManager, reg: JobRegistry, key: string, send: bool, up: bool)
    requires local.Valid()
    requires key in reg.jobs && reg.jobs[key].timer in reg.running
    modifies db, local, reg
    ensures local.Valid()
    ensures Snap(local, reg, db) == Deliver(old(Snap(local, reg, db)), key, send, up)
  {
    var job := reg.jobs[key];
    reg.Complete(job.timer);
    var r := Current(local.reminders, job.reminder);
    if send {
      Firebase.DeleteReminder(db, r.id, up);
      var _ := local.Remove(r.id);
      reg.Delete(key);
    } else {
      var r1 := r.(isScheduled := false);
      WriteBack(local, r1);
      Firebase.UpdateReminder(db, r1, up);
    }
  }

  /** A successful fire deletes the reminder's own document (the store being
      up), drops it from the index and forgets its key. */
  lemma DeliverSentRemoves(w: World, key: string, up: bool)
    requires key in w.reg.jobs
    ensures var r := Current(w.index, w.reg.jobs[key].reminder);
      var w' := Deliver(w, key, true, up);
      && r.id !in w'.index
      && key !in w'.reg.jobs
      && w'.reg.running == w.reg.running - {w.reg.jobs[key].timer}
      && (up && r.id != "" ==> r.id !in w'.docs)
      && (forall id :: id in w.docs && id != r.id ==> id in w'.docs && w'.docs[id] == w.docs[id])
  {
  }

  /** A failed fire unmarks the reminder in memory and, the store being up,
      in its document; the index keeps exactly its ids and the key stays
      registered. */
  lemma DeliverFailedKeeps(w: World, key: string, up: bool)
    requires key in w.reg.jobs
    ensures var r := Current(w.index, w.reg.jobs[key].reminder);
      var w' := Deliver(w, key, false, up);
      && w'.index.Keys == w.index.Keys
      && (r.id in w.index ==> w'.index[r.id] == r.(isScheduled := false))
      && key in w'.reg.jobs
      && (up && r.id != "" ==> r.id in w'.docs && !w'.docs[r.id].isScheduled)
  {
  }

  /** One element of the earlier reschedule loop: an unmarked future reminder
      is armed, a past one is deleted from the store only, any other is left
      alone. */
  function RescheduleOne(w: World, r: Reminder, now: int, up: bool): World {
    if !r.isScheduled && !IsPast(r.scheduleDateTime, now) then Schedule(w, r, now, up).0
    else if IsPast(r.scheduleDateTime, now) then w.(docs := DeleteById(w.docs, r.id, up))
    else w
  }

  /** A past reminder met by the reschedule loop stays in the index and in
      the registry as it was; only its document is deleted. */
  lemma ReschedulePastStaysIndexed(w: World, r: Reminder, now: int, up: bool)
    requires IsPast(r.scheduleDateTime, now)
    ensures RescheduleOne(w, r, now, up).index == w.index
    ensures RescheduleOne(w, r, now, up).reg == w.reg
    ensures up && r.id != "" ==> r.id !in RescheduleOne(w, r, now, up).docs
  {
  }

  lemma ProgressStep(s: seq<Reminder>, m0: map<string, Reminder>, i: int, w: World, now: int, up: bool)
    requires FreshListing(s, m0, now) && Progress(s, m0, i, w.index, w.reg) && i < |s|
    ensures Progress(s, m0, i + 1, RescheduleOne(w, s[i], now, up).index, RescheduleOne(w, s[i], now, up).reg)
  {
    var r := s[i];
    var w' := RescheduleOne(w, r, now, up);
    forall j | 0 <= j < i ensures ArmedFor(s[j], w'.index, w'.reg) {
      assert s[j].id != r.id;
      if JobKey(s[j].id) == JobKey(r.id) {
        JobKeyInjective(s[j].id, r.id);
      }
    }
    forall j | i + 1 <= j < |s| ensures s[j].id in w'.index && w'.index[s[j].id] == s[j] {
      assert s[j].id != r.id;
    }
  }

  /** The `forEach` of the earlier `rescheduleAllReminders` over `s`, one
      `RescheduleOne` per element; from a fresh listing of the index it arms
      every entry. */
  method RescheduleListed(db: Collection, local: Manager.ReminderManager, reg: JobRegistry,
                          s: seq<Reminder>, now: int, up: bool)
    requires local.Valid()
    modifies db, local, reg
    ensures local.Valid()
    ensures FreshListing(s, old(local.reminders), now) ==>
      local.reminders.Keys == old(local.reminders).Keys && AllArmed(local.reminders, reg.State(), now)
    ensures s == [] ==> Snap(local, reg, db) == old(Snap(local, reg, db))
  {
    ghost var m0 := local.reminders;
    for i := 0 to |s|
      invariant local.Valid()
      invariant FreshListing(s, m0, now) ==> Progress(s, m0, i, local.reminders, reg.State())
      invariant s == [] ==> Snap(local, reg, db) == old(Snap(local, reg, db))
    {
      var r := s[i];
      ghost var w := Snap(local, reg, db);
      if !r.isScheduled && !IsPast(r.scheduleDateTime, now) {
        var _ := ScheduleNotification(db, local, reg, r, now, up);
      } else if IsPast(r.scheduleDateTime, now) {
        Firebase.DeleteReminder(db, r.id, up);
      }
      assert Snap(local, reg, db) == RescheduleOne(w, r, now, up);
      if FreshListing(s, m0, now) {
        ProgressStep(s, m0, i, w, now, up);
      }
    }
    if FreshListing(s, m0, now) {
      ProgressEnd(s, m0, local.reminders, reg.State(), now);
    }
  }

  /** The earlier `rescheduleAllReminders()`: load, then arm every loaded
      reminder. With the store up the index holds exactly the documents after
      `now`, each armed; with it down the index is empty. */
  method RescheduleAllReminders(db: Collection, local: Manager.ReminderManager, reg: JobRegistry, now: int, up: bool)
    modifies db, local, reg
    ensures local.Valid()
    ensures AllArmed(local.reminders, reg.State(), now)
    ensures up ==> local.reminders.Keys == Upcoming(old(db.docs), now)
    ensures !up ==> local.reminders == map[] && reg.State() == old(reg.State())
  {
    Firebase.LoadReminders(db, local, now, up);
    var s := local.ToArray();
    RescheduleListed(db, local, reg, s, now, up);
  }
}
