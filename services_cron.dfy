/** The delivery state machine of src/services/cron.ts: arming a reminder's
    job, delivering it when the job fires, and re-arming everything after a
    restart. The world is the in-memory index, the job registry and the
    store; each operation is specified by a pure function on the world. */
module ServicesCron {
  import opened Wrappers
  import opened Types
  import opened ReminderMap
  import opened Jobs
  import opened Firestore
  import opened StoreModel
  import opened StoreFirebase
  import opened Worlds

  /** The next occurrence of a repeating reminder, as `getNextRepeatDate`
      computes it; its body is not part of this model. */
  type NextRepeat = (int, RepeatType) -> Option<int>

  function Snap(local: ReminderManager, reg: JobRegistry, db: Collection): World
    reads local, reg, db
  {
    World(local.reminders, reg.State(), db.docs)
  }

  /** `store.deleteReminder(code)`, with its index and registry effects. */
  function DeleteByCode(w: World, code: string, up: bool): World {
    match DeleteTarget(w.docs, code, up)
    case None => w
    case Some(id) => World(w.index - {id}, RemoveJobs(w.index, w.reg, id), w.docs - {id})
  }

  /** `store.updateReminder(r)`. */
  function Update(w: World, r: Reminder, up: bool): World {
    World(UpdatedIndex(w.index, r, up), w.reg, UpdatedDocs(w.docs, r, up))
  }

  /** `local.remove(id)`. */
  function Forget(w: World, id: string): World {
    World(w.index - {id}, RemoveJobs(w.index, w.reg, id), w.docs)
  }

  /** `scheduleNotification(r)`: the new world and the reminder object's new
      value. */
  function Schedule(w: World, r: Reminder, now: int, up: bool): (World, Reminder) {
    if IsPast(r.scheduleDateTime, now) then (DeleteByCode(w, r.id, up), r)
    else
      var w1 := WriteThrough(w.(reg := ArmJob(w.reg, JobKey(r.id), Marked(r), r.scheduleDateTime - now)), Marked(r));
      (Update(w1, Marked(r), up), Marked(r))
  }

  /** `nextDate && (!repeatUntil || nextDate <= repeatUntil)`. */
  predicate Continues(r: Reminder, next: NextRepeat) {
    && r.repeat.Some?
    && next(r.scheduleDateTime, r.repeat.value).Some?
    && (r.repeatUntil.None? || next(r.scheduleDateTime, r.repeat.value).value <= r.repeatUntil.value)
  }

  /** `typeof repeatCount === "number"`, then `repeatCount -= 1`. */
  function Decremented(r: Reminder): Reminder {
    if r.repeatCount.Some? then r.(repeatCount := Some(r.repeatCount.value - 1)) else r
  }

  /** The count ran out: `repeatCount <= 0` after the decrement. */
  predicate Exhausted(r: Reminder) {
    r.repeatCount.Some? && r.repeatCount.value <= 0
  }

  /** The terminal clean-up: `store.deleteReminder(id)`, `local.remove(id)`,
      `delete scheduledJobs[key]`. */
  function CleanUp(w: World, id: string, key: string, up: bool): World {
    var w1 := Forget(DeleteByCode(w, id, up), id);
    w1.(reg := ForgetJob(w1.reg, key))
  }

  /** `deliverReminder(reminder, key)` once the job under `key` fires at
      `now`; `send` is whether the message went out. */
  function Deliver(w: World, key: string, send: bool, next: NextRepeat, now: int, up: bool): World
    requires key in w.reg.jobs
  {
    var job := w.reg.jobs[key];
    var w0 := w.(reg := CompleteJob(w.reg, job.timer));
    var r := Current(w0.index, job.reminder);
    if !send then
      var r1 := r.(isScheduled := false);
      Update(WriteThrough(w0, r1), r1, up)
    else if Continues(r, next) then
      var r1 := r.(scheduleDateTime := next(r.scheduleDateTime, r.repeat.value).value);
      var r2 := Decremented(r1);
      var w2 := WriteThrough(WriteThrough(w0, r1), r2);
      if Exhausted(r2) then
        Forget(DeleteByCode(w2, r.id, up), r.id)
      else
        var (w3, r3) := Schedule(w2, r2, now, up);
        Update(w3, r3, up)
    else
      CleanUp(w0, r.id, key, up)
  }

  /** The method form of the write-through rule. */
  method WriteBack(local: ReminderManager, r: Reminder)
    requires local.Valid()
    modifies local
    ensures local.Valid()
    ensures local.reminders == WriteThrough(World(old(local.reminders), Empty, map[]), r).index
  {
    if r.id in local.reminders {
      local.Add(r);
    }
  }

  method DeleteByCodeM(db: Collection, local: ReminderManager, reg: JobRegistry, code: string, up: bool)
    requires local.Valid()
    modifies db, local, reg
    ensures local.Valid()
    ensures Snap(local, reg, db) == DeleteByCode(old(Snap(local, reg, db)), code, up)
  {
    var _ := StoreFirebase.DeleteReminder(db, local, reg, code, up);
  }

  /** `scheduleNotification(reminder)`; returns the object's new value. */
  method ScheduleNotification(db: Collection, local: ReminderManager, reg: JobRegistry,
                              r: Reminder, now: int, up: bool) returns (r': Reminder)
    requires local.Valid()
    modifies db, local, reg
    ensures local.Valid()
    ensures (Snap(local, reg, db), r') == Schedule(old(Snap(local, reg, db)), r, now, up)
  {
    if IsPast(r.scheduleDateTime, now) {
      DeleteByCodeM(db, local, reg, r.id, up);
      return r;
    }
    var key := JobKey(r.id);
    reg.Arm(key, Marked(r), r.scheduleDateTime - now);
    r' := Marked(r);
    WriteBack(local, r');
    StoreFirebase.UpdateReminder(db, local, r', up);
  }

  /** The job under `key` fires at `now` and runs `deliverReminder`. Only a
      registered job whose timer is still running can fire. */
  method Fire(db: Collection, local: ReminderManager, reg: JobRegistry,
              key: string, send: bool, next: NextRepeat, now: int, up: bool)
    requires local.Valid()
    requires key in reg.jobs && reg.jobs[key].timer in reg.running
    modifies db, local, reg
    ensures local.Valid()
    ensures Snap(local, reg, db) == Deliver(old(Snap(local, reg, db)), key, send, next, now, up)
  {
    var job := reg.jobs[key];
    reg.Complete(job.timer);
    var r := Current(local.reminders, job.reminder);
    if !send {
      var r1 := r.(isScheduled := false);
      WriteBack(local, r1);
      StoreFirebase.UpdateReminder(db, local, r1, up);
    } else if Continues(r, next) {
      var r1 := r.(scheduleDateTime := next(r.scheduleDateTime, r.repeat.value).value);
      WriteBack(local, r1);
      var r2 := Decremented(r1);
      WriteBack(local, r2);
      if Exhausted(r2) {
        DeleteByCodeM(db, local, reg, r.id, up);
        var _ := local.Remove(r.id, reg);
      } else {
        var r3 := ScheduleNotification(db, local, reg, r2, now, up);
        StoreFirebase.UpdateReminder(db, local, r3, up);
      }
    } else {
      DeleteByCodeM(db, local, reg, r.id, up);
      var _ := local.Remove(r.id, reg);
      reg.Delete(key);
    }
  }

  /** Arming a reminder that is not past: the registry gains a started job
      under `"reminder-" + id` built with the marked reminder, and the index
      entry is the marked reminder whenever the object is indexed or the
      update succeeds. */
  lemma ScheduleArms(w: World, r: Reminder, now: int, up: bool)
    requires !IsPast(r.scheduleDateTime, now)
    ensures Schedule(w, r, now, up).1 == Marked(r)
    ensures Marked(r).jobId == JobKey(r.id) && Marked(r).isScheduled
    ensures Schedule(w, r, now, up).0.reg == ArmJob(w.reg, JobKey(r.id), Marked(r), r.scheduleDateTime - now)
    ensures r.id in w.index || (up && r.id != "") ==> Schedule(w, r, now, up).0.index == w.index[r.id := Marked(r)]
    ensures !(r.id in w.index || (up && r.id != "")) ==> Schedule(w, r, now, up).0.index == w.index
    ensures Schedule(w, r, now, up).0.docs == UpdatedDocs(w.docs, Marked(r), up)
  {
  }

  lemma ProgressStep(s: seq<Reminder>, m0: map<string, Reminder>, i: int, w: World, now: int, up: bool)
    requires FreshListing(s, m0, now) && Progress(s, m0, i, w.index, w.reg) && i < |s|
    ensures Progress(s, m0, i + 1, Schedule(w, s[i], now, up).0.index, Schedule(w, s[i], now, up).0.reg)
  {
    var r := s[i];
    ScheduleArms(w, r, now, up);
    var w' := Schedule(w, r, now, up).0;
    forall j | 0 <= j < i ensures ArmedFor(s[j], w'.index, w'.reg) {
      assert s[j].id != r.id;
      if JobKey(s[j].id) == JobKey(r.id) {
        JobKeyInjective(s[j].id, r.id);
      }
    }
    forall j | i + 1 <= j < |s| ensures s[j].id in w'.index && w'.index[s[j].id] == s[j] {
      assert s[j].id != r.id;
    }
  }

  /** The loop of `rescheduleAllReminders` over the snapshot `s`: a past
      reminder is deleted (by code) and dropped from the index, an unmarked
      one is armed. Started from a fresh listing of the index, it arms every
      entry and keeps the index's ids. */
  method RescheduleListed(db: Collection, local: ReminderManager, reg: JobRegistry,
                          s: seq<Reminder>, now: int, up: bool)
    requires local.Valid()
    modifies db, local, reg
    ensures local.Valid()
    ensures FreshListing(s, old(local.reminders), now) ==>
      local.reminders.Keys == old(local.reminders).Keys && AllArmed(local.reminders, reg.State(), now)
    ensures s == [] ==> Snap(local, reg, db) == old(Snap(local, reg, db))
  {
    ghost var m0 := local.reminders;
    for i := 0 to |s|
      invariant local.Valid()
      invariant FreshListing(s, m0, now) ==> Progress(s, m0, i, local.reminders, reg.State())
      invariant s == [] ==> Snap(local, reg, db) == old(Snap(local, reg, db))
    {
      var r := s[i];
      if IsPast(r.scheduleDateTime, now) {
        DeleteByCodeM(db, local, reg, r.id, up);
        var _ := local.Remove(r.id, reg);
      } else if !r.isScheduled {
        ghost var w := Snap(local, reg, db);
        var _ := ScheduleNotification(db, local, reg, r, now, up);
        if FreshListing(s, m0, now) {
          ProgressStep(s, m0, i, w, now, up);
        }
      }
    }
    if FreshListing(s, m0, now) {
      ProgressEnd(s, m0, local.reminders, reg.State(), now);
    }
  }

  /** `rescheduleAllReminders()`: load, then run the loop over the index's
      listing. Afterwards every indexed reminder is in the future, marked
      and armed; with the store up the index holds exactly the documents
      after `now`, and with it down the index is empty. */
  method RescheduleAllReminders(db: Collection, local: ReminderManager, reg: JobRegistry, now: int, up: bool)
    modifies db, local, reg
    ensures local.Valid()
    ensures AllArmed(local.reminders, reg.State(), now)
    ensures up ==> local.reminders.Keys == Upcoming(old(db.docs), now)
    ensures !up ==> local.reminders == map[] && reg.State() == old(reg.State())
  {
    StoreFirebase.LoadReminders(db, local, now, up);
    var s := local.ToArray();
    RescheduleListed(db, local, reg, s, now, up);
  }

  /** No document carries `code` as its code. */
  ghost predicate NoCodeIs(docs: map<string, Doc>, code: string) {
    forall d :: d in docs ==> docs[d].code != Some(code)
  }

  /** Deleting "by code" with a reminder id finds nothing unless some document's
      code happens to equal that id: the world is then unchanged. */
  lemma DeleteByIdMisses(w: World, id: string, up: bool)
    requires NoCodeIs(w.docs, id)
    ensures DeleteByCode(w, id, up) == w
  {
    assert WithCode(w.docs, id) == {};
  }

  /** Scheduling a past reminder arms nothing: no key and no timer is added,
      the reminder keeps its `jobId` and `isScheduled`, and the store loses at
      most the one document whose code equals the reminder's id. */
  lemma SchedulePastArmsNothing(w: World, r: Reminder, now: int, up: bool)
    requires IsPast(r.scheduleDateTime, now)
    ensures Schedule(w, r, now, up).1 == r
    ensures Schedule(w, r, now, up).0.reg.created == w.reg.created
    ensures Schedule(w, r, now, up).0.reg.jobs.Keys <= w.reg.jobs.Keys
    ensures Schedule(w, r, now, up).0.reg.running <= w.reg.running
    ensures NoCodeIs(w.docs, r.id) ==> Schedule(w, r, now, up).0 == w
  {
    if NoCodeIs(w.docs, r.id) {
      DeleteByIdMisses(w, r.id, up);
    }
  }

  /** Scheduling a reminder again while its job still runs: the registry
      keeps one entry for the key, but the earlier job is not stopped and no
      key reaches it any more. */
  lemma RescheduleOrphansEarlierJob(w: World, r: Reminder, now: int, up: bool)
    requires w.reg.Valid() && !IsPast(r.scheduleDateTime, now)
    requires JobKey(r.id) in w.reg.jobs && w.reg.jobs[JobKey(r.id)].timer in w.reg.running
    ensures var reg' := Schedule(w, r, now, up).0.reg;
      && w.reg.jobs[JobKey(r.id)].timer in reg'.running
      && reg'.Unreachable(w.reg.jobs[JobKey(r.id)].timer)
      && reg'.jobs.Keys == w.reg.jobs.Keys
      && reg'.Valid()
  {
    ScheduleArms(w, r, now, up);
    ReArmOrphansRunningJob(w.reg, JobKey(r.id), Marked(r), r.scheduleDateTime - now);
  }

  /** A failed send: the job's timer is finished but its entry stays; the
      reminder is unmarked, kept in the index (re-added when the update
      succeeds) and, with the store up, unmarked in its document. */
  lemma DeliverFailedKeeps(w: World, key: string, next: NextRepeat, now: int, up: bool)
    requires key in w.reg.jobs
    ensures var r := Current(w.index, w.reg.jobs[key].reminder);
      var w' := Deliver(w, key, false, next, now, up);
      && w'.reg.jobs == w.reg.jobs
      && w'.reg.running == w.reg.running - {w.reg.jobs[key].timer}
      && (r.id in w.index || (up && r.id != "") ==> r.id in w'.index && w'.index[r.id] == r.(isScheduled := false))
      && (forall id :: id in w.index && id != r.id ==> id in w'.index && w'.index[id] == w.index[id])
      && (up && r.id != "" ==> r.id in w'.docs && !w'.docs[r.id].isScheduled)
  {
  }

  /** A successful send that does not repeat: the reminder leaves the index
      and its key leaves the registry. Its document is deleted only if some
      document's code equals the reminder's id; otherwise the store keeps it. */
  lemma DeliverWithoutRepeatRemoves(w: World, key: string, next: NextRepeat, now: int, up: bool)
    requires key in w.reg.jobs
    requires !Continues(Current(w.index, w.reg.jobs[key].reminder), next)
    ensures var r := Current(w.index, w.reg.jobs[key].reminder);
      var w' := Deliver(w, key, true, next, now, up);
      && r.id !in w'.index
      && key !in w'.reg.jobs
      && (NoCodeIs(w.docs, r.id) ==> w'.docs == w.docs)
  {
    var r := Current(w.index, w.reg.jobs[key].reminder);
    var w0 := w.(reg := CompleteJob(w.reg, w.reg.jobs[key].timer));
    if NoCodeIs(w.docs, r.id) {
      DeleteByIdMisses(w0, r.id, up);
    }
  }

  /** A successful send with the count run out: the reminder leaves the
      index. The registry entry goes only through the index's `jobId`; a
      reminder the index no longer holds leaves its finished job registered. */
  lemma DeliverExhaustedRemoves(w: World, key: string, next: NextRepeat, now: int, up: bool)
    requires key in w.reg.jobs
    requires var r := Current(w.index, w.reg.jobs[key].reminder);
      Continues(r, next) && Exhausted(Decremented(r.(scheduleDateTime := next(r.scheduleDateTime, r.repeat.value).value)))
    ensures var r := Current(w.index, w.reg.jobs[key].reminder);
      var w' := Deliver(w, key, true, next, now, up);
      && r.id !in w'.index
      && (r.id !in w.index && NoCodeIs(w.docs, r.id) ==> key in w'.reg.jobs && w'.docs == w.docs)
  {
    var r := Current(w.index, w.reg.jobs[key].reminder);
    var r1 := r.(scheduleDateTime := next(r.scheduleDateTime, r.repeat.value).value);
    var w0 := w.(reg := CompleteJob(w.reg, w.reg.jobs[key].timer));
    var w2 := WriteThrough(WriteThrough(w0, r1), Decremented(r1));
    if NoCodeIs(w.docs, r.id) {
      DeleteByIdMisses(w2, r.id, up);
    }
  }

  /** A successful send that repeats: the instant moves to the next date, the
      count (when there is one) drops by one, and the reminder is re-armed
      under its key with that new value. The store's repeat fields never
      change, so the decrement lives only in memory. */
  lemma DeliverRepeatReArms(w: World, key: string, next: NextRepeat, now: int, up: bool)
    requires key in w.reg.jobs
    requires var r := Current(w.index, w.reg.jobs[key].reminder);
      && Continues(r, next)
      && !Exhausted(Decremented(r.(scheduleDateTime := next(r.scheduleDateTime, r.repeat.value).value)))
      && !IsPast(next(r.scheduleDateTime, r.repeat.value).value, now)
    ensures var r := Current(w.index, w.reg.jobs[key].reminder);
      var r' := Marked(Decremented(r.(scheduleDateTime := next(r.scheduleDateTime, r.repeat.value).value)));
      var w' := Deliver(w, key, true, next, now, up);
      && r'.scheduleDateTime == next(r.scheduleDateTime, r.repeat.value).value
      && (r.repeatCount.Some? ==> r'.repeatCount == Some(r.repeatCount.value - 1))
      && (r.repeatCount.None? ==> r'.repeatCount.None?)
      && JobKey(r.id) in w'.reg.jobs && w'.reg.jobs[JobKey(r.id)].reminder == r'
      && w'.reg.jobs[JobKey(r.id)].timer in w'.reg.running
      && (r.id in w.index || (up && r.id != "") ==> r.id in w'.index && w'.index[r.id] == r')
      && (r.id in w.docs ==>
            && r.id in w'.docs
            && w'.docs[r.id].repeat == w.docs[r.id].repeat
            && w'.docs[r.id].repeatCount == w.docs[r.id].repeatCount
            && w'.docs[r.id].repeatUntil == w.docs[r.id].repeatUntil)
      && (up && r.id != "" ==> r.id in w'.docs && w'.docs[r.id].scheduleDateTime == r'.scheduleDateTime)
  {
    var r := Current(w.index, w.reg.jobs[key].reminder);
    var r1 := r.(scheduleDateTime := next(r.scheduleDateTime, r.repeat.value).value);
    var w0 := w.(reg := CompleteJob(w.reg, w.reg.jobs[key].timer));
    var w2 := WriteThrough(WriteThrough(w0, r1), Decremented(r1));
    ScheduleArms(w2, Decremented(r1), now, up);
  }

  /** Reminder `id` is indexed and armed: its key holds a running job built
      with exactly the indexed value, and its id is no document's code. */
  ghost predicate Pending(w: World, id: string) {
    && Keyed(w.index)
    && id in w.index
    && JobKey(id) in w.reg.jobs
    && w.reg.jobs[JobKey(id)].reminder == w.index[id]
    && w.index[id].jobId == JobKey(id)
    && w.reg.jobs[JobKey(id)].timer in w.reg.running
    && w.index[id].code != id
    && NoCodeIs(w.docs, id)
  }

  /** The `k`-th repeat date from `t`: `t` itself at `k == 0`, then `next`
      applied `k` times, as long as each step yields a date. */
  function Iterate(next: NextRepeat, rep: RepeatType, t: int, k: nat): Option<int>
    decreases k
  {
    if k == 0 then Some(t)
    else match Iterate(next, rep, t, k - 1)
      case Some(u) => next(u, rep)
      case None => None
  }

  /** One repetition step from `t` goes on: a next date exists, lies after
      `t` and, when there is an end date, not after it. */
  predicate StepsOn(next: NextRepeat, rep: RepeatType, until: Option<int>, t: int) {
    && next(t, rep).Some?
    && next(t, rep).value > t
    && (until.None? || next(t, rep).value <= until.value)
  }

  /** The first `n` repeat dates from `t0` all exist and each steps on. Only
      those dates are constrained, so an end date is allowed. */
  predicate RepeatsWithin(next: NextRepeat, rep: RepeatType, until: Option<int>, t0: int, n: nat) {
    forall k :: 0 <= k < n ==> Iterate(next, rep, t0, k).Some? && StepsOn(next, rep, until, Iterate(next, rep, t0, k).value)
  }

  /** A legal fire of the job under `key`: a running job is registered under
      the key, it fires at the instant it was armed for and the send succeeds. */
  ghost predicate Fires(w: World, w': World, key: string, next: NextRepeat, up: bool) {
    && key in w.reg.jobs
    && w.reg.jobs[key].timer in w.reg.running
    && w' == Deliver(w, key, true, next, w.reg.jobs[key].reminder.scheduleDateTime, up)
  }

  /** Successive worlds, each reached from the one before by a legal fire of
      the job under `key`. */
  ghost predicate FireTrace(ws: seq<World>, key: string, next: NextRepeat, up: bool) {
    |ws| >= 1 && forall i :: 0 <= i < |ws| - 1 ==> Fires(ws[i], ws[i + 1], key, next, up)
  }

  /** One fire of a pending reminder with a count `c >= 1`: at `c == 1` the
      reminder and its key are gone, otherwise it is pending again with
      count `c - 1` at the next date. */
  lemma CountedDelivery(w: World, id: string, next: NextRepeat, rep: RepeatType, c: int, up: bool)
    requires Pending(w, id) && c >= 1
    requires w.index[id].repeat == Some(rep) && w.index[id].repeatCount == Some(c)
    requires StepsOn(next, rep, w.index[id].repeatUntil, w.index[id].scheduleDateTime)
    ensures var w' := Deliver(w, JobKey(id), true, next, w.index[id].scheduleDateTime, up);
      && (c == 1 ==> id !in w'.index && JobKey(id) !in w'.reg.jobs)
      && (c > 1 ==>
            && Pending(w', id)
            && w'.index[id] == Marked(w.index[id].(scheduleDateTime := next(w.index[id].scheduleDateTime, rep).value,
                                                   repeatCount := Some(c - 1))))
  {
    var key := JobKey(id);
    var r := w.index[id];
    var n := next(r.scheduleDateTime, rep).value;
    var w0 := w.(reg := CompleteJob(w.reg, w.reg.jobs[key].timer));
    assert Current(w0.index, w.reg.jobs[key].reminder) == r;
    var r1 := r.(scheduleDateTime := n);
    var r2 := Decremented(r1);
    var w2 := WriteThrough(WriteThrough(w0, r1), r2);
    DeleteByIdMisses(w2, id, up);
    if c > 1 {
      ScheduleArms(w2, r2, r.scheduleDateTime, up);
      var (w3, r3) := Schedule(w2, r2, r.scheduleDateTime, up);
      var w' := Update(w3, r3, up);
      assert w' == Deliver(w, key, true, next, r.scheduleDateTime, up);
      assert NoCodeIs(w'.docs, id) by {
        forall d | d in w'.docs ensures w'.docs[d].code != Some(id) {
          if d != id || !up { assert d in w.docs; }
        }
      }
    }
  }

  /** After `k < N` fires the reminder is pending with count `N - k` at the
      `k`-th repeat date, with the same repetition and the same end date. */
  lemma {:induction false} CountedPrefix(ws: seq<World>, id: string, next: NextRepeat, rep: RepeatType,
                                         until: Option<int>, t0: int, N: int, k: nat, up: bool)
    requires FireTrace(ws, JobKey(id), next, up) && k < |ws| && k < N
    requires Pending(ws[0], id) && RepeatsWithin(next, rep, until, t0, N)
    requires ws[0].index[id].repeat == Some(rep) && ws[0].index[id].repeatCount == Some(N)
    requires ws[0].index[id].repeatUntil == until && ws[0].index[id].scheduleDateTime == t0
    ensures Pending(ws[k], id)
    ensures ws[k].index[id].repeat == Some(rep) && ws[k].index[id].repeatCount == Some(N - k)
    ensures ws[k].index[id].repeatUntil == until
    ensures Iterate(next, rep, t0, k).Some? && ws[k].index[id].scheduleDateTime == Iterate(next, rep, t0, k).value
    decreases k
  {
    if k > 0 {
      CountedPrefix(ws, id, next, rep, until, t0, N, k - 1, up);
      assert Fires(ws[k - 1], ws[k], JobKey(id), next, up);
      assert Iterate(next, rep, t0, k - 1).Some? && StepsOn(next, rep, until, Iterate(next, rep, t0, k - 1).value);
      CountedDelivery(ws[k - 1], id, next, rep, N - (k - 1), up);
    }
  }

  /** A pending reminder with `repeatCount == N >= 1`, whose first `N` repeat
      dates exist and stay within its end date, and whose sends all succeed,
      is delivered exactly `N` times: no run of legal fires is longer than
      `N`, before the `k`-th fire (`k < N`) the reminder is pending with count
      `N - k` at its `k`-th repeat date, and after the `N`-th fire it and its
      key are gone. */
  lemma ExactlyCountDeliveries(ws: seq<World>, id: string, next: NextRepeat, rep: RepeatType, N: int, up: bool)
    requires FireTrace(ws, JobKey(id), next, up)
    requires Pending(ws[0], id) && N >= 1
    requires ws[0].index[id].repeat == Some(rep) && ws[0].index[id].repeatCount == Some(N)
    requires RepeatsWithin(next, rep, ws[0].index[id].repeatUntil, ws[0].index[id].scheduleDateTime, N)
    ensures |ws| <= N + 1
    ensures forall k :: 0 <= k < |ws| && k < N ==>
      && Pending(ws[k], id)
      && ws[k].index[id].repeatCount == Some(N - k)
      && Iterate(next, rep, ws[0].index[id].scheduleDateTime, k) == Some(ws[k].index[id].scheduleDateTime)
    ensures |ws| == N + 1 ==> id !in ws[N].index && JobKey(id) !in ws[N].reg.jobs
  {
    var until := ws[0].index[id].repeatUntil;
    var t0 := ws[0].index[id].scheduleDateTime;
    forall k | 0 <= k < |ws| && k < N
      ensures && Pending(ws[k], id)
              && ws[k].index[id].repeatCount == Some(N - k)
              && Iterate(next, rep, t0, k) == Some(ws[k].index[id].scheduleDateTime)
    {
      CountedPrefix(ws, id, next, rep, until, t0, N, k, up);
    }
    if |ws| >= N + 1 {
      CountedPrefix(ws, id, next, rep, until, t0, N, N - 1, up);
      assert Fires(ws[N - 1], ws[N], JobKey(id), next, up);
      CountedDelivery(ws[N - 1], id, next, rep, 1, up);
      assert |ws| > N + 1 ==> Fires(ws[N], ws[N + 1], JobKey(id), next, up);
    }
  }

  /** A repetition that advances by one unit. */
  function StepByOne(t: int, r: RepeatType): Option<int> {
    Some(t + 1)
  }

  /** Steps of one unit from `t0`: the `k`-th repeat date is `t0 + k`. */
  lemma {:induction false} IterateByOne(rep: RepeatType, t0: int, k: nat)
    ensures Iterate(StepByOne, rep, t0, k) == Some(t0 + k)
  {
    if k > 0 {
      IterateByOne(rep, t0, k - 1);
    }
  }

  /** The hypothesis of `ExactlyCountDeliveries` admits an end date: steps of
      one unit from `t0` with the end date `t0 + N` meet it for `N` fires. */
  lemma RepeatsWithinEndDate(rep: RepeatType, t0: int, N: nat)
    ensures RepeatsWithin(StepByOne, rep, Some(t0 + N), t0, N)
  {
    forall k | 0 <= k < N
      ensures Iterate(StepByOne, rep, t0, k).Some?
      ensures StepsOn(StepByOne, rep, Some(t0 + N), Iterate(StepByOne, rep, t0, k).value)
    {
      IterateByOne(rep, t0, k);
    }
  }
}
