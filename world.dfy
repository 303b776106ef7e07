/** What both versions of the delivery code act on: the in-memory index,
    the job registry and the store, and the conventions the model fixes for
    the reminder objects the code passes around. */
module Worlds {
  import opened Types
  import opened ReminderMap
  import opened Jobs

  datatype World = World(index: map<string, Reminder>, reg: Registry, docs: map<string, Doc>)

  /** `isPast(date)`: strictly before the current instant. */
  predicate IsPast(t: int, now: int) {
    t < now
  }

  /** A field assignment on the reminder object: the index holds that same
      object, so its entry changes too. */
  function WriteThrough(w: World, r: Reminder): (w': World)
    ensures w'.reg == w.reg && w'.docs == w.docs
    ensures w'.index.Keys == w.index.Keys
    ensures r.id in w.index ==> w'.index[r.id] == r
    ensures forall id :: id in w.index && id != r.id ==> w'.index[id] == w.index[id]
  {
    if r.id in w.index then w.(index := w.index[r.id := r]) else w
  }

  /** The reminder after `scheduleNotification` has marked it. */
  function Marked(r: Reminder): Reminder {
    r.(jobId := JobKey(r.id), isScheduled := true)
  }

  /** The reminder a job's callback works on: the index's copy of the object
      when it holds one, else the object the job was built with. */
  function Current(index: map<string, Reminder>, snap: Reminder): (r: Reminder)
    ensures r.id == snap.id
  {
    if snap.id in index && index[snap.id].id == snap.id then index[snap.id] else snap
  }

  /** Every indexed reminder is in the future, marked, and armed: its key
      holds a started job built with exactly that reminder. */
  ghost predicate AllArmed(index: map<string, Reminder>, reg: Registry, now: int) {
    forall id :: id in index ==>
      && !IsPast(index[id].scheduleDateTime, now)
      && index[id] == Marked(index[id])
      && index[id].jobId == JobKey(id)
      && JobKey(id) in reg.jobs && reg.jobs[JobKey(id)].reminder == index[id]
      && reg.jobs[JobKey(id)].timer in reg.running
  }

  /** The index as loaded: listed by `s`, every entry in the future and
      not yet marked. */
  ghost predicate FreshListing(s: seq<Reminder>, index: map<string, Reminder>, now: int) {
    && Lists(s, index)
    && Keyed(index)
    && (forall i :: 0 <= i < |s| ==> !IsPast(s[i].scheduleDateTime, now) && !s[i].isScheduled)
  }

  ghost predicate ArmedFor(r: Reminder, index: map<string, Reminder>, reg: Registry) {
    && r.id in index && index[r.id] == Marked(r)
    && JobKey(r.id) in reg.jobs && reg.jobs[JobKey(r.id)].reminder == Marked(r)
    && reg.jobs[JobKey(r.id)].timer in reg.running
  }

  /** After `i` steps over a fresh listing: the ids are those of the start,
      the first `i` entries are armed, the rest untouched. */
  ghost predicate Progress(s: seq<Reminder>, m0: map<string, Reminder>, i: int,
                           index: map<string, Reminder>, reg: Registry) {
    && 0 <= i <= |s|
    && index.Keys == m0.Keys
    && (forall j :: 0 <= j < i ==> ArmedFor(s[j], index, reg))
    && (forall j :: i <= j < |s| ==> s[j].id in index && index[s[j].id] == s[j])
  }

  lemma ProgressEnd(s: seq<Reminder>, m0: map<string, Reminder>, index: map<string, Reminder>, reg: Registry, now: int)
    requires FreshListing(s, m0, now) && Progress(s, m0, |s|, index, reg)
    ensures AllArmed(index, reg, now)
  {
    forall id | id in index
      ensures var x := index[id];
        !IsPast(x.scheduleDateTime, now) && x == Marked(x) && x.jobId == JobKey(id)
        && JobKey(id) in reg.jobs && reg.jobs[JobKey(id)].reminder == x && reg.jobs[JobKey(id)].timer in reg.running
    {
      var j :| 0 <= j < |s| && s[j] == m0[id];
      assert ArmedFor(s[j], index, reg);
    }
  }
}
