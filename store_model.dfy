/** `ReminderManager` of src/store/model.ts: the process-wide index of pending
    reminders, a map from id to reminder. Removing an entry also stops and
    forgets its job in the shared job registry. */
module StoreModel {
  import opened Wrappers
  import opened Types
  import opened ReminderMap
  import opened Jobs

  /** `scheduleDate.isBetween(start, end, null, "[]")` after the bounds have
      been swapped when `start` is after `end`. */
  predicate InPeriod(t: int, start: int, end: int) {
    var lo := if start > end then end else start;
    var hi := if start > end then start else end;
    lo <= t <= hi
  }

  /** Reversed bounds select the same instants. */
  lemma InPeriodSymmetric(t: int, start: int, end: int)
    ensures InPeriod(t, start, end) == InPeriod(t, end, start)
  {
  }

  /** `reminder.chatId !== userId` fails: a numeric chat id against a string
      user id, as written at src/store/model.ts:98. */
  predicate OwnedBy(r: Reminder, userId: string) {
    StrictEquals(JsNumber(r.chatId), JsString(userId))
  }

  /** The comparison the source evidently intends: the chat id, printed,
      is the user id. */
  predicate OwnedByCorrected(r: Reminder, userId: string) {
    StrictEquals(JsString(NumberToString(r.chatId)), JsString(userId))
  }

  /** As written, no reminder is ever owned by any user id. */
  lemma OwnedByNeverHolds(r: Reminder, userId: string)
    ensures !OwnedBy(r, userId)
  {
  }

  /** Concretely: the reminder of chat 42 is not owned by user "42". */
  lemma OwnedByCounterexample()
    ensures var r := Reminder("a", 42, "t", 0, "", false, "C", None, None, None);
            !OwnedBy(r, "42") && OwnedByCorrected(r, "42")
  {
  }

  /** Corrected: a reminder is owned by the printed id of its own chat and of
      no other chat. */
  lemma OwnedByCorrectedIsChat(r: Reminder, chat: int)
    ensures OwnedByCorrected(r, NumberToString(chat)) <==> r.chatId == chat
  {
    if OwnedByCorrected(r, NumberToString(chat)) {
      NumberToStringInjective(r.chatId, chat);
    }
  }

  /** What `remove(id)` does to the job registry: when the stored reminder has
      a non-empty `jobId` with a registered job, that job is stopped and
      deleted; otherwise the registry is untouched. */
  function RemoveJobs(index: map<string, Reminder>, reg: Registry, id: string): (reg': Registry)
    ensures reg.Valid() ==> reg'.Valid()
    ensures (id in index && index[id].jobId != "" && index[id].jobId in reg.jobs) ==>
              reg'.jobs == reg.jobs - {index[id].jobId} && reg'.running == reg.running - {reg.jobs[index[id].jobId].timer}
    ensures !(id in index && index[id].jobId != "" && index[id].jobId in reg.jobs) ==> reg' == reg
  {
    if id in index && index[id].jobId != "" && index[id].jobId in reg.jobs
    then StopJob(reg, index[id].jobId)
    else reg
  }

  class ReminderManager {
    var reminders: map<string, Reminder>

    ghost predicate Valid()
      reads this
    {
      Keyed(reminders)
    }

    constructor ()
      ensures Valid() && reminders == map[]
    {
      reminders := map[];
    }

    /** `length`: the number of entries. */
    function Length(): nat
      reads this
    {
      |reminders|
    }

    /** `reset(rs)`: the map is cleared, then every element is set under its id
        in order, so the last element with a given id wins. */
    method Reset(rs: seq<Reminder>)
      modifies this
      ensures Valid()
      ensures reminders == FromSeq(rs)
      ensures reminders.Keys == Ids(rs)
    {
      reminders := map[];
      for i := 0 to |rs|
        invariant reminders == FromSeq(rs[..i])
      {
        FromSeqSnoc(rs[..i], rs[i]);
        assert rs[..i + 1] == rs[..i] + [rs[i]];
        reminders := reminders[rs[i].id := rs[i]];
      }
      assert rs[..|rs|] == rs;
    }

    /** `clear()`. */
    method Clear()
      modifies this
      ensures Valid() && reminders == map[]
    {
      reminders := map[];
    }

    /** `remove(id)`: reports whether `id` was present, drops it, and stops
        the job the stored reminder names. */
    method Remove(id: string, reg: JobRegistry) returns (removed: bool)
      requires Valid()
      modifies this, reg
      ensures Valid()
      ensures removed == (id in old(reminders))
      ensures reminders == old(reminders) - {id}
      ensures reg.State() == RemoveJobs(old(reminders), old(reg.State()), id)
    {
      var reminder := GetById(id);
      if reminder.Some? && reminder.value.jobId != "" && reminder.value.jobId in reg.jobs {
        reg.StopAndDelete(reminder.value.jobId);
      }
      removed := id in reminders;
      reminders := reminders - {id};
    }

    /** `add(r)`: insert, or overwrite the entry with the same id. */
    method Add(r: Reminder)
      requires Valid()
      modifies this
      ensures Valid()
      ensures reminders == old(reminders)[r.id := r]
    {
      reminders := reminders[r.id := r];
    }

    /** `getById(id)`. */
    function GetById(id: string): (r: Option<Reminder>)
      reads this
      ensures r.Some? <==> id in reminders
      ensures r.Some? ==> r.value == reminders[id]
    {
      if id in reminders then Some(reminders[id]) else None
    }

    /** `toArray()`: every stored reminder exactly once; its length is `length`. */
    method ToArray() returns (s: seq<Reminder>)
      requires Valid()
      ensures Lists(s, reminders)
      ensures |s| == Length()
    {
      s := Values(reminders);
    }

    /** The stored reminders that satisfy `keep`, each once. */
    method Select(keep: Reminder -> bool) returns (out: seq<Reminder>)
      requires Valid()
      ensures forall x :: x in out <==> x.id in reminders && reminders[x.id] == x && keep(x)
      ensures forall i, j :: 0 <= i < j < |out| ==> out[i].id != out[j].id
    {
      var all := ToArray();
      out := [];
      for i := 0 to |all|
        invariant out == Kept(all[..i], keep)
      {
        assert all[..i + 1][..i] == all[..i];
        if keep(all[i]) {
          out := out + [all[i]];
        }
      }
      assert all[..|all|] == all;
      KeptMembers(all, keep);
      KeptDistinct(all, keep);
    }

    /** `filter(start, end, userId)` as written: the stored reminders whose
        chat is `userId` under `===` and whose instant lies in the closed
        period. Because of the numeric/string comparison the result is
        always empty. */
    method Filter(start: int, end: int, userId: string) returns (out: seq<Reminder>)
      requires Valid()
      ensures forall x :: x in out <==>
        x.id in reminders && reminders[x.id] == x && OwnedBy(x, userId) && InPeriod(x.scheduleDateTime, start, end)
      ensures forall i, j :: 0 <= i < j < |out| ==> out[i].id != out[j].id
    {
      out := Select(x => OwnedBy(x, userId) && InPeriod(x.scheduleDateTime, start, end));
    }

    /** `filter` with the owner compared as the evidently intended
        `String(reminder.chatId) === userId`. */
    method FilterCorrected(start: int, end: int, userId: string) returns (out: seq<Reminder>)
      requires Valid()
      ensures forall x :: x in out <==>
        x.id in reminders && reminders[x.id] == x && OwnedByCorrected(x, userId) && InPeriod(x.scheduleDateTime, start, end)
      ensures forall i, j :: 0 <= i < j < |out| ==> out[i].id != out[j].id
    {
      out := Select(x => OwnedByCorrected(x, userId) && InPeriod(x.scheduleDateTime, start, end));
    }
  }

  /** What `filter` returns, as written, is empty. */
  lemma FilterIsAlwaysEmpty(out: seq<Reminder>, reminders: map<string, Reminder>, start: int, end: int, userId: string)
    requires forall x :: x in out <==>
      x.id in reminders && reminders[x.id] == x && OwnedBy(x, userId) && InPeriod(x.scheduleDateTime, start, end)
    ensures out == []
  {
    if out != [] {
      OwnedByNeverHolds(out[0], userId);
    }
  }
}
