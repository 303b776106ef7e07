/** The older `ReminderManager` of src/manager.ts: the same map from id to
    reminder, whose `remove` has no job side effect. */
module Manager {
  import opened Wrappers
  import opened Types
  import opened ReminderMap

  class ReminderManager {
    var reminders: map<string, Reminder>

    ghost predicate Valid()
      reads this
    {
      Keyed(reminders)
    }

    constructor ()
      ensures Valid() && reminders == map[]
    {
      reminders := map[];
    }

    /** `length`: the number of entries. */
    function Length(): nat
      reads this
    {
      |reminders|
    }

    /** `reset(rs)`: clear, then set every element under its id in order. */
    method Reset(rs: seq<Reminder>)
      modifies this
      ensures Valid()
      ensures reminders == FromSeq(rs)
      ensures reminders.Keys == Ids(rs)
    {
      reminders := map[];
      for i := 0 to |rs|
        invariant reminders == FromSeq(rs[..i])
      {
        FromSeqSnoc(rs[..i], rs[i]);
        assert rs[..i + 1] == rs[..i] + [rs[i]];
        reminders := reminders[rs[i].id := rs[i]];
      }
      assert rs[..|rs|] == rs;
    }

    /** `clear()`. */
    method Clear()
      modifies this
      ensures Valid() && reminders == map[]
    {
      reminders := map[];
    }

    /** `remove(id)`: `Map.delete`, reporting whether `id` was present. */
    method Remove(id: string) returns (removed: bool)
      requires Valid()
      modifies this
      ensures Valid()
      ensures removed == (id in old(reminders))
      ensures reminders == old(reminders) - {id}
    {
      removed := id in reminders;
      reminders := reminders - {id};
    }

    /** `add(r)`: insert, or overwrite the entry with the same id. */
    method Add(r: Reminder)
      requires Valid()
      modifies this
      ensures Valid()
      ensures reminders == old(reminders)[r.id := r]
    {
      reminders := reminders[r.id := r];
    }

    /** `getById(id)`. */
    function GetById(id: string): (r: Option<Reminder>)
      reads this
      ensures r.Some? <==> id in reminders
      ensures r.Some? ==> r.value == reminders[id]
    {
      if id in reminders then Some(reminders[id]) else None
    }

    /** `toArray()`: every stored reminder exactly once; its length is `length`. */
    method ToArray() returns (s: seq<Reminder>)
      requires Valid()
      ensures Lists(s, reminders)
      ensures |s| == Length()
    {
      s := Values(reminders);
    }
  }
}
