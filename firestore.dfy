/** The reminders collection of the document store, abstracted to a map from
    document id to document. Both copies of the store code operate on it. */
module Firestore {
  import opened Types
  import opened Order

  class Collection {
    var docs: map<string, Doc>

    constructor (initial: map<string, Doc>)
      ensures docs == initial
    {
      docs := initial;
    }

    /** `for (const doc of snapshot.docs) await doc.ref.delete()`. */
    method DeleteEach(ids: seq<string>)
      modifies this
      ensures docs == old(docs) - set i | 0 <= i < |ids| :: ids[i]
    {
      for i := 0 to |ids|
        invariant docs == old(docs) - set j | 0 <= j < i :: ids[j]
      {
        assert (set j | 0 <= j < i + 1 :: ids[j]) == (set j | 0 <= j < i :: ids[j]) + {ids[i]};
        docs := docs - {ids[i]};
      }
    }
  }

  /** The documents a `where("scheduleDateTime", ">", now)` query returns. */
  function Upcoming(docs: map<string, Doc>, now: int): (ids: set<string>)
    ensures forall id :: id in ids <==> id in docs && docs[id].scheduleDateTime > now
  {
    set id | id in docs && docs[id].scheduleDateTime > now
  }

  /** The documents a `where("scheduleDateTime", "<=", now)` query returns. */
  function Expired(docs: map<string, Doc>, now: int): (ids: set<string>)
    ensures forall id :: id in ids <==> id in docs && docs[id].scheduleDateTime <= now
  {
    set id | id in docs && docs[id].scheduleDateTime <= now
  }

  /** The instant a query ordered by `scheduleDateTime` sorts a document by. */
  function InstantOf(docs: map<string, Doc>): string -> int {
    id => if id in docs then docs[id].scheduleDateTime else 0
  }

  /** The collection after its expired documents are deleted. */
  function WithoutExpired(docs: map<string, Doc>, now: int): (d: map<string, Doc>)
    ensures forall id :: id in d <==> id in docs && docs[id].scheduleDateTime > now
    ensures forall id :: id in d ==> d[id] == docs[id]
  {
    map id | id in docs && docs[id].scheduleDateTime > now :: docs[id]
  }

  /** Deleting the expired documents leaves exactly the upcoming ones. */
  lemma DeleteExpired(docs: map<string, Doc>, now: int)
    ensures docs - Expired(docs, now) == WithoutExpired(docs, now)
  {
  }

  /** The ids of the expired documents in query order. */
  function ExpiredSnapshot(docs: map<string, Doc>, now: int): (ids: seq<string>)
    ensures (set i | 0 <= i < |ids| :: ids[i]) == Expired(docs, now)
  {
    var order := SortedIds(InstantOf(docs), Expired(docs, now));
    SortsEnumerates(InstantOf(docs), order, Expired(docs, now));
    order
  }
}
