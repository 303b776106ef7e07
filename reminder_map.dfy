/** What both copies of `ReminderManager` do to their `Map<string, StoredReminder>`,
    stated on map values. */
module ReminderMap {
  import opened Types

  /** No later element of `rs` has the id of `rs[i]`. */
  predicate LastOfItsId(rs: seq<Reminder>, i: int)
    requires 0 <= i < |rs|
  {
    forall j :: i < j < |rs| ==> rs[j].id != rs[i].id
  }

  /** The ids occurring in `rs`. */
  function Ids(rs: seq<Reminder>): set<string> {
    set i | 0 <= i < |rs| :: rs[i].id
  }

  /** `rs.forEach(r => m.set(r.id, r))` on an empty map. */
  function FromSeq(rs: seq<Reminder>): (m: map<string, Reminder>)
    ensures Keyed(m)
    ensures m.Keys == Ids(rs)
  {
    if rs == [] then map[]
    else
      var prefix, last := rs[..|rs| - 1], rs[|rs| - 1];
      assert Ids(rs) == Ids(prefix) + {last.id} by {
        assert forall i :: 0 <= i < |prefix| ==> prefix[i] == rs[i];
      }
      FromSeq(prefix)[last.id := last]
  }

  /** The last element with a given id is the one reset keeps. */
  lemma {:induction false} FromSeqLastWins(rs: seq<Reminder>, i: int)
    requires 0 <= i < |rs| && LastOfItsId(rs, i)
    ensures rs[i].id in FromSeq(rs) && FromSeq(rs)[rs[i].id] == rs[i]
  {
    var prefix, last := rs[..|rs| - 1], rs[|rs| - 1];
    if i < |rs| - 1 {
      assert prefix[i] == rs[i];
      assert LastOfItsId(prefix, i) by {
        forall j | i < j < |prefix| ensures prefix[j].id != prefix[i].id {
          assert prefix[j] == rs[j];
        }
      }
      FromSeqLastWins(prefix, i);
    }
  }

  /** Reset with one more element appended is the previous reset plus that element. */
  lemma FromSeqSnoc(rs: seq<Reminder>, r: Reminder)
    ensures FromSeq(rs + [r]) == FromSeq(rs)[r.id := r]
  {
    assert (rs + [r])[..|rs|] == rs;
  }

  /** Listing the values of `m`: every element is stored under its id, every
      stored value is listed, and no id is listed twice. */
  ghost predicate Lists(s: seq<Reminder>, m: map<string, Reminder>) {
    && |s| == |m|
    && (forall i :: 0 <= i < |s| ==> s[i].id in m && m[s[i].id] == s[i])
    && (forall k :: k in m ==> m[k] in s)
    && (forall i, j :: 0 <= i < j < |s| ==> s[i].id != s[j].id)
  }

  /** Resetting with a listing of a keyed map rebuilds exactly that map. */
  lemma {:induction false} ResetWithListing(s: seq<Reminder>, m: map<string, Reminder>)
    requires Keyed(m) && Lists(s, m)
    ensures FromSeq(s) == m
  {
    var f := FromSeq(s);
    forall k | k in m ensures k in f && f[k] == m[k] {
      var i :| 0 <= i < |s| && s[i] == m[k];
      assert LastOfItsId(s, i);
      FromSeqLastWins(s, i);
    }
    forall k | k in f ensures k in m {
      assert k in Ids(s);
    }
  }

  /** No id occurs twice in `s`. */
  ghost predicate DistinctIds(s: seq<Reminder>) {
    forall i, j :: 0 <= i < j < |s| ==> s[i].id != s[j].id
  }

  /** A sequence without repeated ids has as many ids as elements. */
  lemma {:induction false} DistinctIdsCard(s: seq<Reminder>)
    requires DistinctIds(s)
    ensures |Ids(s)| == |s|
  {
    if s != [] {
      var p := s[..|s| - 1];
      DistinctIdsCard(p);
      assert Ids(s) == Ids(p) + {s[|s| - 1].id} by {
        forall x | x in Ids(s) ensures x in Ids(p) + {s[|s| - 1].id} {
          var i :| 0 <= i < |s| && s[i].id == x;
          if i < |s| - 1 { assert p[i] == s[i]; }
        }
      }
      assert s[|s| - 1].id !in Ids(p);
    }
  }

  /** The elements of `s` that satisfy `keep`, in order: a loop that pushes
      the kept elements into an output array. */
  function Kept(s: seq<Reminder>, keep: Reminder -> bool): seq<Reminder> {
    if s == [] then []
    else Kept(s[..|s| - 1], keep) + (if keep(s[|s| - 1]) then [s[|s| - 1]] else [])
  }

  /** When no element passes the test, nothing is kept. */
  lemma {:induction false} KeptNone(s: seq<Reminder>, keep: Reminder -> bool)
    requires forall i :: 0 <= i < |s| ==> !keep(s[i])
    ensures Kept(s, keep) == []
  {
    if s != [] {
      KeptNone(s[..|s| - 1], keep);
    }
  }

  lemma {:induction false} KeptMembers(s: seq<Reminder>, keep: Reminder -> bool)
    ensures forall x :: x in Kept(s, keep) <==> x in s && keep(x)
    ensures forall y :: y in Kept(s, keep) ==> exists i :: 0 <= i < |s| && s[i].id == y.id
  {
    if s != [] {
      var prefix := s[..|s| - 1];
      KeptMembers(prefix, keep);
      assert s == prefix + [s[|s| - 1]];
      forall y | y in Kept(s, keep) ensures exists i :: 0 <= i < |s| && s[i].id == y.id {
        if y in Kept(prefix, keep) {
          var i :| 0 <= i < |prefix| && prefix[i].id == y.id;
          assert s[i] == prefix[i];
        } else {
          assert s[|s| - 1] == y;
        }
      }
    }
  }

  lemma {:induction false} KeptDistinct(s: seq<Reminder>, keep: Reminder -> bool)
    requires DistinctIds(s)
    ensures DistinctIds(Kept(s, keep))
  {
    if s != [] {
      var prefix := s[..|s| - 1];
      assert DistinctIds(prefix) by {
        forall i, j | 0 <= i < j < |prefix| ensures prefix[i].id != prefix[j].id {
          assert prefix[i] == s[i] && prefix[j] == s[j];
        }
      }
      KeptDistinct(prefix, keep);
      KeptMembers(prefix, keep);
      var k := Kept(prefix, keep);
      forall y | y in k ensures y.id != s[|s| - 1].id {
        var i :| 0 <= i < |prefix| && prefix[i].id == y.id;
        assert s[i] == prefix[i];
      }
    }
  }

  /** `s` lists the values stored under the keys in `done`, each once. */
  ghost predicate ListsPart(s: seq<Reminder>, m: map<string, Reminder>, done: set<string>) {
    && done <= m.Keys
    && |s| == |done|
    && (forall i :: 0 <= i < |s| ==> s[i].id in done && m[s[i].id] == s[i])
    && (forall k :: k in done ==> m[k] in s)
    && (forall i, j :: 0 <= i < j < |s| ==> s[i].id != s[j].id)
  }

  lemma ListsPartStep(s: seq<Reminder>, m: map<string, Reminder>, done: set<string>, k: string)
    requires Keyed(m) && ListsPart(s, m, done) && k in m && k !in done
    ensures ListsPart(s + [m[k]], m, done + {k})
  {
    var s' := s + [m[k]];
    assert forall i :: 0 <= i < |s| ==> s'[i] == s[i];
    assert forall x :: x in s ==> x in s';
  }

  lemma ListsPartComplete(s: seq<Reminder>, m: map<string, Reminder>, done: set<string>)
    requires ListsPart(s, m, done) && done == m.Keys
    ensures Lists(s, m)
  {
    assert |m| == |m.Keys|;
  }

  /** Enumerating a keyed map in some order; the source takes Map order. */
  method Values(m: map<string, Reminder>) returns (s: seq<Reminder>)
    requires Keyed(m)
    ensures Lists(s, m)
  {
    s := [];
    var todo := m.Keys;
    ghost var done: set<string> := {};
    while todo != {}
      invariant todo + done == m.Keys && todo !! done
      invariant ListsPart(s, m, done)
      decreases todo
    {
      var k :| k in todo;
      ListsPartStep(s, m, done, k);
      s := s + [m[k]];
      todo, done := todo - {k}, done + {k};
    }
    ListsPartComplete(s, m, done);
  }
}
