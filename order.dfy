/** The order in which the document store returns documents: by a numeric
    field first when a query orders by one, then by document id, ids being
    compared character by character. */
module Order {

  /** Lexicographic order on document ids. */
  predicate IdLe(a: string, b: string)
    decreases |a|
  {
    if a == [] then true
    else if b == [] then false
    else if a[0] != b[0] then a[0] < b[0]
    else IdLe(a[1..], b[1..])
  }

  lemma {:induction false} IdLeTotal(a: string, b: string)
    ensures IdLe(a, b) || IdLe(b, a)
    decreases |a|
  {
    if a != [] && b != [] && a[0] == b[0] {
      IdLeTotal(a[1..], b[1..]);
    }
  }

  lemma {:induction false} IdLeAntisymmetric(a: string, b: string)
    requires IdLe(a, b) && IdLe(b, a)
    ensures a == b
    decreases |a|
  {
    if a != [] && b != [] {
      IdLeAntisymmetric(a[1..], b[1..]);
      assert a == [a[0]] + a[1..];
      assert b == [b[0]] + b[1..];
    }
  }

  lemma {:induction false} IdLeTransitive(a: string, b: string, c: string)
    requires IdLe(a, b) && IdLe(b, c)
    ensures IdLe(a, c)
    decreases |a|
  {
    if a != [] && b != [] && c != [] && a[0] == b[0] == c[0] {
      IdLeTransitive(a[1..], b[1..], c[1..]);
    }
  }

  /** `a` comes no later than `b` when ordered by `rank`, then by id. */
  predicate Before(rank: string -> int, a: string, b: string) {
    rank(a) < rank(b) || (rank(a) == rank(b) && IdLe(a, b))
  }

  predicate IsLeast(rank: string -> int, m: string, s: set<string>) {
    m in s && forall y :: y in s ==> Before(rank, m, y)
  }

  lemma LeastIsUnique(rank: string -> int, m1: string, m2: string, s: set<string>)
    requires IsLeast(rank, m1, s) && IsLeast(rank, m2, s)
    ensures m1 == m2
  {
    assert Before(rank, m1, m2) && Before(rank, m2, m1);
    IdLeAntisymmetric(m1, m2);
  }

  lemma LeastIsUniqueAll(rank: string -> int, s: set<string>)
    ensures forall m1, m2 :: IsLeast(rank, m1, s) && IsLeast(rank, m2, s) ==> m1 == m2
  {
    forall m1, m2 | IsLeast(rank, m1, s) && IsLeast(rank, m2, s) ensures m1 == m2 {
      LeastIsUnique(rank, m1, m2, s);
    }
  }

  lemma {:induction false} LeastExists(rank: string -> int, s: set<string>)
    requires s != {}
    ensures exists m :: IsLeast(rank, m, s)
    decreases |s|
  {
    var x :| x in s;
    if s == {x} {
      IdLeTotal(x, x);
      assert IsLeast(rank, x, s);
    } else {
      LeastExists(rank, s - {x});
      var m :| IsLeast(rank, m, s - {x});
      if Before(rank, x, m) {
        forall y | y in s ensures Before(rank, x, y) {
          if y != x {
            assert Before(rank, m, y);
            if rank(x) == rank(m) == rank(y) {
              IdLeTransitive(x, m, y);
            }
          } else {
            IdLeTotal(x, x);
          }
        }
        assert IsLeast(rank, x, s);
      } else {
        IdLeTotal(x, m);
        assert IsLeast(rank, m, s);
      }
    }
  }

  /** The first of the ids in `s`. */
  function MinBy(rank: string -> int, s: set<string>): (m: string)
    requires s != {}
    ensures m in s
    ensures forall y :: y in s ==> Before(rank, m, y)
  {
    LeastExists(rank, s);
    LeastIsUniqueAll(rank, s);
    var m :| IsLeast(rank, m, s);
    m
  }

  /** `r` lists the ids of `s`, each once, ascending by `rank` then id. */
  ghost predicate Sorts(rank: string -> int, r: seq<string>, s: set<string>) {
    && |r| == |s|
    && (forall x :: x in r <==> x in s)
    && (forall i, j :: 0 <= i < j < |r| ==> r[i] != r[j])
    && (forall i, j :: 0 <= i < j < |r| ==> Before(rank, r[i], r[j]))
  }

  lemma SortsCons(rank: string -> int, m: string, rest: seq<string>, s: set<string>)
    requires IsLeast(rank, m, s) && Sorts(rank, rest, s - {m})
    ensures Sorts(rank, [m] + rest, s)
  {
    var r := [m] + rest;
    assert |s - {m}| == |s| - 1;
    assert forall i :: 1 <= i < |r| ==> r[i] == rest[i - 1];
    assert forall j :: 0 <= j < |rest| ==> rest[j] in rest && rest[j] in s - {m};
  }

  /** The ids of `s` in the order a query returns them: ascending by `rank`,
      ties broken by id. */
  function SortedIds(rank: string -> int, s: set<string>): (r: seq<string>)
    ensures Sorts(rank, r, s)
    decreases |s|
  {
    if s == {} then []
    else
      var m := MinBy(rank, s);
      var rest := SortedIds(rank, s - {m});
      SortsCons(rank, m, rest, s);
      [m] + rest
  }

  /** A sorted listing enumerates exactly its set. */
  lemma SortsEnumerates(rank: string -> int, r: seq<string>, s: set<string>)
    requires Sorts(rank, r, s)
    ensures (set i | 0 <= i < |r| :: r[i]) == s
  {
    forall x | x in s ensures x in set i | 0 <= i < |r| :: r[i] {
      var i :| 0 <= i < |r| && r[i] == x;
    }
  }
}
