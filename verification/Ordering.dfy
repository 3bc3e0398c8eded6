/** Option and Result, and the one fact about SQL's ORDER BY that the models rely on: rows ordered
    by (key, identifier) form one determined sequence. */
module Ordering {

  datatype Option<+T> = None | Some(value: T)

  datatype Result<+T, +E> = Ok(value: T) | Err(error: E)

  /** A UUID. Its canonical text orders like the 128-bit number it spells. */
  type Id = nat

  /** The strict order of ORDER BY key, id. */
  predicate Before(key: map<Id, int>, a: Id, b: Id)
    requires a in key && b in key
  {
    key[a] < key[b] || (key[a] == key[b] && a < b)
  }

  ghost predicate Sorted(key: map<Id, int>, s: seq<Id>) {
    && (forall i :: 0 <= i < |s| ==> s[i] in key)
    && (forall i, j :: 0 <= i < j < |s| ==> Before(key, s[i], s[j]))
  }

  ghost predicate Lists(s: seq<Id>, ids: set<Id>) {
    forall x :: x in s <==> x in ids
  }

  lemma {:induction false} LeastExists(ids: set<Id>, key: map<Id, int>) returns (m: Id)
    requires ids != {} && ids <= key.Keys
    ensures m in ids && forall x :: x in ids && x != m ==> Before(key, m, x)
    decreases |ids|
  {
    var y :| y in ids;
    var rest := ids - {y};
    if rest == {} {
      m := y;
      assert ids == {y};
    } else {
      var z := LeastExists(rest, key);
      m := if Before(key, y, z) then y else z;
      forall x | x in ids && x != m ensures Before(key, m, x) {
        assert x == y || x in rest;
      }
    }
  }

  function Least(ids: set<Id>, key: map<Id, int>): (m: Id)
    requires ids != {} && ids <= key.Keys
    ensures m in ids && forall x :: x in ids && x != m ==> Before(key, m, x)
  {
    assert exists m :: m in ids && forall x :: x in ids && x != m ==> Before(key, m, x) by {
      var m := LeastExists(ids, key);
    }
    var m :| m in ids && forall x :: x in ids && x != m ==> Before(key, m, x);
    m
  }

  /** The rows of ids in the order ORDER BY key, id delivers them. */
  function SortBy(ids: set<Id>, key: map<Id, int>): (r: seq<Id>)
    requires ids <= key.Keys
    ensures Sorted(key, r) && Lists(r, ids)
    decreases |ids|
  {
    if ids == {} then []
    else
      var m := Least(ids, key);
      [m] + SortBy(ids - {m}, key)
  }

  lemma FirstIsMember(s: seq<Id>)
    requires s != []
    ensures s[0] in s
  {
  }

  /** Two sorted listings of one set are the same sequence. */
  lemma {:induction false} SortedIsUnique(a: seq<Id>, b: seq<Id>, key: map<Id, int>)
    requires Sorted(key, a) && Sorted(key, b)
    requires forall x :: x in a <==> x in b
    ensures a == b
  {
    if a == [] {
      if b != [] {
        FirstIsMember(b);
        assert false;
      }
    } else {
      assert a[0] in b;
      assert b[0] in a;
      var i :| 0 <= i < |b| && b[i] == a[0];
      var j :| 0 <= j < |a| && a[j] == b[0];
      assert a[0] == b[0];
      forall x ensures x in a[1..] <==> x in b[1..] {
        if x in a[1..] { assert x in b; assert x != a[0]; }
        if x in b[1..] { assert x in a; assert x != b[0]; }
      }
      SortedIsUnique(a[1..], b[1..], key);
      assert a == [a[0]] + a[1..] && b == [b[0]] + b[1..];
    }
  }

  lemma ListedOnce(s: seq<Id>, a: set<Id>, b: set<Id>)
    requires Lists(s, a) && Lists(s, b)
    ensures a == b
  {
    assert forall x :: x in a <==> x in s;
  }

  /** A listing that is sorted is what SortBy returns. */
  lemma SortByIs(ids: set<Id>, key: map<Id, int>, s: seq<Id>)
    requires ids <= key.Keys && Sorted(key, s) && Lists(s, ids)
    ensures SortBy(ids, key) == s
  {
    SortedIsUnique(SortBy(ids, key), s, key);
  }

  /** A listing without repetition is as long as its set. */
  lemma {:induction false} ListedLength(s: seq<Id>, ids: set<Id>)
    requires forall d :: d in s <==> d in ids
    requires forall i, j :: 0 <= i < j < |s| ==> s[i] != s[j]
    ensures |s| == |ids|
  {
    if s == [] {
      assert forall d :: d in ids ==> d in s;
      assert ids == {};
    } else {
      var rest := s[1..];
      forall d ensures d in rest <==> d in ids - {s[0]} {
        assert d in s <==> d == s[0] || d in rest;
        if d in rest {
          var k :| 0 <= k < |rest| && rest[k] == d;
          assert s[k + 1] == d;
        }
      }
      ListedLength(rest, ids - {s[0]});
      assert s[0] in s;
    }
  }
}
