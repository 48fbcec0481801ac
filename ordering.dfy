/**
 * Listing helpers for the read paths: a query keeps the rows of a table that
 * satisfy a filter and returns them sorted by the model's ordering key.
 * Rows with equal keys come out in an unspecified but fixed order, as rows with
 * equal sort keys do in a database.
 */
module Ordering {

  /** `s` is in non-decreasing order of `key`. */
  ghost predicate SortedBy<T>(s: seq<T>, key: T -> int)
  {
    forall i, j | 0 <= i < j < |s| :: key(s[i]) <= key(s[j])
  }

  /** Inserts `x` before the first element of `s` whose key is not smaller. */
  function Insert<T>(x: T, s: seq<T>, key: T -> int): seq<T>
  {
    if s == [] then [x]
    else if key(x) <= key(s[0]) then [x] + s
    else [s[0]] + Insert(x, s[1..], key)
  }

  /** Inserting adds exactly `x`, and the result starts with `x` or with the old head. */
  lemma {:induction false} InsertContents<T>(x: T, s: seq<T>, key: T -> int)
    ensures multiset(Insert(x, s, key)) == multiset(s) + multiset{x}
    ensures |Insert(x, s, key)| > 0
    ensures Insert(x, s, key)[0] == x || (|s| > 0 && Insert(x, s, key)[0] == s[0])
  {
    if s != [] && key(x) > key(s[0]) {
      InsertContents(x, s[1..], key);
      assert s == [s[0]] + s[1..];
    }
  }

  /** The tail of a sorted sequence is sorted. */
  lemma TailSorted<T>(s: seq<T>, key: T -> int)
    requires SortedBy(s, key) && |s| > 0
    ensures SortedBy(s[1..], key)
    ensures |s| > 1 ==> key(s[0]) <= key(s[1..][0])
  {
    var tail := s[1..];
    forall i, j | 0 <= i < j < |tail| ensures key(tail[i]) <= key(tail[j]) {
      assert tail[i] == s[i + 1] && tail[j] == s[j + 1];
    }
  }

  /** Inserting into a sorted sequence keeps it sorted. */
  lemma {:induction false} InsertSorted<T>(x: T, s: seq<T>, key: T -> int)
    requires SortedBy(s, key)
    ensures SortedBy(Insert(x, s, key), key)
  {
    if s == [] {
    } else if key(x) <= key(s[0]) {
      PrependSorted(x, s, key);
    } else {
      TailSorted(s, key);
      InsertSorted(x, s[1..], key);
      InsertContents(x, s[1..], key);
      PrependSorted(s[0], Insert(x, s[1..], key), key);
    }
  }

  /** Insertion sort on `key`. */
  function SortBy<T>(s: seq<T>, key: T -> int): (r: seq<T>)
    ensures SortedBy(r, key)
    ensures multiset(r) == multiset(s)
  {
    if s == [] then []
    else
      var rest := SortBy(s[1..], key);
      InsertSorted(s[0], rest, key);
      InsertContents(s[0], rest, key);
      assert s == [s[0]] + s[1..];
      Insert(s[0], rest, key)
  }

  /** Prepending an element no larger than the head of a sorted sequence keeps it sorted. */
  lemma PrependSorted<T>(a: T, rest: seq<T>, key: T -> int)
    requires SortedBy(rest, key)
    requires |rest| > 0 ==> key(a) <= key(rest[0])
    ensures SortedBy([a] + rest, key)
  {
    var r := [a] + rest;
    forall i, j | 0 <= i < j < |r| ensures key(r[i]) <= key(r[j]) {
      if i == 0 {
        assert r[j] == rest[j - 1];
        assert key(rest[0]) <= key(rest[j - 1]);
      } else {
        assert r[i] == rest[i - 1] && r[j] == rest[j - 1];
      }
    }
  }

  /** The elements of a finite set, each once, in some fixed order. */
  ghost function SetToSeq<K(!new)>(s: set<K>): (r: seq<K>)
    ensures |r| == |s|
    ensures forall x :: x in r <==> x in s
    decreases |s|
  {
    if s == {} then []
    else
      var x :| x in s;
      [x] + SetToSeq(s - {x})
  }

  /** The rows of `table` under the keys `ids`, in that order. */
  function RowsAt<K, T>(table: map<K, T>, ids: seq<K>): (rows: seq<T>)
    requires forall k | k in ids :: k in table
    ensures |rows| == |ids|
    ensures forall i | 0 <= i < |ids| :: rows[i] == table[ids[i]]
  {
    seq(|ids|, i requires 0 <= i < |ids| => table[ids[i]])
  }

  /** Sorting keeps exactly the elements it was given. */
  lemma SortByMembers<T>(s: seq<T>, key: T -> int)
    ensures |SortBy(s, key)| == |s|
    ensures forall x :: x in SortBy(s, key) <==> x in s
  {
    var r := SortBy(s, key);
    assert |multiset(r)| == |multiset(s)|;
    forall x ensures x in r <==> x in s {
      assert x in r <==> x in multiset(r);
      assert x in s <==> x in multiset(s);
    }
  }

  /** The keys of `table` whose rows `keep` accepts. */
  function KeptKeys<K, T>(table: map<K, T>, keep: T -> bool): (ks: set<K>)
    ensures ks <= table.Keys
  {
    set k | k in table && keep(table[k])
  }

  /** `KeptKeys` is the set of keys whose rows `keep` accepts. */
  lemma KeptKeysAre<K, T>(table: map<K, T>, keep: T -> bool, ks: set<K>)
    requires forall k :: k in ks <==> k in table && keep(table[k])
    ensures KeptKeys(table, keep) == ks
  {
  }

  /** Listing the kept keys yields exactly the kept rows. */
  lemma RowsAtMembers<K(!new), T(!new)>(table: map<K, T>, keep: T -> bool)
    ensures forall x ::
      x in RowsAt(table, SetToSeq(KeptKeys(table, keep))) <==> x in table.Values && keep(x)
  {
    var ids := SetToSeq(KeptKeys(table, keep));
    var rows := RowsAt(table, ids);
    forall x ensures x in rows <==> x in table.Values && keep(x) {
      if x in rows {
        var i :| 0 <= i < |rows| && rows[i] == x;
        assert ids[i] in ids;
        assert ids[i] in KeptKeys(table, keep);
        assert ids[i] in table && table[ids[i]] == x;
      }
      if x in table.Values && keep(x) {
        var k :| k in table && table[k] == x;
        assert k in ids;
        var i :| 0 <= i < |ids| && ids[i] == k;
        assert rows[i] == x;
      }
    }
  }

  /**
   * The rows of `table` that satisfy `keep`, sorted by `key`: what a filtered,
   * ordered query over one table returns.
   */
  ghost function Select<K(!new), T(!new)>(table: map<K, T>, keep: T -> bool, key: T -> int): (r: seq<T>)
    ensures |r| == |KeptKeys(table, keep)|
    ensures forall x :: x in r <==> x in table.Values && keep(x)
    ensures SortedBy(r, key)
  {
    var rows := RowsAt(table, SetToSeq(KeptKeys(table, keep)));
    SortByMembers(rows, key);
    RowsAtMembers(table, keep);
    SortBy(rows, key)
  }
}
