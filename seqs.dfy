/** Sequence helpers for the tables that the store keeps in insertion order. */
module Seqs {

  /** The elements of `s` that satisfy `p`, in their original order. */
  function Filter<T(!new)>(s: seq<T>, p: T -> bool): (r: seq<T>)
    ensures |r| <= |s|
    ensures forall x :: x in r <==> x in s && p(x)
  {
    if s == [] then [] else (if p(s[0]) then [s[0]] else []) + Filter(s[1..], p)
  }

  function Reverse<T>(s: seq<T>): (r: seq<T>)
    ensures |r| == |s|
    ensures forall i :: 0 <= i < |s| ==> r[i] == s[|s| - 1 - i]
  {
    seq(|s|, i requires 0 <= i < |s| => s[|s| - 1 - i])
  }

  /** A reversed sequence holds the same elements. */
  lemma ReverseMembers<T>(s: seq<T>, x: T)
    ensures x in Reverse(s) <==> x in s
  {
    var r := Reverse(s);
    if x in s {
      var j :| 0 <= j < |s| && s[j] == x;
      assert r[|s| - 1 - j] == x;
    }
    if x in r {
      var i :| 0 <= i < |r| && r[i] == x;
      assert s[|s| - 1 - i] == x;
    }
  }

  /** `s` strictly ascends by `key`: the order of a table whose rows are stamped on creation. */
  ghost predicate Ascending<T>(s: seq<T>, key: T -> int) {
    forall i, j :: 0 <= i < j < |s| ==> key(s[i]) < key(s[j])
  }

  ghost predicate Descending<T>(s: seq<T>, key: T -> int) {
    forall i, j :: 0 <= i < j < |s| ==> key(s[i]) > key(s[j])
  }

  /** Every key of `s` is below `bound`, the next stamp to be handed out. */
  ghost predicate Below<T>(s: seq<T>, key: T -> int, bound: int) {
    forall i :: 0 <= i < |s| ==> key(s[i]) < bound
  }

  /** Filtering keeps a strictly ascending order. */
  lemma {:induction false} FilterAscending<T(!new)>(s: seq<T>, p: T -> bool, key: T -> int)
    requires Ascending(s, key)
    ensures Ascending(Filter(s, p), key)
  {
    if s != [] {
      AscendingTail(s, key);
      FilterAscending(s[1..], p, key);
      var rest := Filter(s[1..], p);
      if p(s[0]) {
        forall y | y in rest ensures key(s[0]) < key(y) {
          AscendingHead(s, key, y);
        }
        AscendingCons(s[0], rest, key);
        assert Filter(s, p) == [s[0]] + rest;
      } else {
        assert Filter(s, p) == rest;
      }
    }
  }

  lemma AscendingTail<T>(s: seq<T>, key: T -> int)
    requires s != [] && Ascending(s, key)
    ensures Ascending(s[1..], key)
  {
    var t := s[1..];
    forall i, j | 0 <= i < j < |t| ensures key(t[i]) < key(t[j]) {
      assert t[i] == s[i + 1] && t[j] == s[j + 1];
    }
  }

  lemma AscendingHead<T>(s: seq<T>, key: T -> int, y: T)
    requires s != [] && Ascending(s, key) && y in s[1..]
    ensures key(s[0]) < key(y)
  {
    var j :| 0 <= j < |s[1..]| && s[1..][j] == y;
    assert s[j + 1] == y;
  }

  lemma AscendingCons<T>(x: T, r: seq<T>, key: T -> int)
    requires Ascending(r, key)
    requires forall y :: y in r ==> key(x) < key(y)
    ensures Ascending([x] + r, key)
  {
    var c := [x] + r;
    forall i, j | 0 <= i < j < |c| ensures key(c[i]) < key(c[j]) {
      assert c[j] == r[j - 1] && c[j] in r;
      if i > 0 { assert c[i] == r[i - 1]; }
    }
  }

  /** Reading a strictly ascending sequence backwards gives a strictly descending one. */
  lemma ReverseDescending<T>(s: seq<T>, key: T -> int)
    requires Ascending(s, key)
    ensures Descending(Reverse(s), key)
  {
  }

  /** Appending a row stamped with the next stamp keeps the order and moves the bound on by one. */
  lemma AppendStamped<T>(s: seq<T>, x: T, key: T -> int, bound: int)
    requires Ascending(s, key) && Below(s, key, bound)
    requires key(x) == bound
    ensures Ascending(s + [x], key) && Below(s + [x], key, bound + 1)
  {
    var r := s + [x];
    forall i, j | 0 <= i < j < |r| ensures key(r[i]) < key(r[j]) {
      assert r[i] == s[i];
      if j < |s| { assert r[j] == s[j]; }
    }
  }

  /** Removing one element keeps the order and the bound. */
  lemma RemoveAtAscending<T>(s: seq<T>, k: nat, key: T -> int, bound: int)
    requires k < |s|
    requires Ascending(s, key) && Below(s, key, bound)
    ensures Ascending(s[..k] + s[k + 1..], key) && Below(s[..k] + s[k + 1..], key, bound)
  {
    var r := s[..k] + s[k + 1..];
    forall i | 0 <= i < |r| ensures r[i] == if i < k then s[i] else s[i + 1] {
    }
  }

  /** In an ascending sequence, an element whose key no other element exceeds is the last one. */
  lemma GreatestIsLast<T>(s: seq<T>, x: T, key: T -> int)
    requires Ascending(s, key) && x in s
    requires forall y :: y in s ==> key(y) <= key(x)
    ensures s[|s| - 1] == x
  {
    var i :| 0 <= i < |s| && s[i] == x;
    assert s[|s| - 1] in s;
  }
}
