/**
 * PHP's `uasort` with a spaceship comparator on one numeric field, as the
 * vote service uses it. Since PHP 8 the sort is stable: entries the
 * comparator calls equal keep their relative order. `SortBy` is that
 * stable sort, written as an insertion sort; its lemmas say it returns a
 * sorted permutation of its input that keeps ties in input order, and
 * that its first element (what `reset` returns) is the first extreme
 * element of the input.
 */
module Sorting {

  /** `$a <=> $b` (ascending) or `$b <=> $a` (descending). */
  datatype Direction = Ascending | Descending

  /** Key `x` must come strictly before key `y` in the given direction. */
  predicate Precedes(dir: Direction, x: real, y: real)
  {
    if dir == Ascending then x < y else x > y
  }

  /** Inserts `x` in front of the first element it does not strictly follow. */
  function Insert<T>(x: T, t: seq<T>, key: T -> real, dir: Direction): (r: seq<T>)
    ensures |r| == |t| + 1
  {
    if t == [] || !Precedes(dir, key(t[0]), key(x)) then [x] + t
    else [t[0]] + Insert(x, t[1..], key, dir)
  }

  /** The stable sort of `s` on `key`. */
  function SortBy<T>(s: seq<T>, key: T -> real, dir: Direction): (r: seq<T>)
    ensures |r| == |s|
  {
    if s == [] then [] else Insert(s[0], SortBy(s[1..], key, dir), key, dir)
  }

  /** No element is strictly preceded by a later one. */
  ghost predicate SortedBy<T>(s: seq<T>, key: T -> real, dir: Direction)
  {
    forall i, j :: 0 <= i < j < |s| ==> !Precedes(dir, key(s[j]), key(s[i]))
  }

  /** The elements of `s` whose key is `v`, in order: a class of ties. */
  function Ties<T>(s: seq<T>, key: T -> real, v: real): seq<T>
  {
    if s == [] then []
    else (if key(s[0]) == v then [s[0]] else []) + Ties(s[1..], key, v)
  }

  lemma {:induction false} InsertPermutes<T>(x: T, t: seq<T>, key: T -> real, dir: Direction)
    ensures multiset(Insert(x, t, key, dir)) == multiset([x] + t)
    ensures |Insert(x, t, key, dir)| == |t| + 1
  {
    if t != [] && Precedes(dir, key(t[0]), key(x)) {
      InsertPermutes(x, t[1..], key, dir);
      assert t == [t[0]] + t[1..];
    }
  }

  /** The sort only reorders: same elements, same multiplicities. */
  lemma {:induction false} SortByPermutes<T>(s: seq<T>, key: T -> real, dir: Direction)
    ensures multiset(SortBy(s, key, dir)) == multiset(s)
    ensures |SortBy(s, key, dir)| == |s|
  {
    if s != [] {
      SortByPermutes(s[1..], key, dir);
      InsertPermutes(s[0], SortBy(s[1..], key, dir), key, dir);
      assert s == [s[0]] + s[1..];
    }
  }

  lemma {:induction false} InsertSorted<T>(x: T, t: seq<T>, key: T -> real, dir: Direction)
    requires SortedBy(t, key, dir)
    ensures SortedBy(Insert(x, t, key, dir), key, dir)
  {
    if t != [] && Precedes(dir, key(t[0]), key(x)) {
      var rest := Insert(x, t[1..], key, dir);
      InsertSorted(x, t[1..], key, dir);
      InsertPermutes(x, t[1..], key, dir);
      var r := [t[0]] + rest;
      forall i, j | 0 <= i < j < |r| ensures !Precedes(dir, key(r[j]), key(r[i])) {
        if i == 0 {
          // r[j] is x or an element of t[1..]; neither is strictly ahead of t[0]
          assert r[j] in multiset([x] + t[1..]);
          assert r[j] == x || r[j] in t[1..];
        }
      }
    }
  }

  /** The sort's output is ordered on the key. */
  lemma {:induction false} SortBySorted<T>(s: seq<T>, key: T -> real, dir: Direction)
    ensures SortedBy(SortBy(s, key, dir), key, dir)
  {
    if s != [] {
      SortBySorted(s[1..], key, dir);
      InsertSorted(s[0], SortBy(s[1..], key, dir), key, dir);
    }
  }

  /** The ties of a list with a known first element. */
  lemma TiesCons<T>(a: T, r: seq<T>, key: T -> real, v: real)
    ensures Ties([a] + r, key, v) == (if key(a) == v then [a] else []) + Ties(r, key, v)
  {
    assert ([a] + r)[0] == a && ([a] + r)[1..] == r;
  }

  lemma {:induction false} InsertTies<T>(x: T, t: seq<T>, key: T -> real, dir: Direction, v: real)
    ensures Ties(Insert(x, t, key, dir), key, v) == (if key(x) == v then [x] else []) + Ties(t, key, v)
  {
    if t != [] && Precedes(dir, key(t[0]), key(x)) {
      var rest := Insert(x, t[1..], key, dir);
      InsertTies(x, t[1..], key, dir, v);
      TiesCons(t[0], rest, key, v);
      assert key(t[0]) != key(x);
    } else {
      TiesCons(x, t, key, v);
    }
  }

  /** Stability: within every class of equal keys the input order survives the sort. */
  lemma {:induction false} SortByStable<T>(s: seq<T>, key: T -> real, dir: Direction, v: real)
    ensures Ties(SortBy(s, key, dir), key, v) == Ties(s, key, v)
  {
    if s != [] {
      SortByStable(s[1..], key, dir, v);
      InsertTies(s[0], SortBy(s[1..], key, dir), key, dir, v);
    }
  }

  /** `s[j]` is an extreme element of `s` and every element before it is strictly beaten by it. */
  ghost predicate FirstExtremeAt<T>(s: seq<T>, key: T -> real, dir: Direction, j: int)
  {
    && 0 <= j < |s|
    && (forall i :: 0 <= i < |s| ==> !Precedes(dir, key(s[i]), key(s[j])))
    && (forall i :: 0 <= i < j ==> Precedes(dir, key(s[j]), key(s[i])))
  }

  /**
   * What `reset` returns after the sort: the element at some index `j` whose
   * key no element beats, while every element before `j` is strictly beaten
   * by it, i.e. the first extreme element of the input.
   */
  lemma {:induction false} SortByHead<T>(s: seq<T>, key: T -> real, dir: Direction)
    requires |s| > 0
    ensures |SortBy(s, key, dir)| == |s|
    ensures exists j :: FirstExtremeAt(s, key, dir, j) && SortBy(s, key, dir)[0] == s[j]
  {
    SortByPermutes(s, key, dir);
    var r := SortBy(s[1..], key, dir);
    assert SortBy(s, key, dir) == Insert(s[0], r, key, dir);
    if r == [] {
      assert |s| == 1;
      assert FirstExtremeAt(s, key, dir, 0);
    } else {
      SortByHead(s[1..], key, dir);
      var j' :| FirstExtremeAt(s[1..], key, dir, j') && r[0] == s[1..][j'];
      if !Precedes(dir, key(r[0]), key(s[0])) {
        HeadStays(s, key, dir, j');
        assert SortBy(s, key, dir)[0] == s[0];
      } else {
        HeadMoves(s, key, dir, j');
        assert SortBy(s, key, dir)[0] == r[0] == s[j' + 1];
      }
    }
  }

  /** When the best of the tail does not beat the first element, the first element is the answer. */
  lemma HeadStays<T>(s: seq<T>, key: T -> real, dir: Direction, j': int)
    requires |s| > 1 && FirstExtremeAt(s[1..], key, dir, j')
    requires !Precedes(dir, key(s[1..][j']), key(s[0]))
    ensures FirstExtremeAt(s, key, dir, 0)
  {
  }

  /** When the best of the tail beats the first element, it stays the answer. */
  lemma HeadMoves<T>(s: seq<T>, key: T -> real, dir: Direction, j': int)
    requires |s| > 1 && FirstExtremeAt(s[1..], key, dir, j')
    requires Precedes(dir, key(s[1..][j']), key(s[0]))
    ensures FirstExtremeAt(s, key, dir, j' + 1)
  {
  }
}
