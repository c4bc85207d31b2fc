/**
  Python's stable sort on a numeric key.

  `sort(key=k)` is `SortOn(k, xs)`; `sort(key=k, reverse=True)` keeps equal elements
  in their original order too, so it is `SortOn(x => -k(x), xs)`.
 */
module Sorting {
  import opened Sequences

  /** Puts `x` in front of the first element whose key is not below its own. */
  function Insert<T>(key: T -> real, x: T, ys: seq<T>): seq<T> {
    if ys == [] then [x]
    else if key(ys[0]) < key(x) then [ys[0]] + Insert(key, x, ys[1..])
    else [x] + ys
  }

  function SortOn<T>(key: T -> real, xs: seq<T>): seq<T> {
    if xs == [] then [] else Insert(key, xs[0], SortOn(key, xs[1..]))
  }

  ghost predicate Ascending<T>(key: T -> real, xs: seq<T>) {
    forall i, j :: 0 <= i < j < |xs| ==> key(xs[i]) <= key(xs[j])
  }

  /** Sorted on the key, and on the rank among equal keys. */
  ghost predicate Lexicographic<T>(key: T -> real, rank: T -> int, xs: seq<T>) {
    forall i, j :: 0 <= i < j < |xs| ==>
      key(xs[i]) < key(xs[j]) || (key(xs[i]) == key(xs[j]) && rank(xs[i]) < rank(xs[j]))
  }

  lemma {:induction false} InsertPermutes<T>(key: T -> real, x: T, ys: seq<T>)
    ensures multiset(Insert(key, x, ys)) == multiset(ys) + multiset{x}
    ensures |Insert(key, x, ys)| == |ys| + 1
  {
    if ys != [] {
      assert ys == [ys[0]] + ys[1..];
      if key(ys[0]) < key(x) {
        InsertPermutes(key, x, ys[1..]);
      }
    }
  }

  lemma {:induction false} SortOnPermutes<T>(key: T -> real, xs: seq<T>)
    ensures multiset(SortOn(key, xs)) == multiset(xs)
    ensures |SortOn(key, xs)| == |xs|
  {
    if xs != [] {
      SortOnPermutes(key, xs[1..]);
      InsertPermutes(key, xs[0], SortOn(key, xs[1..]));
      assert xs == [xs[0]] + xs[1..];
    }
  }

  lemma SortOnMember<T>(key: T -> real, xs: seq<T>, z: T)
    ensures z in SortOn(key, xs) <==> z in xs
  {
    SortOnPermutes(key, xs);
    assert z in multiset(SortOn(key, xs)) <==> z in multiset(xs);
  }

  lemma InsertMember<T>(key: T -> real, x: T, ys: seq<T>, z: T)
    ensures z in Insert(key, x, ys) <==> z == x || z in ys
  {
    InsertPermutes(key, x, ys);
    assert z in multiset(Insert(key, x, ys)) <==> z in multiset(ys) + multiset{x};
  }

  /** An element behind the head of `ys` after an insertion is the new one or a later one of `ys`. */
  lemma InsertedTail<T>(key: T -> real, x: T, ys: seq<T>, k: nat) returns (h: nat)
    requires ys != [] && k < |Insert(key, x, ys[1..])|
    ensures h < |ys|
    ensures Insert(key, x, ys[1..])[k] == x || (h > 0 && Insert(key, x, ys[1..])[k] == ys[h])
  {
    var z := Insert(key, x, ys[1..])[k];
    InsertMember(key, x, ys[1..], z);
    h := 0;
    if z != x {
      h := PositionOf(ys[1..], z);
      h := h + 1;
    }
  }

  lemma {:induction false} InsertAscending<T>(key: T -> real, x: T, ys: seq<T>)
    requires Ascending(key, ys)
    ensures Ascending(key, Insert(key, x, ys))
  {
    if ys != [] && key(ys[0]) < key(x) {
      var rest := Insert(key, x, ys[1..]);
      InsertAscending(key, x, ys[1..]);
      forall k | 0 <= k < |rest|
        ensures key(ys[0]) <= key(rest[k])
      {
        var h := InsertedTail(key, x, ys, k);
      }
    }
  }

  lemma {:induction false} SortOnAscends<T>(key: T -> real, xs: seq<T>)
    ensures Ascending(key, SortOn(key, xs))
  {
    if xs != [] {
      SortOnAscends(key, xs[1..]);
      InsertAscending(key, xs[0], SortOn(key, xs[1..]));
    }
  }

  lemma {:induction false} InsertLexicographic<T>(key: T -> real, rank: T -> int, x: T, ys: seq<T>)
    requires Lexicographic(key, rank, ys)
    requires forall y :: y in ys ==> rank(x) < rank(y)
    ensures Lexicographic(key, rank, Insert(key, x, ys))
  {
    if ys != [] && key(ys[0]) < key(x) {
      var rest := Insert(key, x, ys[1..]);
      InsertLexicographic(key, rank, x, ys[1..]);
      forall k | 0 <= k < |rest|
        ensures key(ys[0]) < key(rest[k]) || (key(ys[0]) == key(rest[k]) && rank(ys[0]) < rank(rest[k]))
      {
        var h := InsertedTail(key, x, ys, k);
      }
    } else if ys != [] {
      forall k | 0 <= k < |ys|
        ensures key(x) < key(ys[k]) || (key(x) == key(ys[k]) && rank(x) < rank(ys[k]))
      {
        assert ys[k] in ys;
      }
    }
  }

  /** Stability: elements listed in rank order come out sorted on (key, rank). */
  lemma {:induction false} SortOnStable<T>(key: T -> real, rank: T -> int, xs: seq<T>)
    requires forall i, j :: 0 <= i < j < |xs| ==> rank(xs[i]) < rank(xs[j])
    ensures Lexicographic(key, rank, SortOn(key, xs))
  {
    if xs != [] {
      SortOnStable(key, rank, xs[1..]);
      forall y | y in SortOn(key, xs[1..])
        ensures rank(xs[0]) < rank(y)
      {
        SortOnMember(key, xs[1..], y);
        var h := PositionOf(xs[1..], y);
        assert xs[h + 1] == y;
      }
      InsertLexicographic(key, rank, xs[0], SortOn(key, xs[1..]));
    }
  }
}
