/** Sequences: their ends, and sorting by a key. */
module Sequences {
  function Init<T>(s: seq<T>): seq<T>
    requires s != []
  {
    s[..|s| - 1]
  }

  function Last<T>(s: seq<T>): T
    requires s != []
  {
    s[|s| - 1]
  }

  // ----- sorting -----

  ghost predicate Sorted<T>(s: seq<T>, key: T -> real) {
    forall i, j :: 0 <= i <= j < |s| ==> key(s[i]) <= key(s[j])
  }

  /** Where x goes: behind everything not above it. */
  function Place<T>(s: seq<T>, key: T -> real, x: T): (p: nat)
    requires Sorted(s, key)
    ensures p <= |s| && forall i :: 0 <= i < |s| ==> (i < p <==> key(s[i]) <= key(x))
  {
    if s == [] || key(s[|s| - 1]) <= key(x) then |s| else Place(s[..|s| - 1], key, x)
  }

  function Inserted<T>(s: seq<T>, key: T -> real, x: T): (r: seq<T>)
    requires Sorted(s, key)
    ensures Sorted(r, key) && multiset(r) == multiset(s) + multiset{x} && |r| == |s| + 1
  {
    var p := Place(s, key, x);
    InsertedIsSorted(s, key, x, p);
    assert s == s[..p] + s[p..];
    s[..p] + [x] + s[p..]
  }

  lemma {:induction false} InsertedIsSorted<T>(s: seq<T>, key: T -> real, x: T, p: nat)
    requires Sorted(s, key) && p <= |s| && forall i :: 0 <= i < |s| ==> (i < p <==> key(s[i]) <= key(x))
    ensures Sorted(s[..p] + [x] + s[p..], key)
  {
    var r := s[..p] + [x] + s[p..];
    forall i, j | 0 <= i <= j < |r| ensures key(r[i]) <= key(r[j]) {
      assert r[i] == if i < p then s[i] else if i == p then x else s[i - 1];
      assert r[j] == if j < p then s[j] else if j == p then x else s[j - 1];
    }
  }

  function SortedBy<T>(s: seq<T>, key: T -> real): (r: seq<T>)
    ensures Sorted(r, key) && multiset(r) == multiset(s) && |r| == |s|
  {
    if s == [] then []
    else
      assert s == Init(s) + [Last(s)];
      Inserted(SortedBy(Init(s), key), key, Last(s))
  }

  lemma {:induction false} SameElements<T>(a: seq<T>, b: seq<T>)
    requires multiset(a) == multiset(b)
    ensures forall i :: 0 <= i < |a| ==> a[i] in b
  {
    forall i | 0 <= i < |a| ensures a[i] in b {
      assert a[i] in multiset(a);
    }
  }

  // ----- sequences that are sorted already -----

  lemma {:induction false} InsertedLast<T>(s: seq<T>, key: T -> real, x: T)
    requires Sorted(s, key) && (s != [] ==> key(s[|s| - 1]) <= key(x))
    ensures Inserted(s, key, x) == s + [x]
  {
    assert Place(s, key, x) == |s|;
    assert s[..|s|] + [x] + s[|s|..] == s + [x];
    hide Sorted;
  }

  lemma {:induction false} SortedInit<T>(s: seq<T>, key: T -> real)
    requires Sorted(s, key) && s != []
    ensures Sorted(Init(s), key) && (|s| > 1 ==> key(Last(Init(s))) <= key(Last(s)))
  {}

  lemma {:induction false} SortedByNext<T>(s: seq<T>, key: T -> real)
    requires s != []
    ensures SortedBy(s, key) == Inserted(SortedBy(Init(s), key), key, Last(s))
  {
    hide Inserted, Sorted;
  }

  lemma {:induction false} SortedSnoc<T>(s: seq<T>, key: T -> real)
    requires s != [] && Sorted(s, key) && SortedBy(Init(s), key) == Init(s)
    ensures SortedBy(s, key) == s
  {
    SortedInit(s, key);
    hide *;
    SortedByNext(s, key);
    InsertedLast(Init(s), key, Last(s));
    InitAndLast(s);
  }

  lemma {:induction false} InitAndLast<T>(s: seq<T>)
    requires s != []
    ensures s == Init(s) + [Last(s)]
  {}

  /** Sorting leaves a sorted sequence as it is. */
  lemma {:induction false} SortedIsKept<T>(s: seq<T>, key: T -> real)
    requires Sorted(s, key)
    ensures SortedBy(s, key) == s
  {
    if s != [] {
      SortedInit(s, key);
      hide Sorted, SortedBy;
      SortedIsKept(Init(s), key);
      SortedSnoc(s, key);
    }
  }
}
