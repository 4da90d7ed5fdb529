/** Ordering a list by a numeric key, largest first, keeping records with equal
    keys in their original order. This is what `Array.prototype.sort` with the
    comparator `(a, b) => key(b) - key(a)` does (the sort has been stable since
    ECMAScript 2019), and the order an ORM `orderBy: { key: "desc" }` delivers. */
module Sorting {

  predicate SortedDesc<T>(s: seq<T>, key: T -> int) {
    forall i, j | 0 <= i < j < |s| :: key(s[i]) >= key(s[j])
  }

  /** The elements of `s` whose key is `k`, in order. */
  function WithKey<T>(s: seq<T>, key: T -> int, k: int): seq<T>
    decreases |s|
  {
    if s == [] then []
    else WithKey(s[..|s| - 1], key, k) + (if key(s[|s| - 1]) == k then [s[|s| - 1]] else [])
  }

  /** Inserts `x` after every element whose key is at least `x`'s. */
  function InsertDesc<T>(x: T, s: seq<T>, key: T -> int): seq<T>
    decreases |s|
  {
    if s == [] then [x]
    else if key(s[0]) < key(x) then [x] + s
    else [s[0]] + InsertDesc(x, s[1..], key)
  }

  function SortDesc<T>(s: seq<T>, key: T -> int): seq<T>
    decreases |s|
  {
    if s == [] then [] else InsertDesc(s[|s| - 1], SortDesc(s[..|s| - 1], key), key)
  }

  lemma {:induction false} InsertDescPermutes<T>(x: T, s: seq<T>, key: T -> int)
    ensures multiset(InsertDesc(x, s, key)) == multiset(s) + multiset{x}
    decreases |s|
  {
    if s != [] && key(s[0]) >= key(x) {
      InsertDescPermutes(x, s[1..], key);
      assert s == [s[0]] + s[1..];
    }
  }

  lemma {:induction false} InsertDescSorted<T>(x: T, s: seq<T>, key: T -> int)
    requires SortedDesc(s, key)
    ensures SortedDesc(InsertDesc(x, s, key), key)
    ensures |InsertDesc(x, s, key)| == |s| + 1
    ensures forall i | 0 <= i < |InsertDesc(x, s, key)| ::
      InsertDesc(x, s, key)[i] == x || InsertDesc(x, s, key)[i] in s
    decreases |s|
  {
    if s != [] && key(s[0]) >= key(x) {
      InsertDescSorted(x, s[1..], key);
      var t := InsertDesc(x, s[1..], key);
      forall i | 0 < i < |t| + 1
        ensures key(s[0]) >= key(([s[0]] + t)[i])
      {
        assert ([s[0]] + t)[i] == t[i - 1];
        assert t[i - 1] == x || t[i - 1] in s[1..];
      }
    }
  }

  /** The sorted list is ordered by key, largest first. */
  lemma {:induction false} SortDescSorted<T>(s: seq<T>, key: T -> int)
    ensures SortedDesc(SortDesc(s, key), key)
    ensures |SortDesc(s, key)| == |s|
    decreases |s|
  {
    if s != [] {
      SortDescSorted(s[..|s| - 1], key);
      InsertDescSorted(s[|s| - 1], SortDesc(s[..|s| - 1], key), key);
    }
  }

  /** The sorted list holds exactly the input's elements. */
  lemma {:induction false} SortDescPermutes<T>(s: seq<T>, key: T -> int)
    ensures multiset(SortDesc(s, key)) == multiset(s)
    decreases |s|
  {
    if s != [] {
      SortDescPermutes(s[..|s| - 1], key);
      InsertDescPermutes(s[|s| - 1], SortDesc(s[..|s| - 1], key), key);
      assert s == s[..|s| - 1] + [s[|s| - 1]];
    }
  }

  lemma {:induction false} WithKeyAppend<T>(a: seq<T>, b: seq<T>, key: T -> int, k: int)
    ensures WithKey(a + b, key, k) == WithKey(a, key, k) + WithKey(b, key, k)
    decreases |b|
  {
    if b == [] {
      assert a + b == a;
    } else {
      var b' := b[..|b| - 1];
      assert (a + b)[..|a + b| - 1] == a + b';
      WithKeyAppend(a, b', key, k);
    }
  }

  lemma {:induction false} WithKeyCons<T>(x: T, s: seq<T>, key: T -> int, k: int)
    ensures WithKey([x] + s, key, k) == (if key(x) == k then [x] else []) + WithKey(s, key, k)
  {
    WithKeyAppend([x], s, key, k);
    assert [x][..0] == [];
  }

  lemma {:induction false} WithKeyNone<T>(s: seq<T>, key: T -> int, k: int)
    requires forall i | 0 <= i < |s| :: key(s[i]) != k
    ensures WithKey(s, key, k) == []
    decreases |s|
  {
    if s != [] {
      WithKeyNone(s[..|s| - 1], key, k);
    }
  }

  lemma {:induction false} InsertDescWithKey<T>(x: T, s: seq<T>, key: T -> int, k: int)
    requires SortedDesc(s, key)
    ensures WithKey(InsertDesc(x, s, key), key, k)
      == WithKey(s, key, k) + (if key(x) == k then [x] else [])
    decreases |s|
  {
    if s == [] {
      assert InsertDesc(x, s, key) == [] + [x];
    } else if key(s[0]) < key(x) {
      InsertFirstWithKey(x, s, key, k);
    } else {
      SortedDescTail(s, key);
      InsertDescWithKey(x, s[1..], key, k);
      InsertLaterWithKey(x, s, key, k);
    }
  }

  lemma SortedDescTail<T>(s: seq<T>, key: T -> int)
    requires s != [] && SortedDesc(s, key)
    ensures SortedDesc(s[1..], key)
  {
    forall i, j | 0 <= i < j < |s| - 1 ensures key(s[1..][i]) >= key(s[1..][j]) {
      assert s[1..][i] == s[i + 1] && s[1..][j] == s[j + 1];
    }
  }

  /** `x` goes in front: no element of `s` has a key as large as `x`'s. */
  lemma InsertFirstWithKey<T>(x: T, s: seq<T>, key: T -> int, k: int)
    requires s != [] && SortedDesc(s, key) && key(s[0]) < key(x)
    ensures WithKey(InsertDesc(x, s, key), key, k)
      == WithKey(s, key, k) + (if key(x) == k then [x] else [])
  {
    assert InsertDesc(x, s, key) == [x] + s;
    WithKeyCons(x, s, key, k);
    if key(x) == k {
      forall i | 0 <= i < |s| ensures key(s[i]) != k {
        if i > 0 {
          assert key(s[0]) >= key(s[i]);
        }
      }
      WithKeyNone(s, key, k);
    }
  }

  /** `x` goes after the head: the head keeps its place in front of the rest. */
  lemma InsertLaterWithKey<T>(x: T, s: seq<T>, key: T -> int, k: int)
    requires s != [] && key(s[0]) >= key(x)
    requires WithKey(InsertDesc(x, s[1..], key), key, k)
      == WithKey(s[1..], key, k) + (if key(x) == k then [x] else [])
    ensures WithKey(InsertDesc(x, s, key), key, k)
      == WithKey(s, key, k) + (if key(x) == k then [x] else [])
  {
    var t := InsertDesc(x, s[1..], key);
    assert InsertDesc(x, s, key) == [s[0]] + t;
    var h := if key(s[0]) == k then [s[0]] else [];
    var e := if key(x) == k then [x] else [];
    WithKeyCons(s[0], t, key, k);
    WithKeyCons(s[0], s[1..], key, k);
    assert s == [s[0]] + s[1..];
    assert h + (WithKey(s[1..], key, k) + e) == (h + WithKey(s[1..], key, k)) + e;
  }

  /** The first `n` elements of a sorted list: sorted themselves, taken from
      the list, and none of the elements left out has a larger key than one
      that is taken. */
  lemma SortedPrefix<T>(s: seq<T>, key: T -> int, n: nat)
    requires SortedDesc(s, key) && n <= |s|
    ensures SortedDesc(s[..n], key)
    ensures multiset(s[..n]) <= multiset(s)
    ensures forall x, y | x in s && x !in s[..n] && y in s[..n] :: key(x) <= key(y)
  {
    assert s == s[..n] + s[n..];
    assert multiset(s) == multiset(s[..n]) + multiset(s[n..]);
    forall x, y | x in s && x !in s[..n] && y in s[..n] ensures key(x) <= key(y) {
      var i :| 0 <= i < |s| && s[i] == x;
      var j :| 0 <= j < n && s[..n][j] == y;
      assert i >= n;
    }
  }

  /** Stability: the records that share a key appear in the sorted list in the
      same order as in the input. */
  lemma {:induction false} SortDescStable<T>(s: seq<T>, key: T -> int, k: int)
    ensures WithKey(SortDesc(s, key), key, k) == WithKey(s, key, k)
    decreases |s|
  {
    if s != [] {
      SortDescStable(s[..|s| - 1], key, k);
      SortDescSorted(s[..|s| - 1], key);
      InsertDescWithKey(s[|s| - 1], SortDesc(s[..|s| - 1], key), key, k);
    }
  }
}
