/** `Array.prototype.sort` with a descending comparator `(a, b) => key(b) - key(a)`,
    used on ranking tables (by level) and on transaction listings (by date).
    The sort the language specifies is stable: elements whose keys compare
    equal keep their relative order. `StableSortDesc` is that sort as a
    function, and the in-place insertion sort below is proved to compute it. */
module Sorting {

  predicate SortedDesc<T>(s: seq<T>, key: T -> int) {
    forall i, j :: 0 <= i < j < |s| ==> key(s[i]) >= key(s[j])
  }

  /** `x` placed in front of the first element of `t` whose key is smaller
      than its own; in a descending `t`, that is after every element whose
      key is at least `key(x)`. */
  function Insert<T>(x: T, t: seq<T>, key: T -> int): (r: seq<T>)
    ensures |r| == |t| + 1
  {
    if |t| == 0 || key(t[0]) < key(x) then [x] + t
    else [t[0]] + Insert(x, t[1..], key)
  }

  /** The stable descending sort: each element in turn inserted after the
      earlier ones whose key is at least its own. */
  function StableSortDesc<T>(s: seq<T>, key: T -> int): (r: seq<T>)
    ensures |r| == |s|
  {
    if |s| == 0 then []
    else Insert(s[|s| - 1], StableSortDesc(s[..|s| - 1], key), key)
  }

  /** The elements of `s` whose key is `k`, in their order in `s`. */
  function Ties<T>(s: seq<T>, key: T -> int, k: int): seq<T> {
    if |s| == 0 then [] else (if key(s[0]) == k then [s[0]] else []) + Ties(s[1..], key, k)
  }

  lemma {:induction false} InsertPermutes<T>(x: T, t: seq<T>, key: T -> int)
    ensures multiset(Insert(x, t, key)) == multiset(t) + multiset{x}
    decreases |t|
  {
    if |t| > 0 && key(t[0]) >= key(x) {
      InsertPermutes(x, t[1..], key);
      assert t == [t[0]] + t[1..];
    }
  }

  /** The stable sort rearranges its input and nothing more. */
  lemma {:induction false} StableSortPermutes<T>(s: seq<T>, key: T -> int)
    ensures multiset(StableSortDesc(s, key)) == multiset(s)
    decreases |s|
  {
    if |s| > 0 {
      StableSortPermutes(s[..|s| - 1], key);
      InsertPermutes(s[|s| - 1], StableSortDesc(s[..|s| - 1], key), key);
      assert s == s[..|s| - 1] + [s[|s| - 1]];
    }
  }

  lemma {:induction false} InsertKeepsSorted<T>(x: T, t: seq<T>, key: T -> int)
    requires SortedDesc(t, key)
    ensures SortedDesc(Insert(x, t, key), key)
    decreases |t|
  {
    if |t| > 0 && key(t[0]) >= key(x) {
      var rest := Insert(x, t[1..], key);
      InsertKeepsSorted(x, t[1..], key);
      InsertPermutes(x, t[1..], key);
      forall j | 0 <= j < |rest| ensures key(t[0]) >= key(rest[j]) {
        assert rest[j] in multiset(rest);
        if rest[j] != x {
          assert rest[j] in multiset(t[1..]);
          var q :| 0 <= q < |t[1..]| && t[1..][q] == rest[j];
          assert t[q + 1] == rest[j];
        }
      }
      var r := [t[0]] + rest;
      assert forall j :: 0 < j < |r| ==> r[j] == rest[j - 1];
    }
  }

  /** The stable sort really sorts. */
  lemma {:induction false} StableSortSorted<T>(s: seq<T>, key: T -> int)
    ensures SortedDesc(StableSortDesc(s, key), key)
    decreases |s|
  {
    if |s| > 0 {
      StableSortSorted(s[..|s| - 1], key);
      InsertKeepsSorted(s[|s| - 1], StableSortDesc(s[..|s| - 1], key), key);
    }
  }

  /** Inserting into a descending list lands right before the elements
      whose key is smaller. */
  lemma {:induction false} InsertAt<T>(x: T, t: seq<T>, key: T -> int, j: nat)
    requires SortedDesc(t, key) && j <= |t|
    requires j == 0 || key(t[j - 1]) >= key(x)
    requires forall q :: j <= q < |t| ==> key(t[q]) < key(x)
    ensures Insert(x, t, key) == t[..j] + [x] + t[j..]
    decreases j
  {
    if j == 0 {
      assert t[j..] == t;
    } else {
      assert key(t[0]) >= key(t[j - 1]);
      InsertAt(x, t[1..], key, j - 1);
      assert t[..j] == [t[0]] + t[1..][..j - 1];
      assert t[j..] == t[1..][j - 1..];
    }
  }

  lemma TiesCons<T>(y: T, r: seq<T>, key: T -> int, k: int)
    ensures Ties([y] + r, key, k) == (if key(y) == k then [y] else []) + Ties(r, key, k)
  {
    assert ([y] + r)[1..] == r;
  }

  lemma {:induction false} TiesAppend<T>(s: seq<T>, t: seq<T>, key: T -> int, k: int)
    ensures Ties(s + t, key, k) == Ties(s, key, k) + Ties(t, key, k)
    decreases |s|
  {
    if |s| == 0 {
      assert s + t == t;
    } else {
      TiesAppend(s[1..], t, key, k);
      assert s + t == [s[0]] + (s[1..] + t);
      TiesCons(s[0], s[1..] + t, key, k);
    }
  }

  lemma {:induction false} TiesAbsent<T>(t: seq<T>, key: T -> int, k: int)
    requires forall i :: 0 <= i < |t| ==> key(t[i]) != k
    ensures Ties(t, key, k) == []
    decreases |t|
  {
    if |t| > 0 {
      TiesAbsent(t[1..], key, k);
    }
  }

  /** Inserting `x` adds it after every element of its own key. */
  lemma {:induction false} InsertTies<T>(x: T, t: seq<T>, key: T -> int, k: int)
    requires SortedDesc(t, key)
    ensures Ties(Insert(x, t, key), key, k) == Ties(t, key, k) + (if key(x) == k then [x] else [])
    decreases |t|
  {
    if |t| == 0 {
      TiesCons(x, t, key, k);
    } else if key(t[0]) < key(x) {
      TiesCons(x, t, key, k);
      if key(x) == k {
        TiesAbsent(t, key, k);
      }
    } else {
      var rest := Insert(x, t[1..], key);
      assert SortedDesc(t[1..], key);
      InsertTies(x, t[1..], key, k);
      TiesCons(t[0], rest, key, k);
      TiesCons(t[0], t[1..], key, k);
      assert [t[0]] + t[1..] == t;
    }
  }

  /** Stability: among the elements of any one key, the sorted sequence
      keeps the order they had. */
  lemma {:induction false} StableSortTies<T>(s: seq<T>, key: T -> int, k: int)
    ensures Ties(StableSortDesc(s, key), key, k) == Ties(s, key, k)
    decreases |s|
  {
    if |s| > 0 {
      var p := s[..|s| - 1];
      StableSortTies(p, key, k);
      StableSortSorted(p, key);
      InsertTies(s[|s| - 1], StableSortDesc(p, key), key, k);
      assert s == p + [s[|s| - 1]];
      TiesAppend(p, [s[|s| - 1]], key, k);
    }
  }

  /** In a descending sequence, a prefix is descending and each of its
      elements has a key at least that of every element after it. */
  lemma PrefixDominates<T>(s: seq<T>, key: T -> int, k: nat)
    requires SortedDesc(s, key) && k <= |s|
    ensures SortedDesc(s[..k], key)
    ensures forall e, x :: e in s[k..] && x in s[..k] ==> key(x) >= key(e)
  {
    forall e, x | e in s[k..] && x in s[..k] ensures key(x) >= key(e) {
      var q :| 0 <= q < |s[k..]| && s[k..][q] == e;
      var p :| 0 <= p < k && s[..k][p] == x;
      assert s[p] == x && s[k + q] == e;
    }
  }

  method Swap<T>(a: array<T>, i: int, j: int)
    requires 0 <= i < a.Length && 0 <= j < a.Length
    modifies a
    ensures a[i] == old(a[j]) && a[j] == old(a[i])
    ensures forall k :: 0 <= k < a.Length && k != i && k != j ==> a[k] == old(a[k])
  {
    a[i], a[j] := a[j], a[i];
  }

  /** One pass of insertion sort: moves `a[i]` left past every element with
      a smaller key, so that the first `i + 1` elements become `a[i]`
      inserted into the first `i`. An element never moves past one of equal
      key, which is what makes the sort stable. */
  method InsertLeft<T>(a: array<T>, i: int, key: T -> int)
    requires 0 <= i < a.Length
    requires SortedDesc(a[..i], key)
    modifies a
    ensures a[..i + 1] == Insert(old(a[i]), old(a[..i]), key)
    ensures a[i + 1..] == old(a[i + 1..])
  {
    ghost var t := a[..i];
    ghost var x := a[i];
    var j := i;
    while j > 0 && key(a[j - 1]) < key(a[j])
      invariant 0 <= j <= i
      invariant a[j] == x
      invariant forall q :: 0 <= q < j ==> a[q] == t[q]
      invariant forall q :: j < q <= i ==> a[q] == t[q - 1]
      invariant forall q :: i < q < a.Length ==> a[q] == old(a[q])
      invariant forall q :: j <= q < i ==> key(t[q]) < key(x)
    {
      Swap(a, j - 1, j);
      j := j - 1;
    }
    InsertAt(x, t, key, j);
    Spliced(a[..], t, x, i, j);
  }

  /** A sequence that agrees with `t` before `j`, holds `x` at `j` and
      agrees with `t` shifted by one up to `i` starts with `x` spliced into
      `t` at `j`. */
  lemma Spliced<T>(b: seq<T>, t: seq<T>, x: T, i: nat, j: nat)
    requires j <= i == |t| < |b|
    requires b[j] == x
    requires forall q :: 0 <= q < j ==> b[q] == t[q]
    requires forall q :: j < q <= i ==> b[q] == t[q - 1]
    ensures b[..i + 1] == t[..j] + [x] + t[j..]
  {
  }

  /** Sorts `a` in place so that keys never increase, stably: the result
      is the stable sort of the original contents, hence a permutation of
      them that keeps elements of equal key in their original order. */
  method SortDescending<T>(a: array<T>, key: T -> int)
    modifies a
    ensures a[..] == StableSortDesc(old(a[..]), key)
    ensures SortedDesc(a[..], key)
    ensures multiset(a[..]) == multiset(old(a[..]))
    ensures forall k :: Ties(a[..], key, k) == Ties(old(a[..]), key, k)
  {
    ghost var s := a[..];
    var i := 0;
    while i < a.Length
      invariant 0 <= i <= a.Length
      invariant a[..i] == StableSortDesc(s[..i], key)
      invariant a[i..] == s[i..]
    {
      StableSortSorted(s[..i], key);
      assert s[..i + 1][..i] == s[..i];
      InsertLeft(a, i, key);
      i := i + 1;
    }
    assert a[..] == a[..a.Length] && s == s[..a.Length];
    StableSortSorted(s, key);
    StableSortPermutes(s, key);
    forall k ensures Ties(a[..], key, k) == Ties(s, key, k) {
      StableSortTies(s, key, k);
    }
  }
}
