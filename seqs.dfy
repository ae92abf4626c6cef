/**
 * Array operations used by the route handlers and components:
 * `filter`, the first-occurrence de-duplication idiom
 * `arr.filter((p, i, arr) => arr.indexOf(p) === i)`, and ordering rows by a
 * timestamp, newest first, as the database queries request.
 */
module Seqs {
  /** `s.filter(f)`. */
  function Filter<T>(s: seq<T>, f: T -> bool): (r: seq<T>)
    ensures |r| <= |s|
    ensures forall i | 0 <= i < |r| :: r[i] in s && f(r[i])
    ensures forall i | 0 <= i < |s| && f(s[i]) :: s[i] in r
    decreases |s|
  {
    if s == [] then [] else if f(s[0]) then [s[0]] + Filter(s[1..], f) else Filter(s[1..], f)
  }

  lemma {:induction false} FilterConcat<T>(a: seq<T>, b: seq<T>, f: T -> bool)
    ensures Filter(a + b, f) == Filter(a, f) + Filter(b, f)
    decreases |a|
  {
    if a == [] {
      assert a + b == b;
    } else {
      assert (a + b)[1..] == a[1..] + b;
      FilterConcat(a[1..], b, f);
    }
  }

  /** A filter that keeps every element changes nothing. */
  lemma {:induction false} FilterAll<T>(s: seq<T>, f: T -> bool)
    requires forall x | x in s :: f(x)
    ensures Filter(s, f) == s
    decreases |s|
  {
    if s != [] { FilterAll(s[1..], f); }
  }

  /** One more element of a prefix. */
  lemma TakeSnoc<T>(s: seq<T>, i: nat)
    requires i < |s|
    ensures s[..i + 1] == s[..i] + [s[i]]
  {
  }

  /** Appending nothing. */
  lemma AppendEmpty<T>(a: seq<T>, b: seq<T>)
    requires |b| == 0
    ensures a + b == a
  {
  }

  /** Appending one element after a concatenation. */
  lemma SnocAssoc<T>(a: seq<T>, b: seq<T>, x: T)
    ensures (a + b) + [x] == a + (b + [x])
  {
  }

  /** Appending a sequence after a concatenation. */
  lemma AppendAssoc<T>(a: seq<T>, b: seq<T>, c: seq<T>)
    ensures (a + b) + c == a + (b + c)
  {
  }

  /** Growing `t0` by `a` and then by `b` grows it by `c` when `c` is `a` followed by `b`. */
  lemma AppendGrow<T>(t0: seq<T>, t1: seq<T>, t2: seq<T>, a: seq<T>, b: seq<T>, c: seq<T>)
    requires t1 == t0 + a && t2 == t1 + b && c == a + b
    ensures t2 == t0 + c
  {
    AppendAssoc(t0, a, b);
  }

  predicate NoDup<T(==)>(s: seq<T>) {
    forall i, j | 0 <= i < j < |s| :: s[i] != s[j]
  }

  /** Keeps the first occurrence of every value, in order of first appearance. */
  function Dedup<T(==)>(s: seq<T>): (r: seq<T>)
    decreases |s|
  {
    if s == [] then []
    else
      var init := s[..|s| - 1];
      if s[|s| - 1] in init then Dedup(init) else Dedup(init) + [s[|s| - 1]]
  }

  /** The position of the first occurrence of `x` in `s`, as `s.indexOf(x)` finds it. */
  function FirstIndex<T(==)>(s: seq<T>, x: T): (k: nat)
    requires x in s
    ensures k < |s| && s[k] == x && x !in s[..k]
    decreases |s|
  {
    if s[0] == x then 0 else 1 + FirstIndex(s[1..], x)
  }

  /** Appending never moves a first occurrence. */
  lemma FirstIndexPrefix<T>(s: seq<T>, t: seq<T>, x: T)
    requires x in s
    ensures FirstIndex(s + t, x) == FirstIndex(s, x)
  {
    var k1, k2 := FirstIndex(s + t, x), FirstIndex(s, x);
    assert (s + t)[k2] == x;
  }

  /**
   * The de-duplicated list has no repeats, the same values as the input,
   * and lists them in order of their first occurrence in the input.
   */
  lemma {:induction false} DedupSpec<T>(s: seq<T>)
    ensures NoDup(Dedup(s))
    ensures forall x :: x in Dedup(s) <==> x in s
    ensures forall i, j | 0 <= i < j < |Dedup(s)| :: FirstIndex(s, Dedup(s)[i]) < FirstIndex(s, Dedup(s)[j])
    decreases |s|
  {
    if s != [] {
      var init := s[..|s| - 1];
      var last := s[|s| - 1];
      DedupSpec(init);
      assert s == init + [last];
      var d := Dedup(init);
      forall x | x in init ensures FirstIndex(s, x) == FirstIndex(init, x) {
        FirstIndexPrefix(init, [last], x);
      }
      if last !in init {
        assert FirstIndex(s, last) == |s| - 1;
        forall i, j | 0 <= i < j < |Dedup(s)| ensures FirstIndex(s, Dedup(s)[i]) < FirstIndex(s, Dedup(s)[j]) {
          assert Dedup(s)[i] == d[i];
          if j < |d| { assert Dedup(s)[j] == d[j]; }
        }
      }
    }
  }

  /** A list without repeats is left as it is. */
  lemma {:induction false} DedupNoDup<T>(s: seq<T>)
    requires NoDup(s)
    ensures Dedup(s) == s
    decreases |s|
  {
    if s != [] {
      var init := s[..|s| - 1];
      assert NoDup(init);
      DedupNoDup(init);
      assert s[|s| - 1] !in init;
      assert s == init + [s[|s| - 1]];
    }
  }

  predicate SortedDesc<T>(s: seq<T>, key: T -> int) {
    forall i, j | 0 <= i < j < |s| :: key(s[i]) >= key(s[j])
  }

  function Insert<T>(x: T, s: seq<T>, key: T -> int): (r: seq<T>)
    ensures |r| == |s| + 1
    decreases |s|
  {
    if s == [] || key(x) >= key(s[0]) then [x] + s else [s[0]] + Insert(x, s[1..], key)
  }

  lemma {:induction false} InsertSpec<T>(x: T, s: seq<T>, key: T -> int)
    requires SortedDesc(s, key)
    ensures SortedDesc(Insert(x, s, key), key)
    ensures multiset(Insert(x, s, key)) == multiset(s) + multiset{x}
    ensures Insert(x, s, key)[0] == x || (s != [] && Insert(x, s, key)[0] == s[0])
    decreases |s|
  {
    InsertSorted(x, s, key);
    InsertPerm(x, s, key);
  }

  lemma {:induction false} InsertSorted<T>(x: T, s: seq<T>, key: T -> int)
    requires SortedDesc(s, key)
    ensures SortedDesc(Insert(x, s, key), key)
    ensures Insert(x, s, key)[0] == x || (s != [] && Insert(x, s, key)[0] == s[0])
    decreases |s|
  {
    var r := Insert(x, s, key);
    if s == [] || key(x) >= key(s[0]) {
      assert r == [x] + s;
      forall i, j | 0 <= i < j < |r| ensures key(r[i]) >= key(r[j]) {
        if i == 0 && j > 1 { assert key(s[0]) >= key(s[j - 1]); }
      }
    } else {
      var t := s[1..];
      assert SortedDesc(t, key) by {
        forall i, j | 0 <= i < j < |t| ensures key(t[i]) >= key(t[j]) { assert t[i] == s[i + 1] && t[j] == s[j + 1]; }
      }
      InsertSorted(x, t, key);
      var u := Insert(x, t, key);
      assert r == [s[0]] + u;
      assert key(u[0]) <= key(s[0]) by {
        if u[0] != x { assert u[0] == t[0] == s[1]; }
      }
      forall i, j | 0 <= i < j < |r| ensures key(r[i]) >= key(r[j]) {
        if i == 0 {
          if j > 1 { assert key(u[0]) >= key(u[j - 1]); }
        } else {
          assert r[i] == u[i - 1] && r[j] == u[j - 1];
        }
      }
    }
  }

  lemma {:induction false} InsertPerm<T>(x: T, s: seq<T>, key: T -> int)
    ensures multiset(Insert(x, s, key)) == multiset(s) + multiset{x}
    decreases |s|
  {
    if s != [] && key(x) < key(s[0]) {
      InsertPerm(x, s[1..], key);
      assert s == [s[0]] + s[1..];
    }
  }

  /** Rows ordered by a timestamp, newest first. */
  function NewestFirst<T>(s: seq<T>, key: T -> int): (r: seq<T>)
    decreases |s|
  {
    if s == [] then [] else Insert(s[0], NewestFirst(s[1..], key), key)
  }

  /** Ordering newest first sorts by the timestamp and neither loses nor adds a row. */
  lemma {:induction false} NewestFirstSpec<T>(s: seq<T>, key: T -> int)
    ensures SortedDesc(NewestFirst(s, key), key)
    ensures multiset(NewestFirst(s, key)) == multiset(s)
    decreases |s|
  {
    if s != [] {
      NewestFirstSpec(s[1..], key);
      InsertSpec(s[0], NewestFirst(s[1..], key), key);
      assert s == [s[0]] + s[1..];
    }
  }

  function SumLengths(s: seq<string>): (n: nat)
    decreases |s|
  {
    if s == [] then 0 else |s[0]| + SumLengths(s[1..])
  }
}
