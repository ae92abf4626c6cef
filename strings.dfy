/**
 * The JavaScript string operations the application relies on, on strings
 * of code points: `trim`, `indexOf`/`includes`, `split`/`join` with a string
 * separator, `replace` with a string pattern (first occurrence) and with a
 * global pattern, the `/\s+/g` and `/<[^>]*>/g` rewrites, and decimal
 * rendering of numbers in template literals.
 */
module Strings {
  import opened Wrappers

  /** White space and line terminators: what `trim()` strips and `\s` matches. */
  predicate IsSpace(c: char) {
    c == ' ' || c == '\t' || c == '\n' || c == '\r' || c == '\U{000B}' || c == '\U{000C}'
    || c == '\U{00A0}' || c == '\U{1680}' || ('\U{2000}' <= c <= '\U{200A}')
    || c == '\U{2028}' || c == '\U{2029}' || c == '\U{202F}' || c == '\U{205F}'
    || c == '\U{3000}' || c == '\U{FEFF}'
  }

  /** `!s.trim()`: the string holds nothing but white space. */
  predicate Blank(s: string) {
    forall i | 0 <= i < |s| :: IsSpace(s[i])
  }

  /** `t` occurs in `s` at offset `k`. */
  predicate InfixAt(t: string, s: string, k: nat) {
    k + |t| <= |s| && s[k..k + |t|] == t
  }

  ghost predicate Infix(t: string, s: string) {
    exists k: nat :: InfixAt(t, s, k)
  }

  lemma InfixTrans(a: string, b: string, c: string, i: nat, j: nat)
    requires InfixAt(a, b, i) && InfixAt(b, c, j)
    ensures InfixAt(a, c, j + i) && Infix(a, c)
  {
    forall k | 0 <= k < |a| ensures c[j + i + k] == a[k] {
      assert a[k] == b[i + k];
      assert b[i + k] == c[j + i + k];
    }
    assert c[j + i..j + i + |a|] == a;
    assert InfixAt(a, c, j + i);
  }

  lemma BlankConcat(a: string, b: string)
    requires Blank(a) && Blank(b)
    ensures Blank(a + b)
  {
  }

  function TrimStart(s: string): (r: string)
    ensures |r| <= |s| && r == s[|s| - |r|..]
    ensures Blank(s[..|s| - |r|])
    ensures r != [] ==> !IsSpace(r[0])
    decreases |s|
  {
    if s != [] && IsSpace(s[0]) then
      var r := TrimStart(s[1..]);
      assert s[..|s| - |r|] == [s[0]] + s[1..][..|s| - 1 - |r|];
      r
    else s
  }

  function TrimEnd(s: string): (r: string)
    ensures |r| <= |s| && r == s[..|r|]
    ensures Blank(s[|r|..])
    ensures r != [] ==> !IsSpace(r[|r| - 1])
    decreases |s|
  {
    if s != [] && IsSpace(s[|s| - 1]) then
      var r := TrimEnd(s[..|s| - 1]);
      assert s[|r|..] == s[..|s| - 1][|r|..] + [s[|s| - 1]];
      r
    else s
  }

  /** `s.trim()`: the longest infix of `s` that neither starts nor ends with white space. */
  function Trim(s: string): (r: string)
    ensures InfixAt(r, s, |s| - |TrimStart(s)|)
    ensures r != [] ==> !IsSpace(r[0]) && !IsSpace(r[|r| - 1])
    ensures r == [] <==> Blank(s)
    ensures Blank(s[..|s| - |TrimStart(s)|])
    ensures Blank(s[|s| - |TrimStart(s)| + |TrimEnd(TrimStart(s))|..])
  {
    TrimFacts(s);
    TrimEnd(TrimStart(s))
  }

  lemma TrimFacts(s: string)
    ensures InfixAt(TrimEnd(TrimStart(s)), s, |s| - |TrimStart(s)|)
    ensures TrimEnd(TrimStart(s)) == [] <==> Blank(s)
    ensures Blank(s[|s| - |TrimStart(s)| + |TrimEnd(TrimStart(s))|..])
  {
    TrimShape(s, TrimStart(s), TrimEnd(TrimStart(s)));
  }

  /** What trimming the start and then the end of a string gives, for any strings with those shapes. */
  lemma TrimShape(s: string, t: string, r: string)
    requires |t| <= |s| && t == s[|s| - |t|..] && Blank(s[..|s| - |t|])
    requires |r| <= |t| && r == t[..|r|] && Blank(t[|r|..])
    requires r != [] ==> !IsSpace(r[0])
    ensures InfixAt(r, s, |s| - |t|) && Blank(s[|s| - |t| + |r|..])
    ensures r == [] <==> Blank(s)
  {
    var k := |s| - |t|;
    TrimInfix(s, t, r, k);
    TrimEmpty(s, t, r, k);
  }

  lemma TrimEmpty(s: string, t: string, r: string, k: nat)
    requires k <= |s| && t == s[k..] && Blank(s[..k])
    requires r == [] ==> Blank(t)
    requires r != [] ==> !IsSpace(r[0]) && InfixAt(r, s, k)
    ensures r == [] <==> Blank(s)
  {
    if r == [] {
      TrimBlank(s, t, k);
    } else {
      NotBlankInfix(s, r, k);
    }
  }

  lemma NotBlankInfix(s: string, r: string, k: nat)
    requires r != [] && !IsSpace(r[0]) && InfixAt(r, s, k)
    ensures !Blank(s)
  {
    assert s[k] == s[k..k + |r|][0];
  }

  lemma TrimInfix(s: string, t: string, r: string, k: nat)
    requires k <= |s| && t == s[k..] && |r| <= |t| && r == t[..|r|] && Blank(t[|r|..])
    ensures InfixAt(r, s, k) && Blank(s[k + |r|..])
  {
    assert s[k..k + |r|] == r;
    assert s[k + |r|..] == t[|r|..];
  }

  lemma TrimBlank(s: string, t: string, k: nat)
    requires k <= |s| && t == s[k..] && Blank(s[..k]) && Blank(t)
    ensures Blank(s)
  {
    assert s == s[..k] + t;
    BlankConcat(s[..k], t);
  }

  lemma {:induction false} TrimIdempotent(s: string)
    ensures Trim(Trim(s)) == Trim(s)
  {
    var r := Trim(s);
    if r != [] {
      assert TrimStart(r) == r;
      assert TrimEnd(r) == r;
    }
  }

  /** Text surrounded by white space trims to its own trimmed form. */
  lemma {:induction false} TrimPadded(a: string, t: string, b: string)
    requires Blank(a) && Blank(b)
    ensures Trim(a + t + b) == Trim(t)
    decreases |a| + |b|
  {
    if a != [] {
      var x := a + t + b;
      assert x[0] == a[0] && x[1..] == a[1..] + t + b;
      TrimPadded(a[1..], t, b);
      TrimStartDrop(x);
    } else if b != [] {
      assert a + t + b == t + b;
      var v := TrimStart(t);
      TrimStartSuffix(t, b);
      if TrimStart(t + b) == v + b {
        TrimEndBlankSuffix(v, b);
      }
    } else {
      assert a + t + b == t;
    }
  }

  lemma TrimStartDrop(x: string)
    requires x != [] && IsSpace(x[0])
    ensures Trim(x) == Trim(x[1..])
  {
    assert TrimStart(x) == TrimStart(x[1..]);
  }

  /** Text whose ends are not whitespace is its own trim. */
  lemma TrimUnpadded(t: string)
    requires t != [] && !IsSpace(t[0]) && !IsSpace(t[|t| - 1])
    ensures Trim(t) == t
  {
    assert TrimStart(t) == t;
  }

  /** Text followed by whitespace trims to itself when its own ends are not whitespace. */
  lemma TrimTail(a: string, t: string)
    requires Blank(t) && a != [] && !IsSpace(a[0]) && !IsSpace(a[|a| - 1])
    ensures Trim(a + t) == a
  {
    TrimPadded([], a, t);
    assert [] + a + t == a + t;
    TrimUnpadded(a);
  }

  lemma {:induction false} TrimStartSuffix(t: string, b: string)
    requires Blank(b)
    ensures TrimStart(t + b) == TrimStart(t) + b || (TrimStart(t) == [] && TrimStart(t + b) == [])
    decreases |t|
  {
    if t == [] {
      assert t + b == b;
      BlankTrimStart(b);
    } else if IsSpace(t[0]) {
      assert (t + b)[1..] == t[1..] + b;
      TrimStartSuffix(t[1..], b);
    } else {
      assert (t + b)[0] == t[0];
    }
  }

  lemma {:induction false} BlankTrimStart(b: string)
    requires Blank(b)
    ensures TrimStart(b) == []
    decreases |b|
  {
    if b != [] { BlankTrimStart(b[1..]); }
  }

  lemma {:induction false} TrimEndBlankSuffix(v: string, b: string)
    requires Blank(b)
    ensures TrimEnd(v + b) == TrimEnd(v)
    decreases |b|
  {
    if b == [] {
      assert v + b == v;
    } else {
      assert (v + b)[..|v + b| - 1] == v + b[..|b| - 1];
      TrimEndBlankSuffix(v, b[..|b| - 1]);
    }
  }

  /** `p` occurs in `s` at offset `i`. */
  predicate StartsAt(s: string, p: string, i: nat) {
    i + |p| <= |s| && s[i..i + |p|] == p
  }

  predicate StartsWith(s: string, p: string) { StartsAt(s, p, 0) }

  predicate EndsWith(s: string, p: string) {
    |p| <= |s| && s[|s| - |p|..] == p
  }

  /** `s.indexOf(p)`: the leftmost offset at which `p` occurs, if any. */
  function IndexOf(s: string, p: string): (r: Option<nat>)
    ensures r.Some? ==> StartsAt(s, p, r.value)
    ensures r.Some? ==> forall j: nat | j < r.value :: !StartsAt(s, p, j)
    ensures r.None? ==> forall j: nat :: !StartsAt(s, p, j)
  {
    IndexFrom(s, p, 0)
  }

  /** The search of `s.indexOf(p)` from offset `k` on, one offset at a time. */
  function IndexFrom(s: string, p: string, k: nat): (r: Option<nat>)
    ensures r.Some? ==> k <= r.value && StartsAt(s, p, r.value)
    ensures r.Some? ==> forall j: nat | k <= j < r.value :: !StartsAt(s, p, j)
    ensures r.None? ==> forall j: nat | k <= j :: !StartsAt(s, p, j)
    decreases |s| - k
  {
    if k + |p| > |s| then None
    else if StartsAt(s, p, k) then Some(k)
    else IndexFrom(s, p, k + 1)
  }

  lemma StartsAtShift(s: string, p: string)
    requires s != []
    ensures forall j: nat | 1 <= j :: StartsAt(s, p, j) <==> StartsAt(s[1..], p, j - 1)
  {
    forall j: nat | 1 <= j ensures StartsAt(s, p, j) <==> StartsAt(s[1..], p, j - 1) {
      if j + |p| <= |s| { assert s[1..][j - 1..j - 1 + |p|] == s[j..j + |p|]; }
    }
  }

  /** No occurrence before offset `i` means none inside the prefix of length `i`. */
  lemma PrefixFree(s: string, p: string, i: nat)
    requires i <= |s|
    requires forall j: nat | j < i :: !StartsAt(s, p, j)
    ensures |p| > 0 ==> !Contains(s[..i], p)
  {
    if |p| > 0 && Contains(s[..i], p) {
      var j := IndexOf(s[..i], p).value;
      assert StartsAt(s[..i], p, j);
      forall k | 0 <= k < |p| ensures s[j + k] == p[k] {
        assert s[..i][j..j + |p|][k] == p[k];
      }
      assert s[j..j + |p|] == p;
      assert StartsAt(s, p, j);
    }
  }

  /** `s.includes(p)`. */
  predicate Contains(s: string, p: string) { IndexOf(s, p).Some? }

  lemma ContainsAt(s: string, p: string, i: nat)
    requires StartsAt(s, p, i)
    ensures Contains(s, p)
  {
  }

  lemma ContainsInfix(a: string, p: string, b: string)
    ensures Contains(a + p + b, p)
  {
    assert (a + p + b)[|a|..|a| + |p|] == p;
    ContainsAt(a + p + b, p, |a|);
  }

  lemma ContainsSelf(p: string)
    ensures Contains(p, p)
  {
    assert p[0..|p|] == p;
    ContainsAt(p, p, 0);
  }

  lemma ContainsLeft(x: string, y: string, p: string)
    requires Contains(x, p)
    ensures Contains(x + y, p)
  {
    var i := IndexOf(x, p).value;
    assert (x + y)[i..i + |p|] == x[i..i + |p|];
    ContainsAt(x + y, p, i);
  }

  lemma ContainsRight(x: string, y: string, p: string)
    requires Contains(y, p)
    ensures Contains(x + y, p)
  {
    var i := IndexOf(y, p).value;
    assert (x + y)[|x| + i..|x| + i + |p|] == y[i..i + |p|];
    ContainsAt(x + y, p, |x| + i);
  }

  /** `s.split(sep)` with a non-empty string separator. */
  function Split(s: string, sep: string): (r: seq<string>)
    requires |sep| > 0
    ensures |r| >= 1
    decreases |s|
  {
    match IndexOf(s, sep)
    case None => [s]
    case Some(i) => [s[..i]] + Split(s[i + |sep|..], sep)
  }

  /** `parts.join(sep)`. */
  function Join(parts: seq<string>, sep: string): (r: string)
    decreases |parts|
  {
    if |parts| == 0 then ""
    else if |parts| == 1 then parts[0]
    else parts[0] + sep + Join(parts[1..], sep)
  }

  /** Joining the pieces of a split with the same separator gives back the string. */
  lemma {:induction false} JoinSplit(s: string, sep: string)
    requires |sep| > 0
    ensures Join(Split(s, sep), sep) == s
    decreases |s|
  {
    match IndexOf(s, sep)
    case None =>
    case Some(i) =>
      var rest := s[i + |sep|..];
      JoinSplit(rest, sep);
      SplitUnfold(s, sep, i);
      JoinSplitStep(s, sep, i, Split(rest, sep));
  }

  lemma SplitUnfold(s: string, sep: string, i: nat)
    requires |sep| > 0 && IndexOf(s, sep) == Some(i)
    ensures i + |sep| <= |s| && Split(s, sep) == [s[..i]] + Split(s[i + |sep|..], sep)
  {
    assert StartsAt(s, sep, i);
  }

  /** One step of the round trip: the text before the first separator, the separator, then the rest rejoined. */
  lemma JoinSplitStep(s: string, sep: string, i: nat, tail: seq<string>)
    requires StartsAt(s, sep, i) && |tail| >= 1 && Join(tail, sep) == s[i + |sep|..]
    ensures Join([s[..i]] + tail, sep) == s
  {
    JoinCons(s[..i], tail, sep);
    Slice3(s, i, i + |sep|);
  }

  lemma JoinCons(x: string, tail: seq<string>, sep: string)
    requires |tail| >= 1
    ensures Join([x] + tail, sep) == x + sep + Join(tail, sep)
  {
    assert ([x] + tail)[1..] == tail;
  }

  lemma SliceAround(h: string, m: string, rest: string)
    ensures (h + m + rest)[..|h|] == h && (h + m + rest)[|h| + |m|..] == rest
  {
  }

  lemma Slice3(s: string, i: nat, j: nat)
    requires i <= j <= |s|
    ensures s == s[..i] + s[i..j] + s[j..]
  {
  }

  /** No piece of a split contains the separator. */
  lemma {:induction false} SplitPiecesFree(s: string, sep: string)
    requires |sep| > 0
    ensures forall k | 0 <= k < |Split(s, sep)| :: !Contains(Split(s, sep)[k], sep)
    decreases |s|
  {
    match IndexOf(s, sep)
    case None =>
    case Some(i) =>
      var rest := s[i + |sep|..];
      SplitPiecesFree(rest, sep);
      var parts := Split(s, sep);
      assert parts[1..] == Split(rest, sep);
      PrefixFree(s, sep, i);
      assert !Contains(s[..i], sep);
      forall k | 0 <= k < |parts| ensures !Contains(parts[k], sep) {
        if k > 0 { assert parts[k] == Split(rest, sep)[k - 1]; }
      }
  }

  /** Every piece of a split is an infix of the string split. */
  lemma {:induction false} SplitPiecesInfix(s: string, sep: string)
    requires |sep| > 0
    ensures forall k | 0 <= k < |Split(s, sep)| :: Infix(Split(s, sep)[k], s)
    decreases |s|
  {
    match IndexOf(s, sep)
    case None =>
      assert InfixAt(s, s, 0);
    case Some(i) =>
      var rest := s[i + |sep|..];
      SplitPiecesInfix(rest, sep);
      var parts := Split(s, sep);
      assert parts[1..] == Split(rest, sep);
      assert InfixAt(s[..i], s, 0);
      assert InfixAt(rest, s, i + |sep|);
      forall k | 0 <= k < |parts| ensures Infix(parts[k], s) {
        if k > 0 {
          assert parts[k] == Split(rest, sep)[k - 1];
          var m: nat :| InfixAt(parts[k], rest, m);
          InfixTrans(parts[k], rest, s, m, i + |sep|);
        }
      }
  }

  /** The first occurrence of a character after text free of it is right after that text. */
  lemma {:induction false} IndexOfCharPast(h: string, c: char, rest: string)
    requires c !in h
    ensures c in h + [c] + rest && IndexOfChar(h + [c] + rest, c) == |h|
    decreases |h|
  {
    var s := h + [c] + rest;
    assert s[|h|] == c;
    if h != [] {
      assert s[1..] == h[1..] + [c] + rest;
      IndexOfCharPast(h[1..], c, rest);
    }
  }

  /** The first occurrence of a one-character separator after text free of it is right after that text. */
  lemma IndexOfCharAfter(h: string, c: char, rest: string)
    requires c !in h
    ensures IndexOf(h + [c] + rest, [c]) == Some(|h|)
  {
    var s := h + [c] + rest;
    assert StartsAt(s, [c], |h|);
    forall j: nat | j < |h| ensures !StartsAt(s, [c], j) {
      assert s[j..j + 1] == [s[j]];
      assert s[j] == h[j];
    }
  }

  /** Splitting a join on a one-character separator no part holds gives back the parts. */
  lemma {:induction false} SplitJoinChar(parts: seq<string>, c: char)
    requires |parts| >= 1
    requires forall k | 0 <= k < |parts| :: c !in parts[k]
    ensures Split(Join(parts, [c]), [c]) == parts
    decreases |parts|
  {
    if |parts| == 1 {
      forall j: nat ensures !StartsAt(parts[0], [c], j) {
        if j < |parts[0]| {
          assert parts[0][j..j + 1] == [parts[0][j]];
        }
      }
    } else {
      var h, tail := parts[0], parts[1..];
      var rest := Join(tail, [c]);
      assert parts == [h] + tail;
      JoinCons(h, tail, [c]);
      IndexOfCharAfter(h, c, rest);
      SplitUnfold(h + [c] + rest, [c], |h|);
      SliceAround(h, [c], rest);
      SplitJoinChar(tail, c);
    }
  }

  /** Text split once: no piece holds the separator's first character. */
  lemma SplitOnce(a: string, sep: string, b: string)
    requires |sep| > 0 && sep[0] !in a && sep[0] !in b
    ensures Split(a + sep + b, sep) == [a, b]
  {
    var s := a + sep + b;
    assert StartsAt(s, sep, |a|);
    forall j: nat | j < |a| ensures !StartsAt(s, sep, j) {
      if j + |sep| <= |s| {
        assert s[j..j + |sep|][0] == s[j] == a[j];
      }
    }
    assert IndexOf(s, sep) == Some(|a|);
    assert s[..|a|] == a;
    assert s[|a| + |sep|..] == b;
    forall j: nat ensures !StartsAt(b, sep, j) {
      if j + |sep| <= |b| {
        assert b[j..j + |sep|][0] == b[j];
      }
    }
  }

  /** Joining with the empty separator concatenates, so it distributes over concatenation of lists. */
  lemma {:induction false} JoinEmptyConcat(x: seq<string>, y: seq<string>)
    ensures Join(x + y, "") == Join(x, "") + Join(y, "")
    decreases |x|
  {
    if |x| == 0 {
      assert x + y == y;
    } else if |x| == 1 {
      if |y| > 0 {
        assert (x + y)[1..] == y;
      }
    } else {
      JoinEmptyConcat(x[1..], y);
      assert (x + y)[1..] == x[1..] + y;
    }
  }

  /** `s.replace(p, rep)` with a string pattern: only the first occurrence is replaced. */
  function ReplaceFirst(s: string, p: string, rep: string): (r: string)
    ensures IndexOf(s, p).None? ==> r == s
    ensures IndexOf(s, p).Some? ==>
      var i := IndexOf(s, p).value;
      r == s[..i] + rep + s[i + |p|..] && (|p| > 0 ==> !Contains(s[..i], p))
  {
    match IndexOf(s, p)
    case None => s
    case Some(i) =>
      PrefixFree(s, p, i);
      s[..i] + rep + s[i + |p|..]
  }

  /** `s.replace(/p/g, rep)` for a literal pattern: every occurrence, scanning left to right. */
  function ReplaceAll(s: string, p: string, rep: string): (r: string)
    requires |p| > 0
    decreases |s|
  {
    match IndexOf(s, p)
    case None => s
    case Some(i) => s[..i] + rep + ReplaceAll(s[i + |p|..], p, rep)
  }

  /** A global replacement is the same as splitting on the pattern and joining with the replacement. */
  lemma {:induction false} ReplaceAllIsSplitJoin(s: string, p: string, rep: string)
    requires |p| > 0
    ensures ReplaceAll(s, p, rep) == Join(Split(s, p), rep)
    decreases |s|
  {
    match IndexOf(s, p)
    case None =>
    case Some(i) =>
      var rest := s[i + |p|..];
      ReplaceAllIsSplitJoin(rest, p, rep);
      SplitUnfold(s, p, i);
      JoinCons(s[..i], Split(rest, p), rep);
  }

  /** A string without the pattern is left as it is. */
  lemma ReplaceAllAbsent(s: string, p: string, rep: string)
    requires |p| > 0 && !Contains(s, p)
    ensures ReplaceAll(s, p, rep) == s
  {
  }

  /** One occurrence after a pattern-free prefix is replaced and scanning resumes after it. */
  lemma {:induction false} ReplaceAllAfter(a: string, p: string, b: string, rep: string)
    requires |p| > 0
    requires forall j: nat | j < |a| :: !StartsAt(a + p + b, p, j)
    ensures ReplaceAll(a + p + b, p, rep) == a + rep + ReplaceAll(b, p, rep)
  {
    var s := a + p + b;
    assert StartsAt(s, p, |a|) by { assert s[|a|..|a| + |p|] == p; }
    assert IndexOf(s, p) == Some(|a|);
    assert s[..|a|] == a;
    assert s[|a| + |p|..] == b;
  }

  /** The text holds no opening brace, so no `{name}` placeholder starts in it. */
  predicate BraceFree(s: string) { '{' !in s }

  /** No placeholder occurs in brace-free text. */
  lemma BraceFreeNoSlot(s: string, p: string)
    requires BraceFree(s) && |p| > 0 && p[0] == '{'
    ensures !Contains(s, p)
  {
    forall i: nat | i + |p| <= |s| ensures !StartsAt(s, p, i) {
      assert s[i..i + |p|][0] == s[i] && s[i] != '{';
    }
  }

  lemma BraceFreeConcat(a: string, b: string)
    requires BraceFree(a) && BraceFree(b)
    ensures BraceFree(a + b)
  {
  }

  /** Replacing the only slot of a template whose other text has no brace. */
  lemma SingleSlot(a: string, slot: string, b: string, v: string)
    requires |slot| > 0 && slot[0] == '{' && BraceFree(a) && BraceFree(b)
    ensures ReplaceAll(a + slot + b, slot, v) == a + v + b
  {
    var s := a + slot + b;
    forall j: nat | j < |a| && j + |slot| <= |s| ensures !StartsAt(s, slot, j) {
      assert s[j] == a[j] && s[j] != '{';
      assert s[j..j + |slot|][0] == s[j];
    }
    ReplaceAllAfter(a, slot, b, v);
    BraceFreeNoSlot(b, slot);
  }

  /**
   * Text whose only brace opens one placeholder holds no other placeholder
   * that differs from it in its first name character.
   */
  lemma OtherSlotAbsent(a: string, slot: string, b: string, other: string)
    requires BraceFree(a) && BraceFree(b)
    requires |slot| >= 2 && slot[0] == '{' && BraceFree(slot[1..])
    requires |other| >= 2 && other[0] == '{' && other[1] != slot[1]
    ensures !Contains(a + slot + b, other)
  {
    var s := a + slot + b;
    forall j: nat | j + |other| <= |s| ensures !StartsAt(s, other, j) {
      assert s[j..j + |other|][0] == s[j] && s[j..j + |other|][1] == s[j + 1];
      if j < |a| {
        assert s[j] == a[j];
      } else if j == |a| {
        assert s[j + 1] == slot[1];
      } else if j < |a| + |slot| {
        assert s[j] == slot[1..][j - |a| - 1];
      } else {
        assert s[j] == b[j - |a| - |slot|];
      }
    }
  }

  /** A placeholder standing alone is replaced by the value. */
  lemma WholeSlot(slot: string, v: string)
    requires |slot| > 0 && slot[0] == '{'
    ensures ReplaceAll(slot, slot, v) == v
  {
    assert slot == [] + slot + [];
    SingleSlot([], slot, [], v);
    assert [] + v + [] == v;
  }

  /** `s.replace(/\s+/g, ' ')`: every run of white space becomes one space. */
  function CollapseSpaces(s: string): (r: string)
    ensures forall i | 0 <= i < |r| && IsSpace(r[i]) :: r[i] == ' '
    ensures forall i | 0 <= i < |r| - 1 :: !(IsSpace(r[i]) && IsSpace(r[i + 1]))
    ensures r == [] <==> s == []
    ensures r != [] ==> (IsSpace(r[0]) <==> IsSpace(s[0]))
    decreases |s|
  {
    if s == [] then []
    else if IsSpace(s[0]) then " " + CollapseSpaces(TrimStart(s))
    else [s[0]] + CollapseSpaces(s[1..])
  }

  /** The characters of `s` other than white space, in order. */
  function Visible(s: string): string
    decreases |s|
  {
    if s == [] then [] else if IsSpace(s[0]) then Visible(s[1..]) else [s[0]] + Visible(s[1..])
  }

  lemma {:induction false} VisibleBlank(s: string)
    requires Blank(s)
    ensures Visible(s) == []
    decreases |s|
  {
    if s != [] { VisibleBlank(s[1..]); }
  }

  lemma {:induction false} VisibleConcat(a: string, b: string)
    ensures Visible(a + b) == Visible(a) + Visible(b)
    decreases |a|
  {
    if a == [] {
      assert a + b == b;
    } else {
      assert (a + b)[1..] == a[1..] + b;
      VisibleConcat(a[1..], b);
    }
  }

  lemma VisibleAfterBlank(p: string, t: string)
    requires Blank(p)
    ensures Visible(p + t) == Visible(t)
  {
    VisibleConcat(p, t);
    VisibleBlank(p);
  }

  lemma CollapseSpaceStep(s: string, t: string, c: string)
    requires |t| <= |s| && t == s[|s| - |t|..] && Blank(s[..|s| - |t|]) && Visible(c) == Visible(t)
    ensures Visible(" " + c) == Visible(s)
  {
    VisibleAfterBlank(" ", c);
    VisibleAfterBlank(s[..|s| - |t|], t);
    assert s == s[..|s| - |t|] + t;
  }

  /** Trimming removes only white space. */
  lemma TrimKeepsVisible(s: string)
    ensures Visible(Trim(s)) == Visible(s)
  {
    TrimStartKeepsVisible(s);
    TrimEndKeepsVisible(TrimStart(s));
  }

  lemma {:induction false} TrimStartKeepsVisible(s: string)
    ensures Visible(TrimStart(s)) == Visible(s)
    decreases |s|
  {
    if s != [] && IsSpace(s[0]) {
      TrimStartKeepsVisible(s[1..]);
    }
  }

  lemma {:induction false} TrimEndKeepsVisible(s: string)
    ensures Visible(TrimEnd(s)) == Visible(s)
    decreases |s|
  {
    if s != [] && IsSpace(s[|s| - 1]) {
      var x, c := s[..|s| - 1], [s[|s| - 1]];
      TrimEndKeepsVisible(x);
      assert s == x + c;
      VisibleConcat(x, c);
      VisibleBlank(c);
    }
  }

  /** Collapsing white space changes nothing but white space. */
  lemma {:induction false} CollapseKeepsVisible(s: string)
    ensures Visible(CollapseSpaces(s)) == Visible(s)
    decreases |s|
  {
    if s == [] {
    } else if IsSpace(s[0]) {
      var t := TrimStart(s);
      CollapseKeepsVisible(t);
      CollapseSpaceStep(s, t, CollapseSpaces(t));
    } else {
      CollapseKeepsVisible(s[1..]);
      assert ([s[0]] + CollapseSpaces(s[1..]))[1..] == CollapseSpaces(s[1..]);
    }
  }

  /** `s.replace(/<[^>]*>/g, ' ')`: each `<` that has a later `>` starts a tag that runs to the first such `>`. */
  function StripTags(s: string): (r: string)
    ensures forall i, j | 0 <= i < j < |r| && r[i] == '<' :: r[j] != '>'
    ensures '>' !in s ==> r == s
    decreases |s|
  {
    if s == [] then []
    else if s[0] == '<' && '>' in s[1..] then
      var j := IndexOfChar(s[1..], '>');
      " " + StripTags(s[1..][j + 1..])
    else
      [s[0]] + StripTags(s[1..])
  }

  /** Text between tags is kept in place, and each tag becomes one space. */
  lemma StripTagsOf(a: string, t: string, b: string)
    requires '<' !in a && '>' !in t
    ensures StripTags(a + "<" + t + ">" + b) == a + " " + StripTags(b)
  {
    var u := "<" + t + ">" + b;
    assert a + "<" + t + ">" + b == a + u;
    StripTagsKeep(a, u);
    StripTagsTag(t, b);
  }

  /** A tag at the front becomes one space. */
  lemma StripTagsTag(t: string, b: string)
    requires '>' !in t
    ensures StripTags("<" + t + ">" + b) == " " + StripTags(b)
  {
    var u := "<" + t + ">" + b;
    var v := t + ">" + b;
    assert u[0] == '<' && u[1..] == v;
    assert v[|t|] == '>' && v[..|t|] == t;
    assert IndexOfChar(v, '>') == |t|;
    assert v[|t| + 1..] == b;
  }

  /** A text without `<` is kept as it is in front of whatever follows. */
  lemma {:induction false} StripTagsKeep(a: string, rest: string)
    requires '<' !in a
    ensures StripTags(a + rest) == a + StripTags(rest)
    decreases |a|
  {
    if a != [] {
      assert (a + rest)[0] == a[0];
      assert (a + rest)[1..] == a[1..] + rest;
      StripTagsKeep(a[1..], rest);
      assert a == [a[0]] + a[1..];
    } else {
      assert a + rest == rest;
    }
  }

  function IndexOfChar(s: string, c: char): (j: nat)
    requires c in s
    ensures j < |s| && s[j] == c && c !in s[..j]
    decreases |s|
  {
    if s[0] == c then 0 else 1 + IndexOfChar(s[1..], c)
  }

  function LowerChar(c: char): char {
    if 'A' <= c <= 'Z' then (c as int + 32) as char else c
  }

  /** `s.toLowerCase()` on the ASCII letters. */
  function ToLower(s: string): (r: string)
    ensures |r| == |s| && forall i | 0 <= i < |s| :: r[i] == LowerChar(s[i])
  {
    seq(|s|, i requires 0 <= i < |s| => LowerChar(s[i]))
  }

  function Digit(d: nat): char
    requires d < 10
  {
    "0123456789"[d]
  }

  /** Decimal rendering of a number in a template literal. */
  function NatToString(n: nat): (r: string)
    ensures |r| >= 1 && forall i | 0 <= i < |r| :: '0' <= r[i] <= '9'
    decreases n
  {
    if n < 10 then [Digit(n)] else NatToString(n / 10) + [Digit(n % 10)]
  }

  function IntToString(n: int): string {
    if n < 0 then "-" + NatToString(-n) else NatToString(n)
  }
}
