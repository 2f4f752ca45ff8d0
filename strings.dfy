/**
  The string primitives the proxy's Go code (package strings) and the usage script's
  Python code (str methods) rely on, defined over `seq<char>` with their properties.
  Whitespace is ASCII whitespace plus U+0085 and U+00A0; case mapping is ASCII only.
*/
module Strings {

  /** strings.TrimSpace / str.strip treat these characters as whitespace. */
  predicate IsSpace(c: char) {
    c == ' ' || c == '\t' || c == '\n' || c == '\r' || c == '\U{B}' || c == '\U{C}'
    || c == '\U{85}' || c == '\U{A0}'
  }

  /** A string made only of whitespace (the empty string included). */
  predicate IsBlank(s: string) {
    forall i :: 0 <= i < |s| ==> IsSpace(s[i])
  }

  /** strings.TrimLeft with the whitespace set, str.lstrip(). */
  function TrimLeft(s: string): (r: string)
    ensures |r| <= |s|
  {
    if s != [] && IsSpace(s[0]) then TrimLeft(s[1..]) else s
  }

  /** TrimLeft removes a blank prefix and leaves a string that does not start with a space. */
  lemma {:induction false} TrimLeftShape(s: string)
    ensures var r := TrimLeft(s);
      r == s[|s| - |r|..] && (r != [] ==> !IsSpace(r[0])) && IsBlank(s[..|s| - |r|])
    decreases |s|
  {
    if s != [] && IsSpace(s[0]) {
      TrimLeftShape(s[1..]);
      var r := TrimLeft(s);
      assert s[..|s| - |r|] == [s[0]] + s[1..][..|s| - 1 - |r|];
    }
  }

  /** strings.TrimRight with the whitespace set, str.rstrip(). */
  function TrimRight(s: string): (r: string)
    ensures |r| <= |s|
  {
    if s != [] && IsSpace(s[|s| - 1]) then TrimRight(s[..|s| - 1]) else s
  }

  /** TrimRight removes a blank suffix and leaves a string that does not end with a space. */
  lemma {:induction false} TrimRightShape(s: string)
    ensures var r := TrimRight(s);
      r == s[..|r|] && (r != [] ==> !IsSpace(r[|r| - 1])) && IsBlank(s[|r|..])
    decreases |s|
  {
    if s != [] && IsSpace(s[|s| - 1]) {
      TrimRightShape(s[..|s| - 1]);
      var r := TrimRight(s);
      assert s[|r|..] == s[..|s| - 1][|r|..] + [s[|s| - 1]];
    }
  }

  /** strings.TrimSpace (Go) and str.strip() (Python): drop leading and trailing whitespace. */
  function TrimSpace(s: string): (r: string)
    ensures |r| <= |s|
    ensures r != [] ==> !IsSpace(r[0]) && !IsSpace(r[|r| - 1])
    ensures r == [] <==> IsBlank(s)
  {
    var l := TrimLeft(s);
    var r := TrimRight(l);
    TrimLeftShape(s);
    TrimRightShape(l);
    assert IsBlank(s) ==> l == [] by {
      if l != [] { assert l[0] == s[|s| - |l|]; }
    }
    r
  }

  /** Trimming a string that has no outer whitespace changes nothing. */
  lemma TrimSpaceOfTrimmed(s: string)
    requires s == [] || (!IsSpace(s[0]) && !IsSpace(s[|s| - 1]))
    ensures TrimSpace(s) == s
  {
  }

  lemma {:induction false} TrimSpaceIdempotent(s: string)
    ensures TrimSpace(TrimSpace(s)) == TrimSpace(s)
  {
    TrimSpaceOfTrimmed(TrimSpace(s));
  }

  function LowerChar(c: char): (d: char)
  {
    if 'A' <= c <= 'Z' then (c as int + 32) as char else c
  }

  /** strings.ToLower / str.lower(), restricted to ASCII letters. */
  function ToLower(s: string): (r: string)
    ensures |r| == |s|
    ensures forall i :: 0 <= i < |s| ==> r[i] == LowerChar(s[i])
  {
    seq(|s|, i requires 0 <= i < |s| => LowerChar(s[i]))
  }

  lemma ToLowerIdempotent(s: string)
    ensures ToLower(ToLower(s)) == ToLower(s)
  {
  }

  lemma ToLowerOfConcat(a: string, b: string)
    ensures ToLower(a + b) == ToLower(a) + ToLower(b)
  {
  }

  /** Lowering and trimming commute: lowering never creates or removes whitespace. */
  lemma {:induction false} LowerTrimCommute(s: string)
    ensures ToLower(TrimSpace(s)) == TrimSpace(ToLower(s))
  {
    LowerTrimLeft(s);
    LowerTrimRight(TrimLeft(s));
  }

  lemma LowerCharKeepsSpace(c: char)
    ensures IsSpace(LowerChar(c)) <==> IsSpace(c)
  {
  }

  lemma {:induction false} LowerTrimLeft(s: string)
    ensures ToLower(TrimLeft(s)) == TrimLeft(ToLower(s))
    decreases |s|
  {
    if s != [] {
      var t := ToLower(s);
      LowerCharKeepsSpace(s[0]);
      assert t[0] == LowerChar(s[0]);
      if IsSpace(s[0]) {
        assert t[1..] == ToLower(s[1..]);
        LowerTrimLeft(s[1..]);
      }
    }
  }

  lemma {:induction false} LowerTrimRight(s: string)
    ensures ToLower(TrimRight(s)) == TrimRight(ToLower(s))
    decreases |s|
  {
    if s != [] {
      var t := ToLower(s);
      LowerCharKeepsSpace(s[|s| - 1]);
      assert t[|s| - 1] == LowerChar(s[|s| - 1]);
      if IsSpace(s[|s| - 1]) {
        assert t[..|s| - 1] == ToLower(s[..|s| - 1]);
        LowerTrimRight(s[..|s| - 1]);
      }
    }
  }

  predicate HasPrefix(s: string, p: string) {
    |p| <= |s| && s[..|p|] == p
  }

  predicate HasSuffix(s: string, x: string) {
    |x| <= |s| && s[|s| - |x|..] == x
  }

  /** strings.TrimSuffix: remove one trailing occurrence of x, if any. */
  function TrimSuffix(s: string, x: string): (r: string)
    ensures HasSuffix(s, x) ==> r + x == s
    ensures !HasSuffix(s, x) ==> r == s
  {
    if HasSuffix(s, x) then s[..|s| - |x|] else s
  }

  /** True when sub occurs in s starting at position k. */
  predicate OccursAt(s: string, sub: string, k: int) {
    0 <= k && k + |sub| <= |s| && s[k..k + |sub|] == sub
  }

  /** strings.Index: the position of the leftmost occurrence of sub in s, or -1. */
  function Index(s: string, sub: string): (r: int)
    ensures -1 <= r <= |s|
    ensures r >= 0 ==> OccursAt(s, sub, r)
    ensures r >= 0 ==> forall k :: 0 <= k < r ==> !OccursAt(s, sub, k)
    ensures r < 0 ==> forall k :: !OccursAt(s, sub, k)
    decreases |s|
  {
    if HasPrefix(s, sub) then 0
    else if s == [] then -1
    else
      var r := Index(s[1..], sub);
      assert forall k :: 1 <= k ==> (OccursAt(s, sub, k) <==> OccursAt(s[1..], sub, k - 1)) by {
        forall k | 1 <= k ensures OccursAt(s, sub, k) <==> OccursAt(s[1..], sub, k - 1) {
          if k + |sub| <= |s| {
            var a, b := s[k..k + |sub|], s[1..][k - 1..k - 1 + |sub|];
            assert a == b by {
              forall t | 0 <= t < |sub| ensures a[t] == b[t] { }
            }
          }
        }
      }
      if r < 0 then -1 else r + 1
  }

  /** strings.Contains / Python's `in` on strings. */
  predicate Contains(s: string, sub: string) {
    Index(s, sub) >= 0
  }

  lemma ContainsWhenOccurs(s: string, sub: string, k: int)
    requires OccursAt(s, sub, k)
    ensures Contains(s, sub)
  {
  }

  /** The parts of a Split joined back with the separator. */
  function Join(parts: seq<string>, c: char): string
    requires |parts| >= 1
  {
    if |parts| == 1 then parts[0] else parts[0] + [c] + Join(parts[1..], c)
  }

  /** strings.Split(s, sep) / str.split(sep) for a one-character separator. */
  function Split(s: string, c: char): (parts: seq<string>)
    ensures |parts| >= 1
    ensures forall i :: 0 <= i < |parts| ==> c !in parts[i]
    ensures |parts| == 1 <==> c !in s
  {
    if s == [] then [[]]
    else
      var rest := Split(s[1..], c);
      assert s == [s[0]] + s[1..];
      if s[0] == c then [[]] + rest
      else [[s[0]] + rest[0]] + rest[1..]
  }

  /** Joining the parts of a Split with the separator gives back the string. */
  lemma {:induction false} SplitJoin(s: string, c: char)
    ensures Join(Split(s, c), c) == s
  {
    if s != [] {
      var rest := Split(s[1..], c);
      SplitJoin(s[1..], c);
      assert s == [s[0]] + s[1..];
      if s[0] != c {
        var parts := [[s[0]] + rest[0]] + rest[1..];
        assert parts[1..] == rest[1..];
      }
    }
  }

  /** str.rstrip(c): drop every trailing c. */
  function RStrip(s: string, c: char): (r: string)
    ensures |r| <= |s| && r == s[..|r|]
    ensures r != [] ==> r[|r| - 1] != c
    ensures forall i :: |r| <= i < |s| ==> s[i] == c
  {
    if s != [] && s[|s| - 1] == c then RStrip(s[..|s| - 1], c) else s
  }

  /** Byte-wise / code-point-wise ordering of strings (Go `<`, SQLite BINARY, Python sorted). */
  predicate StrLess(a: string, b: string) {
    if a == [] then b != []
    else if b == [] then false
    else if a[0] != b[0] then a[0] < b[0]
    else StrLess(a[1..], b[1..])
  }

  predicate StrLe(a: string, b: string) {
    a == b || StrLess(a, b)
  }

  lemma {:induction false} StrLessIrreflexive(a: string)
    ensures !StrLess(a, a)
  {
    if a != [] { StrLessIrreflexive(a[1..]); }
  }

  lemma {:induction false} StrLessAsymmetric(a: string, b: string)
    ensures !(StrLess(a, b) && StrLess(b, a))
  {
    if a != [] && b != [] && a[0] == b[0] { StrLessAsymmetric(a[1..], b[1..]); }
  }

  lemma {:induction false} StrLessTotal(a: string, b: string)
    ensures a == b || StrLess(a, b) || StrLess(b, a)
  {
    if a != [] && b != [] && a[0] == b[0] {
      StrLessTotal(a[1..], b[1..]);
      if a[1..] == b[1..] { assert a == [a[0]] + a[1..]; assert b == [b[0]] + b[1..]; }
    }
  }

  lemma {:induction false} StrLessTransitive(a: string, b: string, c: string)
    requires StrLess(a, b) && StrLess(b, c)
    ensures StrLess(a, c)
  {
    if a != [] && b != [] && c != [] && a[0] == b[0] && b[0] == c[0] {
      StrLessTransitive(a[1..], b[1..], c[1..]);
    }
  }

  lemma StrLeTransitive(a: string, b: string, c: string)
    requires StrLe(a, b) && StrLe(b, c)
    ensures StrLe(a, c)
  {
    if a != b && b != c { StrLessTransitive(a, b, c); }
  }

  /** s is ordered by key, ascending. */
  ghost predicate SortedBy<T>(s: seq<T>, key: T -> string) {
    forall i, j :: 0 <= i < j < |s| ==> StrLe(key(s[i]), key(s[j]))
  }

  /** Putting y in front of a sorted sequence whose keys are all at least y's keeps it sorted. */
  lemma SortedCons<T>(y: T, t: seq<T>, key: T -> string)
    requires SortedBy(t, key)
    requires forall j :: 0 <= j < |t| ==> StrLe(key(y), key(t[j]))
    ensures SortedBy([y] + t, key)
  {
    var r := [y] + t;
    forall i, j | 0 <= i < j < |r| ensures StrLe(key(r[i]), key(r[j])) {
      if i > 0 { assert r[i] == t[i - 1] && r[j] == t[j - 1]; }
      else { assert r[j] == t[j - 1]; }
    }
  }

  /** A lower bound on the keys of u and x bounds the keys of any arrangement of u plus x. */
  lemma LowerBoundOfArrangement<T>(y: T, x: T, u: seq<T>, t: seq<T>, key: T -> string)
    requires multiset(t) == multiset(u) + multiset{x}
    requires StrLe(key(y), key(x))
    requires forall m :: 0 <= m < |u| ==> StrLe(key(y), key(u[m]))
    ensures forall j :: 0 <= j < |t| ==> StrLe(key(y), key(t[j]))
  {
    forall j | 0 <= j < |t| ensures StrLe(key(y), key(t[j])) {
      assert t[j] in multiset(t);
      if t[j] != x {
        assert t[j] in multiset(u);
        var m :| 0 <= m < |u| && u[m] == t[j];
      }
    }
  }

  function InsertBy<T>(x: T, s: seq<T>, key: T -> string): (r: seq<T>)
    requires SortedBy(s, key)
    ensures multiset(r) == multiset(s) + multiset{x}
    ensures SortedBy(r, key)
  {
    if s == [] then [x]
    else if StrLe(key(x), key(s[0])) then
      assert forall j :: 0 <= j < |s| ==> StrLe(key(x), key(s[j])) by {
        forall j | 0 < j < |s| ensures StrLe(key(x), key(s[j])) {
          StrLeTransitive(key(x), key(s[0]), key(s[j]));
        }
      }
      SortedCons(x, s, key);
      [x] + s
    else
      StrLessTotal(key(x), key(s[0]));
      assert s == [s[0]] + s[1..];
      var t := InsertBy(x, s[1..], key);
      LowerBoundOfArrangement(s[0], x, s[1..], t, key);
      SortedCons(s[0], t, key);
      [s[0]] + t
  }

  /** An insertion sort by a string key; it stands for sort.Slice, ORDER BY and sorted(). */
  function SortBy<T>(s: seq<T>, key: T -> string): (r: seq<T>)
    ensures multiset(r) == multiset(s)
    ensures SortedBy(r, key)
  {
    if s == [] then []
    else
      assert s == [s[0]] + s[1..];
      InsertBy(s[0], SortBy(s[1..], key), key)
  }

  function NatToString(n: nat): (r: string)
    ensures r != []
  {
    var d := ['0', '1', '2', '3', '4', '5', '6', '7', '8', '9'][n % 10];
    if n < 10 then [d] else NatToString(n / 10) + [d]
  }

  /** The decimal text of an integer (Python str(int), Go strconv.Itoa). */
  function IntToString(n: int): (r: string)
    ensures r != []
  {
    if n < 0 then "-" + NatToString(-n) else NatToString(n)
  }

  lemma TrimSpaceIsTrimBoth(x: string)
    ensures TrimSpace(x) == TrimRight(TrimLeft(x))
  {
  }

  lemma TrimRightOfConcat(a: string, t: string)
    requires t != [] && !IsSpace(t[|t| - 1])
    ensures TrimRight(a + t) == a + t
  {
    LastOfConcat(a, t);
    TrimRightOfNonSpaceEnd(a + t);
  }

  lemma TrimRightOfNonSpaceEnd(x: string)
    requires x != [] && !IsSpace(x[|x| - 1])
    ensures TrimRight(x) == x
  {
  }

  lemma LastOfConcat(a: string, t: string)
    requires t != []
    ensures (a + t)[|a + t| - 1] == t[|t| - 1]
  {
  }

  /** Left-trimming s + t, where t starts with a non-space, only trims s. */
  lemma {:induction false} TrimLeftOfConcat(s: string, t: string)
    requires t != [] && !IsSpace(t[0])
    ensures TrimLeft(s + t) == TrimLeft(s) + t
    decreases |s|
  {
    if s != [] {
      assert (s + t)[0] == s[0];
      if IsSpace(s[0]) {
        assert (s + t)[1..] == s[1..] + t;
        TrimLeftOfConcat(s[1..], t);
      }
    }
  }

  /** Trimming s + t, where t has no outer whitespace, trims s on the left only. */
  lemma TrimSpaceOfConcat(s: string, t: string)
    requires t != [] && !IsSpace(t[0]) && !IsSpace(t[|t| - 1])
    ensures TrimSpace(s + t) == TrimLeft(s) + t
  {
    TrimLeftOfConcat(s, t);
    TrimRightOfConcat(TrimLeft(s), t);
    TrimSpaceIsTrimBoth(s + t);
  }

  /** Trimming keeps a prefix that starts and ends with a non-space. */
  lemma TrimSpaceKeepsPrefix(s: string, f: string)
    requires HasPrefix(s, f) && f != [] && !IsSpace(f[0]) && !IsSpace(f[|f| - 1])
    ensures HasPrefix(TrimSpace(s), f)
  {
    assert TrimLeft(s) == s;
    var r := TrimRight(s);
    TrimRightShape(s);
    assert r[..|f|] == s[..|f|];
  }

  lemma LowerKeepsPrefix(u: string, f: string)
    requires HasPrefix(u, f) && ToLower(f) == f
    ensures HasPrefix(ToLower(u), f)
  {
    assert ToLower(u)[..|f|] == ToLower(u[..|f|]);
  }

  lemma PrefixOfConcat(a: string, b: string)
    ensures HasPrefix(a + b, a)
  {
  }

  lemma PrefixOfLonger(s: string, f: string, t: string)
    requires HasPrefix(s, f)
    ensures HasPrefix(s + t, f)
  {
    assert (s + t)[..|f|] == s[..|f|];
  }

  /** Cutting a prefix of length a and then a suffix of length b, in either order. */
  lemma CutBothEnds(v: string, a: nat, b: nat)
    requires a + b <= |v|
    ensures var v1 := v[a..];
      |v1| - b >= 0 && v1[..|v1| - b] == v[a..|v| - b] && v1[|v1| - b..] == v[|v| - b..]
  {
  }
}
