// The small part of Python's `str` API that the migrator relies on:
// case mapping, substring tests, prefix/suffix tests, `strip`, `split`,
// `replace` of one character, `join`, decimal rendering and `int()`; and
// two facts about sequences that the loops over lists use.
module Strs {
  import opened Wrappers

  // ------------------------------------------------------------- sequences

  lemma ConcatAssoc<T>(x: seq<T>, y: seq<T>, z: seq<T>)
    ensures x + y + z == x + (y + z)
  {
  }

  /** Extending a prefix by the next element. */
  lemma PrefixSnoc<T>(xs: seq<T>, i: nat, x: T)
    requires i < |xs| && xs[i] == x
    ensures xs[..i + 1] == xs[..i] + [x]
  {
  }

  // ---------------------------------------------------------------- case

  /** `str.lower` restricted to ASCII letters. */
  function LowerChar(c: char): char {
    if 'A' <= c <= 'Z' then (c as int + 32) as char else c
  }

  /** `str.upper` restricted to ASCII letters. */
  function UpperChar(c: char): char {
    if 'a' <= c <= 'z' then (c as int - 32) as char else c
  }

  function Lower(s: string): string {
    seq(|s|, i requires 0 <= i < |s| => LowerChar(s[i]))
  }

  function Upper(s: string): string {
    seq(|s|, i requires 0 <= i < |s| => UpperChar(s[i]))
  }

  lemma LowerIdempotent(s: string)
    ensures Lower(Lower(s)) == Lower(s)
  {
  }

  // ---------------------------------------------------------- substrings

  predicate StartsWith(s: string, p: string) {
    |p| <= |s| && s[..|p|] == p
  }

  predicate EndsWith(s: string, p: string) {
    |p| <= |s| && s[|s| - |p|..] == p
  }

  /** `sub in s` for strings. */
  predicate Contains(s: string, sub: string)
    decreases |s|
  {
    StartsWith(s, sub) || (|s| > 0 && Contains(s[1..], sub))
  }

  /** An occurrence of `sub` at position `i` makes `sub in s` true. */
  lemma {:induction false} ContainsAt(s: string, sub: string, i: nat)
    requires i + |sub| <= |s| && s[i..i + |sub|] == sub
    ensures Contains(s, sub)
    decreases i
  {
    if i == 0 {
      assert s[..|sub|] == sub;
    } else {
      assert s[1..][i - 1..i - 1 + |sub|] == s[i..i + |sub|];
      ContainsAt(s[1..], sub, i - 1);
    }
  }

  /** `sub in s` holds only through an actual occurrence. */
  lemma {:induction false} ContainsHasOccurrence(s: string, sub: string) returns (i: nat)
    requires Contains(s, sub)
    ensures i + |sub| <= |s| && s[i..i + |sub|] == sub
    decreases |s|
  {
    if StartsWith(s, sub) {
      i := 0;
    } else {
      var j := ContainsHasOccurrence(s[1..], sub);
      assert s[1..][j..j + |sub|] == s[j + 1..j + 1 + |sub|];
      i := j + 1;
    }
  }

  lemma {:induction false} ContainsEmpty(s: string)
    ensures Contains(s, "")
  {
    assert StartsWith(s, "");
  }

  /** A string contains each of its infixes. */
  lemma ContainsInfix(a: string, b: string, c: string)
    ensures Contains(a + b + c, b)
  {
    var s := a + b + c;
    assert s[|a|..|a| + |b|] == b;
    ContainsAt(s, b, |a|);
  }

  /** Every character of a contained string occurs in the containing one. */
  lemma ContainedChars(s: string, sub: string)
    ensures Contains(s, sub) ==> forall k :: 0 <= k < |sub| ==> sub[k] in s
  {
    if Contains(s, sub) {
      var i := ContainsHasOccurrence(s, sub);
      forall k | 0 <= k < |sub| ensures sub[k] in s {
        assert s[i + k] == s[i..i + |sub|][k];
      }
    }
  }

  /** A string lacking one of the characters of `sub` does not contain `sub`. */
  lemma MissingCharNotContained(s: string, sub: string, c: char)
    requires c in sub && c !in s
    ensures !Contains(s, sub)
  {
    ContainedChars(s, sub);
  }

  /** An occurrence of an occurrence is an occurrence. */
  lemma ContainsWithin(s: string, w: string, v: string)
    requires Contains(s, w) && Contains(w, v)
    ensures Contains(s, v)
  {
    var i := ContainsHasOccurrence(s, w);
    var j := ContainsHasOccurrence(w, v);
    assert s[i + j..i + j + |v|] == v by {
      forall k | 0 <= k < |v| ensures s[i + j + k] == v[k] {
        assert s[i..i + |w|][j + k] == w[j + k];
        assert w[j..j + |v|][k] == v[k];
      }
    }
    ContainsAt(s, v, i + j);
  }

  /** `c in s` for a character. */
  predicate HasChar(s: string, c: char) {
    c in s
  }

  /** `str.find` for one character; `|s|` when absent. */
  function IndexOf(s: string, c: char): (i: nat)
    ensures i <= |s|
  {
    if |s| == 0 then 0
    else if s[0] == c then 0
    else 1 + IndexOf(s[1..], c)
  }

  /** `find` gives the first position of `c`, and `|s|` exactly when `c` does not occur. */
  lemma {:induction false} IndexOfSpec(s: string, c: char)
    ensures var i := IndexOf(s, c);
      (i < |s| <==> c in s) && (i < |s| ==> s[i] == c) && forall k :: 0 <= k < i ==> s[k] != c
    decreases |s|
  {
    if |s| > 0 && s[0] != c {
      IndexOfSpec(s[1..], c);
      var j := IndexOf(s[1..], c);
      forall k | 0 < k < 1 + j ensures s[k] != c {
        assert s[k] == s[1..][k - 1];
      }
      if c in s {
        var k :| 0 <= k < |s| && s[k] == c;
        assert s[1..][k - 1] == c;
      }
    }
  }

  /** A position of `c` with none before it, or `|s|` when there is none at all, is what `find` gives. */
  lemma IndexOfAt(s: string, c: char, i: nat)
    requires i <= |s| && (i < |s| ==> s[i] == c) && forall k :: 0 <= k < i ==> s[k] != c
    ensures IndexOf(s, c) == i
  {
    IndexOfSpec(s, c);
  }

  // ---------------------------------------------------------------- strip

  /** The whitespace `str.strip()` and `int()` remove: the characters for which `str.isspace()` holds. */
  predicate IsSpace(c: char) {
    (9 <= c as int <= 13) || (28 <= c as int <= 32) || c as int == 0x85 || c as int == 0xA0
    || c as int == 0x1680 || (0x2000 <= c as int <= 0x200A) || c as int == 0x2028 || c as int == 0x2029
    || c as int == 0x202F || c as int == 0x205F || c as int == 0x3000
  }

  function StripLeft(s: string): (r: string)
    ensures |r| <= |s|
  {
    if |s| > 0 && IsSpace(s[0]) then StripLeft(s[1..]) else s
  }

  function StripRight(s: string): (r: string)
    ensures |r| <= |s|
  {
    if |s| > 0 && IsSpace(s[|s| - 1]) then StripRight(s[..|s| - 1]) else s
  }

  /** `lstrip` drops a run of whitespace from the front and stops at a non-space. */
  lemma {:induction false} StripLeftSpec(s: string)
    ensures var r := StripLeft(s);
      r == s[|s| - |r|..] && (|r| > 0 ==> !IsSpace(r[0])) && forall k :: 0 <= k < |s| - |r| ==> IsSpace(s[k])
    decreases |s|
  {
    if |s| > 0 && IsSpace(s[0]) {
      StripLeftSpec(s[1..]);
      var r := StripLeft(s[1..]);
      assert s[1..][|s| - 1 - |r|..] == s[|s| - |r|..];
      forall k | 1 <= k < |s| - |r| ensures IsSpace(s[k]) {
        assert s[k] == s[1..][k - 1];
      }
    }
  }

  /** `rstrip` drops a run of whitespace from the back and stops at a non-space. */
  lemma {:induction false} StripRightSpec(s: string)
    ensures var r := StripRight(s);
      r == s[..|r|] && (|r| > 0 ==> !IsSpace(r[|r| - 1])) && forall k :: |r| <= k < |s| ==> IsSpace(s[k])
    decreases |s|
  {
    if |s| > 0 && IsSpace(s[|s| - 1]) {
      StripRightSpec(s[..|s| - 1]);
      var r := StripRight(s[..|s| - 1]);
      assert s[..|s| - 1][..|r|] == s[..|r|];
      forall k | |r| <= k < |s| - 1 ensures IsSpace(s[k]) {
        assert s[k] == s[..|s| - 1][k];
      }
    }
  }

  /** `str.strip()`. */
  function Strip(s: string): string {
    StripRight(StripLeft(s))
  }

  /** Stripping removes only whitespace at the two ends and leaves none there. */
  lemma StripSpec(s: string) returns (lead: nat)
    ensures lead + |Strip(s)| <= |s| && Strip(s) == s[lead..lead + |Strip(s)|]
    ensures forall k :: 0 <= k < lead ==> IsSpace(s[k])
    ensures forall k :: lead + |Strip(s)| <= k < |s| ==> IsSpace(s[k])
    ensures |Strip(s)| > 0 ==> !IsSpace(Strip(s)[0]) && !IsSpace(Strip(s)[|Strip(s)| - 1])
  {
    var l := StripLeft(s);
    StripLeftSpec(s);
    lead := |s| - |l|;
    assert Strip(s) == StripRight(l);
    StripRightOf(s, lead, l);
    StripEnds(l);
  }

  /** Stripping the right of a string that starts with a non-space leaves a non-space at both ends. */
  lemma StripEnds(l: string)
    requires |l| > 0 ==> !IsSpace(l[0])
    ensures var r := StripRight(l); |r| > 0 ==> !IsSpace(r[0]) && !IsSpace(r[|r| - 1])
  {
    var r := StripRight(l);
    StripRightSpec(l);
    if |r| > 0 {
      assert r[0] == l[0];
    }
  }

  /** `StripRight` of the suffix from `lead` is a slice of `s` followed only by whitespace. */
  lemma StripRightOf(s: string, lead: nat, l: string)
    requires lead <= |s| && l == s[lead..]
    ensures var r := StripRight(l);
      lead + |r| <= |s| && r == s[lead..lead + |r|] && forall k :: lead + |r| <= k < |s| ==> IsSpace(s[k])
  {
    var r := StripRight(l);
    StripRightSpec(l);
    assert r == l[..|r|];
    forall k | lead + |r| <= k < |s| ensures IsSpace(s[k]) {
      assert s[k] == l[k - lead];
    }
  }

  // ---------------------------------------------------------------- split

  /** `sep.join(parts)`. */
  function Join(parts: seq<string>, sep: string): string {
    if |parts| == 0 then ""
    else if |parts| == 1 then parts[0]
    else parts[0] + sep + Join(parts[1..], sep)
  }

  /** A join of two or more parts is the first part, the separator, and the join of the rest. */
  lemma JoinCons(a: string, rest: seq<string>, sep: string)
    requires |rest| > 0
    ensures Join([a] + rest, sep) == a + sep + Join(rest, sep)
  {
    assert ([a] + rest)[1..] == rest;
  }

  /** The concatenation behind `JoinAfterHeader`, over the joins as plain strings. */
  lemma HeaderConcat(a: string, b: string, j: string, j0: string, j1: string, j2: string)
    requires j0 == "" + "\n" + j && j1 == b + "\n" + j0 && j2 == a + "\n" + j1
    ensures a + "\n" + b + "\n\n" + j == j2
  {
  }

  /** Two header lines, a blank line and the parts, joined by newlines; no parts leave a second blank line. */
  lemma JoinAfterHeader(a: string, b: string, parts: seq<string>)
    ensures |parts| > 0 ==> a + "\n" + b + "\n\n" + Join(parts, "\n") == Join([a, b, ""] + parts, "\n")
    ensures |parts| == 0 ==> a + "\n" + b + "\n\n" + Join(parts, "\n") == Join([a, b, "", ""], "\n")
  {
    if |parts| > 0 {
      HeaderJoin(a, b, parts);
    } else {
      HeaderJoin(a, b, [""]);
      assert [a, b, ""] + [""] == [a, b, "", ""];
    }
  }

  lemma HeaderJoin(a: string, b: string, tail: seq<string>)
    requires |tail| > 0
    ensures a + "\n" + b + "\n\n" + Join(tail, "\n") == Join([a, b, ""] + tail, "\n")
  {
    var r0 := [""] + tail;
    var r1 := [b] + r0;
    JoinCons("", tail, "\n");
    JoinCons(b, r0, "\n");
    JoinCons(a, r1, "\n");
    assert [a, b, ""] + tail == [a] + r1;
    HeaderConcat(a, b, Join(tail, "\n"), Join(r0, "\n"), Join(r1, "\n"), Join([a] + r1, "\n"));
  }

  /** A join starts with its first part. */
  lemma JoinStartsWithFirst(parts: seq<string>, sep: string)
    requires |parts| > 0
    ensures |Join(parts, sep)| >= |parts[0]| && Join(parts, sep)[..|parts[0]|] == parts[0]
  {
    if |parts| > 1 {
      assert Join(parts, sep) == parts[0] + (sep + Join(parts[1..], sep));
    }
  }

  /** Each part of a join occurs in it. */
  lemma {:induction false} JoinHasPart(parts: seq<string>, sep: string, k: nat)
    requires k < |parts|
    ensures Contains(Join(parts, sep), parts[k])
    decreases k
  {
    if k == 0 {
      JoinStartsWithFirst(parts, sep);
      ContainsAt(Join(parts, sep), parts[0], 0);
    } else {
      JoinHasPart(parts[1..], sep, k - 1);
      ContainsInfix(parts[0] + sep, Join(parts[1..], sep), "");
      assert parts[0] + sep + Join(parts[1..], sep) + "" == Join(parts, sep);
      ContainsWithin(Join(parts, sep), Join(parts[1..], sep), parts[k]);
    }
  }
  /** A string that contains a join contains each of its parts. */
  lemma JoinPartsWithin(s: string, parts: seq<string>, sep: string)
    requires Contains(s, Join(parts, sep))
    ensures forall k :: 0 <= k < |parts| ==> Contains(s, parts[k])
  {
    forall k | 0 <= k < |parts| ensures Contains(s, parts[k]) {
      JoinHasPart(parts, sep, k);
      ContainsWithin(s, Join(parts, sep), parts[k]);
    }
  }


  /** `s.split(c)` for a one-character separator. */
  function Split(s: string, c: char): (r: seq<string>)
    ensures |r| >= 1
    decreases |s|
  {
    var i := IndexOf(s, c);
    if i == |s| then [s] else [s[..i]] + Split(s[i + 1..], c)
  }

  /** No piece of a split holds the separator. */
  lemma {:induction false} SplitPiecesFree(s: string, c: char)
    ensures forall k :: 0 <= k < |Split(s, c)| ==> c !in Split(s, c)[k]
    decreases |s|
  {
    var i := IndexOf(s, c);
    IndexOfSpec(s, c);
    if i < |s| {
      SplitPiecesFree(s[i + 1..], c);
      assert c !in s[..i];
      var r := Split(s[i + 1..], c);
      assert Split(s, c) == [s[..i]] + r;
      forall k | 0 < k < |Split(s, c)| ensures c !in Split(s, c)[k] {
        assert Split(s, c)[k] == r[k - 1];
      }
    }
  }

  /** Splitting and joining again with the same separator gives back the string. */
  lemma {:induction false} JoinSplit(s: string, c: char)
    ensures Join(Split(s, c), [c]) == s
    decreases |s|
  {
    var i := IndexOf(s, c);
    IndexOfSpec(s, c);
    if i < |s| {
      var rest := Split(s[i + 1..], c);
      JoinSplit(s[i + 1..], c);
      JoinCons(s[..i], rest, [c]);
      assert s == s[..i] + [c] + s[i + 1..];
    }
  }

  /** Splitting `a + [c] + b`, where `a` has no `c`, gives `a` and then the pieces of `b`. */
  lemma SplitCons(a: string, c: char, b: string)
    requires c !in a
    ensures Split(a + [c] + b, c) == [a] + Split(b, c)
  {
    var s := a + [c] + b;
    assert s[|a|] == c;
    assert forall k :: 0 <= k < |a| ==> s[k] == a[k];
    IndexOfAt(s, c, |a|);
    assert s[..|a|] == a && s[|a| + 1..] == b;
  }

  /** Joining pieces free of the separator and splitting again gives back the pieces. */
  lemma {:induction false} SplitJoin(parts: seq<string>, c: char)
    requires |parts| >= 1
    requires forall k :: 0 <= k < |parts| ==> c !in parts[k]
    ensures Split(Join(parts, [c]), c) == parts
    decreases |parts|
  {
    if |parts| == 1 {
      IndexOfAt(parts[0], c, |parts[0]|);
    } else {
      var rest := parts[1..];
      assert [parts[0]] + rest == parts;
      JoinCons(parts[0], rest, [c]);
      assert c !in parts[0];
      SplitCons(parts[0], c, Join(rest, [c]));
      assert forall k :: 0 <= k < |rest| ==> rest[k] == parts[k + 1];
      SplitJoin(rest, c);
    }
  }

  /** The last piece of a split is what follows the last separator. */
  lemma {:induction false} SplitLast(p: string, c: char, seg: string)
    requires c !in seg
    ensures var r := Split(p + [c] + seg, c); r[|r| - 1] == seg
    decreases |p|
  {
    if c !in p {
      SplitLastBase(p, c, seg);
    } else {
      var front, back := SplitAtFirst(p, c);
      SplitLast(back, c, seg);
      SplitLastStep(front, back, seg, c);
      Regroup(front, back, seg, c);
    }
  }

  /** A string holding `c` is the part before its first `c`, the `c`, and the rest. */
  lemma SplitAtFirst(p: string, c: char) returns (front: string, back: string)
    requires c in p
    ensures p == front + [c] + back && c !in front && |back| < |p|
  {
    var i := IndexOf(p, c);
    IndexOfSpec(p, c);
    front, back := p[..i], p[i + 1..];
    assert p == front + [c] + back;
  }

  lemma SplitLastBase(p: string, c: char, seg: string)
    requires c !in p && c !in seg
    ensures var r := Split(p + [c] + seg, c); r[|r| - 1] == seg
  {
    SplitCons(p, c, seg);
    IndexOfAt(seg, c, |seg|);
  }

  lemma SplitLastStep(front: string, back: string, seg: string, c: char)
    requires c !in front
    requires var r := Split(back + [c] + seg, c); r[|r| - 1] == seg
    ensures var r := Split(front + [c] + (back + [c] + seg), c); r[|r| - 1] == seg
  {
    SplitCons(front, c, back + [c] + seg);
  }

  lemma Regroup(front: string, back: string, seg: string, c: char)
    ensures front + [c] + back + [c] + seg == front + [c] + (back + [c] + seg)
  {
  }

  /** `s.split(c, 1)` when `c in s`: the parts before and after the first `c`. */
  function SplitFirst(s: string, c: char): (r: (string, string))
    requires c in s
    ensures r.0 + [c] + r.1 == s
    ensures c !in r.0
  {
    var i := IndexOf(s, c);
    IndexOfSpec(s, c);
    assert s == s[..i] + [c] + s[i + 1..];
    (s[..i], s[i + 1..])
  }

  /** Splitting at the first `c` of `a + [c] + b`, where `a` has no `c`, gives back `a` and `b`. */
  lemma SplitFirstOf(a: string, c: char, b: string)
    requires c !in a
    ensures c in a + [c] + b
    ensures SplitFirst(a + [c] + b, c) == (a, b)
  {
    var s := a + [c] + b;
    assert s[|a|] == c;
    assert forall k :: 0 <= k < |a| ==> s[k] == a[k];
    IndexOfAt(s, c, |a|);
    assert s[..|a|] == a && s[|a| + 1..] == b;
  }

  /** `s.replace(a, b)` for single characters. */
  function ReplaceChar(s: string, a: char, b: char): string {
    seq(|s|, i requires 0 <= i < |s| => if s[i] == a then b else s[i])
  }

  // -------------------------------------------------------------- decimals

  function DigitChar(d: nat): char
    requires d < 10
  {
    ('0' as int + d) as char
  }

  predicate IsDigit(c: char) {
    '0' <= c <= '9'
  }

  /** `str(n)` for a natural number. */
  function NatToString(n: nat): (r: string)
    ensures |r| >= 1
    ensures forall k :: 0 <= k < |r| ==> IsDigit(r[k])
  {
    if n < 10 then [DigitChar(n)] else NatToString(n / 10) + [DigitChar(n % 10)]
  }

  function Zeros(k: nat): (r: string)
    ensures |r| == k
    ensures forall i :: 0 <= i < k ==> r[i] == '0'
  {
    if k == 0 then "" else "0" + Zeros(k - 1)
  }

  /** Python's `f"{n:04d}"`: at least four digits, padded with zeros. */
  function ZeroPad4(n: nat): (r: string)
    ensures |r| >= 4
    ensures forall k :: 0 <= k < |r| ==> IsDigit(r[k])
  {
    var d := NatToString(n);
    if |d| < 4 then Zeros(4 - |d|) + d else d
  }

  /** The value of a string of decimal digits (leading zeros allowed). */
  function DecimalValue(s: string): nat
    requires forall k :: 0 <= k < |s| ==> IsDigit(s[k])
  {
    if |s| == 0 then 0
    else
      assert IsDigit(s[|s| - 1]);
      10 * DecimalValue(s[..|s| - 1]) + (s[|s| - 1] as int - '0' as int)
  }

  lemma {:induction false} DecimalOfNatToString(n: nat)
    ensures DecimalValue(NatToString(n)) == n
  {
    if n >= 10 {
      DecimalOfNatToString(n / 10);
      var s := NatToString(n);
      assert s[..|s| - 1] == NatToString(n / 10);
    }
  }

  lemma {:induction false} DecimalIgnoresLeadingZeros(k: nat, d: string)
    requires forall i :: 0 <= i < |d| ==> IsDigit(d[i])
    ensures DecimalValue(Zeros(k) + d) == DecimalValue(d)
    decreases |d|
  {
    if |d| == 0 {
      assert Zeros(k) + d == Zeros(k);
      DecimalOfZeros(k);
    } else {
      var s := Zeros(k) + d;
      assert s[..|s| - 1] == Zeros(k) + d[..|d| - 1];
      DecimalIgnoresLeadingZeros(k, d[..|d| - 1]);
    }
  }

  lemma {:induction false} DecimalOfZeros(k: nat)
    ensures DecimalValue(Zeros(k)) == 0
  {
    if k > 0 {
      var z := Zeros(k);
      assert z[..k - 1] == Zeros(k - 1);
      DecimalOfZeros(k - 1);
    }
  }

  /** The padded rendering reads back as the number it renders. */
  lemma ZeroPad4Value(n: nat)
    ensures DecimalValue(ZeroPad4(n)) == n
  {
    var d := NatToString(n);
    DecimalOfNatToString(n);
    if |d| < 4 {
      DecimalIgnoresLeadingZeros(4 - |d|, d);
    }
  }

  /** So different numbers never render alike. */
  lemma ZeroPad4Injective(a: nat, b: nat)
    requires ZeroPad4(a) == ZeroPad4(b)
    ensures a == b
  {
    ZeroPad4Value(a);
    ZeroPad4Value(b);
  }

  // ------------------------------------------------------------------ int()

  /** The digit run of `int()` after the sign has been taken off. */
  predicate AllDigits(s: string) {
    forall k :: 0 <= k < |s| ==> IsDigit(s[k])
  }

  /**
   * The digit run `int()` accepts after the sign (PEP 515): decimal digits,
   * with single underscores allowed between two digits.
   */
  predicate DigitGroups(s: string) {
    |s| > 0 && IsDigit(s[0]) && IsDigit(s[|s| - 1])
    && (forall k :: 0 <= k < |s| ==> IsDigit(s[k]) || s[k] == '_')
    && (forall k :: 0 < k < |s| ==> SingleUnderscoreAt(s, k))
  }

  /** An underscore at `k` does not follow another one. */
  predicate SingleUnderscoreAt(s: string, k: nat)
    requires 0 < k < |s|
  {
    s[k] == '_' ==> s[k - 1] != '_'
  }

  /** The digits of a run, underscores removed. */
  function DropUnderscores(s: string): (r: string)
    ensures (forall k :: 0 <= k < |s| ==> IsDigit(s[k]) || s[k] == '_') ==> AllDigits(r)
  {
    if |s| == 0 then []
    else DropUnderscores(s[..|s| - 1]) + (if s[|s| - 1] == '_' then [] else [s[|s| - 1]])
  }

  /** A run without underscores is kept as it is. */
  lemma {:induction false} DropNoUnderscores(s: string)
    requires AllDigits(s)
    ensures DropUnderscores(s) == s
  {
    if |s| > 0 {
      DropNoUnderscores(s[..|s| - 1]);
    }
  }

  /** The value of a digit run, its underscores ignored. */
  function GroupsValue(s: string): nat
    requires DigitGroups(s)
  {
    DecimalValue(DropUnderscores(s))
  }

  /**
   * Python's `int(s)`: surrounding whitespace, one optional sign and a run of
   * ASCII decimal digits, single underscores allowed between digits;
   * anything else raises ValueError, modelled as None.
   */
  function ParseInt(s: string): (r: Option<int>)
    ensures r.Some? <==> IntText(Strip(s))
  {
    ParseSigned(Strip(s))
  }

  /** A stripped text `int()` accepts: one optional sign, then a digit run. */
  predicate IntText(t: string) {
    |t| > 0 && (if t[0] == '+' || t[0] == '-' then DigitGroups(t[1..]) else DigitGroups(t))
  }

  /** `int()` of an already stripped text. */
  function ParseSigned(t: string): (r: Option<int>)
    ensures r.Some? <==> IntText(t)
  {
    if |t| == 0 then None
    else if t[0] == '+' || t[0] == '-' then
      if DigitGroups(t[1..]) then
        Some(if t[0] == '-' then -(GroupsValue(t[1..]) as int) else GroupsValue(t[1..]) as int)
      else None
    else if DigitGroups(t) then Some(GroupsValue(t) as int)
    else None
  }

  /** A text with no whitespace at either end is left alone by `strip()`. */
  lemma StripUnchanged(s: string)
    requires |s| > 0 ==> !IsSpace(s[0]) && !IsSpace(s[|s| - 1])
    ensures Strip(s) == s
  {
    assert StripLeft(s) == s;
  }

  /** An unsigned digit run reads as its value. */
  lemma ParseIntGroups(d: string)
    requires DigitGroups(d)
    ensures ParseInt(d) == Some(GroupsValue(d) as int)
  {
    assert !IsSpace(d[0]) && !IsSpace(d[|d| - 1]);
    StripUnchanged(d);
  }

  /** A digit run after a minus sign reads as the negated value. */
  lemma ParseIntNegated(d: string)
    requires DigitGroups(d)
    ensures ParseInt("-" + d) == Some(-(GroupsValue(d) as int))
  {
    var m := "-" + d;
    assert !IsSpace(m[0]) && !IsSpace(m[|m| - 1]);
    StripUnchanged(m);
    NegatedGroups(d);
  }

  lemma NegatedGroups(d: string)
    requires DigitGroups(d)
    ensures ParseSigned("-" + d) == Some(-(GroupsValue(d) as int))
  {
    assert ("-" + d)[1..] == d;
  }

  /** A run of digits is a run `int()` accepts, worth its decimal value. */
  lemma DigitsAreGroups(d: string)
    requires |d| > 0 && AllDigits(d)
    ensures DigitGroups(d) && GroupsValue(d) == DecimalValue(d)
  {
    DropNoUnderscores(d);
  }

  /** `int(str(i)) == i`. */
  lemma ParseIntOfIntToString(i: int)
    ensures ParseInt(IntToString(i)) == Some(i)
  {
    if i < 0 {
      var d := NatToString(-i);
      assert IntToString(i) == "-" + d;
      DecimalOfNatToString(-i);
      DigitsAreGroups(d);
      ParseIntNegated(d);
    } else {
      ParseIntOfNatToString(i);
    }
  }

  /** `str(n)` for an integer. */
  function IntToString(i: int): string {
    if i < 0 then "-" + NatToString(-i) else NatToString(i)
  }

  /** Underscores between digits are accepted and ignored; a doubled, leading or trailing one is refused. */
  lemma ParseIntUnderscores()
    ensures ParseInt("1_000") == Some(1000)
    ensures ParseInt("1__0").None? && ParseInt("_1").None? && ParseInt("1_").None?
  {
    OneThousandGroups();
    ParseIntGroups("1_000");
    StripUnchanged("1__0");
    assert !SingleUnderscoreAt("1__0", 2);
    StripUnchanged("_1");
    StripUnchanged("1_");
  }

  lemma OneThousandGroups()
    ensures DigitGroups("1_000") && GroupsValue("1_000") == 1000
  {
    assert DigitGroups("1_000");
    OneThousandDigits();
    assert DecimalValue("1000") == 1000 by {
      assert "1000"[..3] == "100" && "100"[..2] == "10" && "10"[..1] == "1" && "1"[..0] == "";
    }
  }

  lemma OneThousandDigits()
    ensures DropUnderscores("1_000") == "1000"
  {
    assert "1_000" == "1_" + "000";
    DropAppend("1_", "000");
    assert "1_"[..1] == "1" && "1"[..0] == "";
    assert DropUnderscores("1_") == "1";
    DropNoUnderscores("000");
    assert "1" + "000" == "1000";
  }

  /** Underscores are dropped piece by piece. */
  lemma {:induction false} DropAppend(a: string, b: string)
    ensures DropUnderscores(a + b) == DropUnderscores(a) + DropUnderscores(b)
    decreases |b|
  {
    if |b| > 0 {
      var b' := b[..|b| - 1];
      assert (a + b)[..|a + b| - 1] == a + b';
      DropAppend(a, b');
    } else {
      assert a + b == a;
    }
  }

  lemma ParseIntOfNatToString(n: nat)
    ensures ParseInt(NatToString(n)) == Some(n)
  {
    DecimalOfNatToString(n);
    DigitsAreGroups(NatToString(n));
    ParseIntGroups(NatToString(n));
  }
}
