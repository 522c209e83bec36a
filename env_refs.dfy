// Environment-variable references inside configuration values, found the
// way `re.findall` does it for the three patterns `\$\(NAME\)`, `%NAME%`
// and `@\[User::NAME\]`, NAME being `[A-Za-z_][A-Za-z0-9_]*`: scanning left
// to right, trying a match at each position and resuming after the end of
// every match, so matches never overlap.
module EnvRefs {
  import opened Wrappers
  import opened Strs

  predicate IsIdentStart(c: char) {
    'A' <= c <= 'Z' || 'a' <= c <= 'z' || c == '_'
  }

  predicate IsIdentChar(c: char) {
    IsIdentStart(c) || '0' <= c <= '9'
  }

  /** A word of `[A-Za-z_][A-Za-z0-9_]*`. */
  predicate IsIdentifier(n: string) {
    |n| > 0 && IsIdentStart(n[0]) && forall k :: 0 < k < |n| ==> IsIdentChar(n[k])
  }

  /** `w` occurs in `s` at position `i`. */
  predicate OccursAt(s: string, w: string, i: int) {
    0 <= i && i + |w| <= |s| && s[i..i + |w|] == w
  }

  /** The end of the run of identifier characters that starts at `i`. */
  function IdentEnd(s: string, i: nat): (j: nat)
    requires i <= |s|
    ensures i <= j <= |s|
    ensures forall k :: i <= k < j ==> IsIdentChar(s[k])
    ensures j < |s| ==> !IsIdentChar(s[j])
    decreases |s| - i
  {
    if i < |s| && IsIdentChar(s[i]) then IdentEnd(s, i + 1) else i
  }

  /** A run of identifier characters stopped by a non-identifier character ends there. */
  lemma {:induction false} IdentEndAt(s: string, i: nat, j: nat)
    requires i <= j < |s|
    requires forall k :: i <= k < j ==> IsIdentChar(s[k])
    requires !IsIdentChar(s[j])
    ensures IdentEnd(s, i) == j
    decreases j - i
  {
    if i < j {
      IdentEndAt(s, i + 1, j);
    }
  }

  /**
   * The pattern `open(NAME)close` tried at position `p`: the captured name
   * and the position after the match. The identifier run is taken whole,
   * which is what the regex's backtracking amounts to when `close` is not
   * an identifier character, as it is in none of the three patterns.
   */
  function MatchAt(s: string, p: nat, open: string, close: char): (r: Option<(string, nat)>)
    requires p <= |s|
    ensures r.Some? ==> p < r.value.1 <= |s| && IsIdentifier(r.value.0)
    ensures r.Some? ==> s[p..r.value.1] == open + r.value.0 + [close]
  {
    var q := p + |open|;
    if q < |s| && s[p..q] == open && IsIdentStart(s[q]) then
      var j := IdentEnd(s, q + 1);
      if j < |s| && s[j] == close then
        assert s[p..j + 1] == s[p..q] + s[q..j] + [s[j]];
        Some((s[q..j], j + 1))
      else None
    else None
  }

  /** `re.findall` of `open(NAME)close` on `s[p..]`: the names, in order of their matches. */
  function Scan(s: string, p: nat, open: string, close: char): seq<string>
    requires p <= |s|
    decreases |s| - p
  {
    if p == |s| then []
    else
      match MatchAt(s, p, open, close)
      case Some(m) => [m.0] + Scan(s, m.1, open, close)
      case None => Scan(s, p + 1, open, close)
  }

  /** Every scanned name is an identifier occurring between `open` and `close`. */
  lemma {:induction false} ScanSound(s: string, p: nat, open: string, close: char, n: string)
    requires p <= |s|
    requires n in Scan(s, p, open, close)
    ensures IsIdentifier(n) && exists i :: p <= i && OccursAt(s, open + n + [close], i)
    decreases |s| - p
  {
    if p < |s| {
      match MatchAt(s, p, open, close)
      case Some(m) =>
        if n == m.0 {
          assert OccursAt(s, open + n + [close], p);
        } else {
          ScanSound(s, m.1, open, close, n);
        }
      case None =>
        ScanSound(s, p + 1, open, close, n);
    }
  }

  /**
   * What makes the scan miss nothing: the first character of `open` can
   * start no identifier, is not `close` and does not occur again in `open`,
   * so no match can swallow the start of another occurrence.
   */
  predicate ScanPattern(open: string, close: char) {
    |open| > 0 && !IsIdentChar(open[0]) && open[0] != close && open[0] !in open[1..] && !IsIdentChar(close)
  }

  /** Under `ScanPattern`, a match that starts before an occurrence ends before it. */
  lemma NoOverlap(s: string, p: nat, open: string, close: char, o: int, n: string)
    requires ScanPattern(open, close)
    requires p < o && OccursAt(s, open + n + [close], o)
    requires p <= |s| && MatchAt(s, p, open, close).Some?
    ensures MatchAt(s, p, open, close).value.1 <= o
  {
    var m := MatchAt(s, p, open, close).value;
    assert s[o] == open[0] by {
      assert s[o..o + |open| + |n| + 1][0] == s[o];
    }
    if o < m.1 {
      MatchedCharNotOpening(s, p, m.1, open, m.0, close, o);
      assert false;
    }
  }

  /** No character after the first of a match `open NAME close` is the opening character. */
  lemma MatchedCharNotOpening(s: string, p: int, e: int, open: string, name: string, close: char, o: int)
    requires ScanPattern(open, close) && IsIdentifier(name)
    requires 0 <= p < o < e <= |s| && s[p..e] == open + name + [close]
    ensures s[o] != open[0]
  {
    var w := open + name + [close];
    var d := o - p;
    assert s[o] == w[d];
    if d < |open| {
      assert w[d] == open[1..][d - 1];
    } else if d < |open| + |name| {
      assert w[d] == name[d - |open|];
    }
  }

  /** Under `ScanPattern`, every occurrence of `open NAME close` is matched where it starts. */
  lemma MatchAtOccurrence(s: string, open: string, close: char, o: int, n: string)
    requires ScanPattern(open, close) && IsIdentifier(n)
    requires OccursAt(s, open + n + [close], o)
    ensures o <= |s| && MatchAt(s, o, open, close) == Some((n, o + |open| + |n| + 1))
  {
    var q := o + |open|;
    var j := q + |n|;
    OccurrenceParts(s, open, n, close, o);
    forall k | q + 1 <= k < j ensures IsIdentChar(s[k]) {
      assert s[q + (k - q)] == n[k - q];
    }
    IdentEndAt(s, q + 1, j);
  }

  /** The three parts of an occurrence of `open NAME close`. */
  lemma OccurrenceParts(s: string, open: string, n: string, close: char, o: int)
    requires OccursAt(s, open + n + [close], o)
    ensures var q := o + |open|;
      s[o..q] == open && s[q..q + |n|] == n && s[q + |n|] == close
      && forall k :: 0 <= k < |n| ==> s[q + k] == n[k]
  {
    var w := open + n + [close];
    var q := o + |open|;
    var t := s[o..o + |w|];
    assert t == w;
    forall k | 0 <= k < |open| ensures s[o + k] == open[k] {
      assert s[o + k] == t[k];
    }
    assert s[o..q] == open;
    forall k | 0 <= k < |n| ensures s[q + k] == n[k] {
      assert s[q + k] == t[|open| + k];
    }
    assert s[q..q + |n|] == n;
    assert s[q + |n|] == t[|open| + |n|];
  }

  /** Under `ScanPattern`, the scan finds every occurrence at or after `p`. */
  lemma {:induction false} ScanComplete(s: string, p: nat, open: string, close: char, o: int, n: string)
    requires ScanPattern(open, close) && IsIdentifier(n)
    requires p <= o && OccursAt(s, open + n + [close], o)
    ensures p <= |s| && n in Scan(s, p, open, close)
    decreases |s| - p
  {
    if p == o {
      MatchAtOccurrence(s, open, close, o, n);
    } else {
      match MatchAt(s, p, open, close)
      case Some(m) =>
        NoOverlap(s, p, open, close, o, n);
        ScanComplete(s, m.1, open, close, o, n);
      case None =>
        ScanComplete(s, p + 1, open, close, o, n);
    }
  }

  /** `$(` and `@[User::` meet the condition; `%`, which also closes the pattern, does not. */
  lemma Patterns()
    ensures ScanPattern("$(", ')')
    ensures ScanPattern("@[User::", ']')
    ensures !ScanPattern("%", '%')
  {
    assert "@[User::"[1..] == "[User::";
  }

  function Elems(xs: seq<string>): (r: set<string>)
    ensures forall x :: x in r <==> x in xs
  {
    set x | x in xs
  }

  /** `_find_environment_variables`: the names of all three patterns, duplicates removed. */
  function FindEnvironmentVariables(v: string): set<string> {
    Elems(Scan(v, 0, "$(", ')')) + Elems(Scan(v, 0, "%", '%')) + Elems(Scan(v, 0, "@[User::", ']'))
  }

  /** Every name found is an identifier written as `$(N)`, `%N%` or `@[User::N]` in the value. */
  lemma FoundNamesOccur(v: string, n: string)
    requires n in FindEnvironmentVariables(v)
    ensures IsIdentifier(n)
    ensures Contains(v, "$(" + n + ")") || Contains(v, "%" + n + "%") || Contains(v, "@[User::" + n + "]")
  {
    assert "$(" + n + ")" == "$(" + n + [')'];
    assert "%" + n + "%" == "%" + n + ['%'];
    assert "@[User::" + n + "]" == "@[User::" + n + [']'];
    var open, close;
    if n in Scan(v, 0, "$(", ')') {
      open, close := "$(", ')';
    } else if n in Scan(v, 0, "%", '%') {
      open, close := "%", '%';
    } else {
      open, close := "@[User::", ']';
    }
    ScanSound(v, 0, open, close, n);
    var i :| 0 <= i && OccursAt(v, open + n + [close], i);
    ContainsAt(v, open + n + [close], i);
  }

  /** Every `$(N)` and every `@[User::N]` reference is found. */
  lemma DollarAndUserRefsFound(v: string, n: string)
    requires IsIdentifier(n)
    requires Contains(v, "$(" + n + ")") || Contains(v, "@[User::" + n + "]")
    ensures n in FindEnvironmentVariables(v)
  {
    Patterns();
    assert "$(" + n + ")" == "$(" + n + [')'];
    assert "@[User::" + n + "]" == "@[User::" + n + [']'];
    if Contains(v, "$(" + n + ")") {
      var i := ContainsHasOccurrence(v, "$(" + n + ")");
      ScanComplete(v, 0, "$(", ')', i, n);
    } else {
      var i := ContainsHasOccurrence(v, "@[User::" + n + "]");
      ScanComplete(v, 0, "@[User::", ']', i, n);
    }
  }

  /**
   * The `%N%` pattern shares its delimiter between neighbours: in
   * "%A%B%" the match "%A%" consumes the `%` that would open "%B%".
   */
  lemma PercentRefsOverlap()
    ensures Contains("%A%B%", "%B%")
    ensures FindEnvironmentVariables("%A%B%") == {"A"}
  {
    var s := "%A%B%";
    assert OccursAt(s, "%B%", 2);
    ContainsAt(s, "%B%", 2);
    assert s[0..1] == "%" && s[1..2] == "A";
    assert IdentEnd(s, 2) == 2;
    assert MatchAt(s, 0, "%", '%') == Some(("A", 3));
    assert MatchAt(s, 3, "%", '%') == None;
    assert MatchAt(s, 4, "%", '%') == None;
    assert Scan(s, 0, "%", '%') == ["A"];
    forall p | 0 <= p <= 5 ensures Scan(s, p, "$(", ')') == [] {
      NoDollar(s, p);
    }
    forall p | 0 <= p <= 5 ensures Scan(s, p, "@[User::", ']') == [] {
      NoUser(s, p);
    }
  }

  lemma {:induction false} NoDollar(s: string, p: nat)
    requires s == "%A%B%" && p <= |s|
    ensures Scan(s, p, "$(", ')') == []
    decreases |s| - p
  {
    if p < |s| {
      assert s[p] != '$';
      NoDollar(s, p + 1);
    }
  }

  lemma {:induction false} NoUser(s: string, p: nat)
    requires s == "%A%B%" && p <= |s|
    ensures Scan(s, p, "@[User::", ']') == []
    decreases |s| - p
  {
    if p < |s| {
      assert s[p] != '@';
      NoUser(s, p + 1);
    }
  }
}
