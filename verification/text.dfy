/**
 * The Python string operations the pipeline relies on: `strip`, `lower`, `startswith`,
 * `in`, `replace`, whitespace `split`, `' '.join`, `str(n)` and `int(s)`.
 */
module PyText {
  import opened Wrappers

  /** The characters Python's `str.strip()` and `str.split()` treat as whitespace. */
  predicate IsSpace(c: char) {
    c == ' ' || ('\t' <= c <= '\r') || ('\U{1C}' <= c <= '\U{1F}') || c == '\U{85}' ||
    c == '\U{A0}' || c == '\U{1680}' || ('\U{2000}' <= c <= '\U{200A}') ||
    c == '\U{2028}' || c == '\U{2029}' || c == '\U{202F}' || c == '\U{205F}' || c == '\U{3000}'
  }

  /** A string made of whitespace only (possibly empty). */
  predicate AllSpace(w: string) {
    forall i :: 0 <= i < |w| ==> IsSpace(w[i])
  }

  /** `s.lstrip()`: drops the leading whitespace. */
  function TrimLeft(s: string): (r: string)
    ensures |r| <= |s| && r == s[|s| - |r|..]
    decreases |s|
  {
    if s != [] && IsSpace(s[0]) then TrimLeft(s[1..]) else s
  }

  /** What `lstrip()` drops is whitespace, and what it keeps does not start with whitespace. */
  lemma {:induction false} TrimLeftSpec(s: string)
    ensures AllSpace(s[..|s| - |TrimLeft(s)|])
    ensures TrimLeft(s) == [] || !IsSpace(TrimLeft(s)[0])
    decreases |s|
  {
    if s != [] && IsSpace(s[0]) {
      var t := s[1..];
      TrimLeftSpec(t);
      var r := TrimLeft(t);
      assert TrimLeft(s) == r;
      var p := s[..|s| - |r|];
      var q := t[..|t| - |r|];
      assert |p| == |q| + 1;
      forall i | 0 <= i < |p| ensures IsSpace(p[i]) {
        if i == 0 {
          assert p[0] == s[0];
        } else {
          assert p[i] == s[i] == t[i - 1] == q[i - 1];
        }
      }
    }
  }

  /** `s.rstrip()`: drops the trailing whitespace. */
  function TrimRight(s: string): (r: string)
    ensures |r| <= |s| && r == s[..|r|]
    decreases |s|
  {
    if s != [] && IsSpace(s[|s| - 1]) then TrimRight(s[..|s| - 1]) else s
  }

  /** What `rstrip()` drops is whitespace, and what it keeps does not end with whitespace. */
  lemma {:induction false} TrimRightSpec(s: string)
    ensures AllSpace(s[|TrimRight(s)|..])
    ensures TrimRight(s) == [] || !IsSpace(TrimRight(s)[|TrimRight(s)| - 1])
    decreases |s|
  {
    if s != [] && IsSpace(s[|s| - 1]) {
      var t := s[..|s| - 1];
      TrimRightSpec(t);
      var r := TrimRight(t);
      assert TrimRight(s) == r;
      var p := s[|r|..];
      var q := t[|r|..];
      forall i | 0 <= i < |p| ensures IsSpace(p[i]) {
        if i < |q| {
          assert p[i] == q[i];
        }
      }
    }
  }

  /** `s.strip()` */
  function Strip(s: string): string {
    TrimRight(TrimLeft(s))
  }

  /** Drops the leading characters that belong to `chars`. */
  function TrimLeftOf(s: string, chars: set<char>): (r: string)
    ensures |r| <= |s| && r == s[|s| - |r|..]
    ensures r == [] || r[0] !in chars
    decreases |s|
  {
    if s != [] && s[0] in chars then TrimLeftOf(s[1..], chars) else s
  }

  /** Drops the trailing characters that belong to `chars`. */
  function TrimRightOf(s: string, chars: set<char>): (r: string)
    ensures |r| <= |s| && r == s[..|r|]
    ensures r == [] || r[|r| - 1] !in chars
    decreases |s|
  {
    if s != [] && s[|s| - 1] in chars then TrimRightOf(s[..|s| - 1], chars) else s
  }

  /** `s.strip(chars)` */
  function StripChars(s: string, chars: set<char>): (r: string)
    ensures r == [] || (r[0] !in chars && r[|r| - 1] !in chars)
  {
    var l := TrimLeftOf(s, chars);
    var r := TrimRightOf(l, chars);
    assert r != [] ==> r[0] == l[0];
    r
  }

  /** A string with nothing for `Strip` to remove. */
  predicate Trimmed(s: string) {
    s == [] || (!IsSpace(s[0]) && !IsSpace(s[|s| - 1]))
  }

  lemma {:induction false} TrimLeftSpaces(w: string, x: string)
    requires AllSpace(w)
    ensures TrimLeft(w + x) == TrimLeft(x)
    decreases |w|
  {
    if w == [] {
      assert w + x == x;
    } else {
      var s := w + x;
      assert s[0] == w[0] && IsSpace(s[0]);
      assert s[1..] == w[1..] + x;
      assert TrimLeft(s) == TrimLeft(s[1..]);
      assert AllSpace(w[1..]);
      TrimLeftSpaces(w[1..], x);
    }
  }

  lemma {:induction false} TrimRightSpaces(x: string, w: string)
    requires AllSpace(w)
    ensures TrimRight(x + w) == TrimRight(x)
    decreases |w|
  {
    if w == [] {
      assert x + w == x;
    } else {
      var s := x + w;
      var w' := w[..|w| - 1];
      var t := s[..|s| - 1];
      assert s[|s| - 1] == w[|w| - 1];
      assert IsSpace(s[|s| - 1]);
      assert t == x + w';
      assert TrimRight(s) == TrimRight(t);
      assert AllSpace(w');
      TrimRightSpaces(x, w');
    }
  }

  lemma TrimLeftNonSpace(x: string)
    requires x != [] && !IsSpace(x[0])
    ensures TrimLeft(x) == x
  {
  }

  lemma TrimRightNonSpace(x: string)
    requires x != [] && !IsSpace(x[|x| - 1])
    ensures TrimRight(x) == x
  {
  }

  lemma AllSpaceTrimLeft(w: string)
    requires AllSpace(w)
    ensures TrimLeft(w) == []
  {
    assert w + [] == w;
    TrimLeftSpaces(w, []);
  }

  /**
   * `strip()` is characterised by its result: if `s` is a trimmed `t` padded with
   * whitespace on both sides, `s.strip()` is `t`.
   */
  lemma StripUnique(s: string, w1: string, t: string, w2: string)
    requires s == w1 + t + w2 && AllSpace(w1) && AllSpace(w2) && Trimmed(t)
    ensures Strip(s) == t
  {
    var u := t + w2;
    assert s == w1 + u;
    TrimLeftSpaces(w1, u);
    if t == [] {
      assert u == w2;
      AllSpaceTrimLeft(w2);
    } else {
      assert u[0] == t[0];
      TrimLeftNonSpace(u);
      TrimRightSpaces(t, w2);
      TrimRightNonSpace(t);
    }
  }

  lemma TrimLeftPadding(s: string) returns (w1: string)
    ensures s == w1 + TrimLeft(s) && AllSpace(w1)
  {
    var l := TrimLeft(s);
    TrimLeftSpec(s);
    w1 := s[..|s| - |l|];
    assert s == w1 + l;
  }

  lemma TrimRightPadding(l: string) returns (w2: string)
    ensures l == TrimRight(l) + w2 && AllSpace(w2)
  {
    var r := TrimRight(l);
    TrimRightSpec(l);
    w2 := l[|r|..];
    assert l == r + w2;
  }

  /** Every string is its stripped form padded with whitespace. */
  lemma StripPadding(s: string) returns (w1: string, w2: string)
    ensures s == w1 + Strip(s) + w2 && AllSpace(w1) && AllSpace(w2)
  {
    w1 := TrimLeftPadding(s);
    w2 := TrimRightPadding(TrimLeft(s));
  }

  lemma TrimRightKeepsStart(l: string)
    requires l == [] || !IsSpace(l[0])
    ensures Trimmed(TrimRight(l))
  {
    var r := TrimRight(l);
    TrimRightSpec(l);
    if r != [] {
      assert r[0] == l[0];
    }
  }

  lemma StripTrimmed(s: string)
    ensures Trimmed(Strip(s))
  {
    TrimLeftSpec(s);
    TrimRightKeepsStart(TrimLeft(s));
  }

  lemma StripOfTrimmed(s: string)
    requires Trimmed(s)
    ensures Strip(s) == s
  {
    StripUnique(s, [], s, []);
  }

  /** Whitespace followed by whitespace is whitespace. */
  lemma AllSpaceConcat(a: string, b: string)
    requires AllSpace(a) && AllSpace(b)
    ensures AllSpace(a + b)
  {
    forall i | 0 <= i < |a + b| ensures IsSpace((a + b)[i]) {
      if i >= |a| {
        assert (a + b)[i] == b[i - |a|];
      }
    }
  }

  /** Extra whitespace around a string does not change what `strip()` returns. */
  lemma StripPadded(w1: string, x: string, w2: string)
    requires AllSpace(w1) && AllSpace(w2)
    ensures Strip(w1 + x + w2) == Strip(x)
  {
    var v1, v2 := StripPadding(x);
    var t := Strip(x);
    StripSpec(x);
    AllSpaceConcat(w1, v1);
    AllSpaceConcat(v2, w2);
    Regroup(w1, v1, t, v2, w2);
    StripUnique(w1 + x + w2, w1 + v1, t, v2 + w2);
  }

  lemma Regroup(a: string, b: string, c: string, d: string, e: string)
    ensures a + (b + c + d) + e == (a + b) + c + (d + e)
  {
  }

  /** `rstrip()` first does not change what `strip()` returns. */
  lemma StripTrimRight(u: string)
    ensures Strip(TrimRight(u)) == Strip(u)
  {
    var r := TrimRight(u);
    var w2 := TrimRightPadding(u);
    assert [] + r == r;
    StripPadded([], r, w2);
    assert [] + r + w2 == u;
  }

  /** Trailing whitespace after a character that is not whitespace is all that `rstrip()` removes. */
  lemma {:induction false} TrimRightAfter(x: string, u: string)
    requires x != [] && !IsSpace(x[|x| - 1])
    ensures TrimRight(x + u) == x + TrimRight(u)
    decreases |u|
  {
    var s := x + u;
    if u == [] {
      assert s == x;
      TrimRightNonSpace(x);
    } else {
      assert s[|s| - 1] == u[|u| - 1];
      if IsSpace(u[|u| - 1]) {
        assert s[..|s| - 1] == x + u[..|u| - 1];
        TrimRightAfter(x, u[..|u| - 1]);
      }
    }
  }

  /** `strip()` leaves no whitespace at either end and is the identity on such strings. */
  lemma StripSpec(s: string)
    ensures Trimmed(Strip(s))
    ensures Trimmed(s) ==> Strip(s) == s
    ensures Strip(Strip(s)) == Strip(s)
  {
    StripTrimmed(s);
    if Trimmed(s) {
      StripOfTrimmed(s);
    }
    StripOfTrimmed(Strip(s));
  }

  /** ASCII case mapping; other characters are left alone. */
  function LowerChar(c: char): char {
    if 'A' <= c <= 'Z' then (c as int + 32) as char else c
  }

  function UpperChar(c: char): char {
    if 'a' <= c <= 'z' then (c as int - 32) as char else c
  }

  /** `s.lower()` */
  function Lower(s: string): (r: string)
    ensures |r| == |s| && forall i :: 0 <= i < |s| ==> r[i] == LowerChar(s[i])
  {
    seq(|s|, i requires 0 <= i < |s| => LowerChar(s[i]))
  }

  /** `s.upper()` */
  function Upper(s: string): (r: string)
    ensures |r| == |s| && forall i :: 0 <= i < |s| ==> r[i] == UpperChar(s[i])
  {
    seq(|s|, i requires 0 <= i < |s| => UpperChar(s[i]))
  }

  /** `s.startswith(p)` */
  predicate StartsWith(s: string, p: string) {
    |p| <= |s| && s[..|p|] == p
  }

  /** `sub` occurs in `s` starting at index `i`. */
  predicate OccursAt(s: string, sub: string, i: int) {
    0 <= i && i + |sub| <= |s| && s[i..i + |sub|] == sub
  }

  /** `sub in s` */
  predicate Contains(s: string, sub: string) {
    exists i | 0 <= i <= |s| :: OccursAt(s, sub, i)
  }

  /** `s.replace(pat, rep)`: every non-overlapping occurrence of `pat`, scanning left to right. */
  function ReplaceAll(s: string, pat: string, rep: string): string
    decreases |s|
  {
    if pat == [] then
      (if s == [] then rep else rep + [s[0]] + ReplaceAll(s[1..], pat, rep))
    else if |s| < |pat| then s
    else if s[..|pat|] == pat then rep + ReplaceAll(s[|pat|..], pat, rep)
    else [s[0]] + ReplaceAll(s[1..], pat, rep)
  }

  /** Replacing a non-empty pattern that does not occur changes nothing. */
  lemma {:induction false} ReplaceAbsent(s: string, pat: string, rep: string)
    requires pat != [] && !Contains(s, pat)
    ensures ReplaceAll(s, pat, rep) == s
    decreases |s|
  {
    if |s| >= |pat| {
      assert !OccursAt(s, pat, 0);
      assert s[0..0 + |pat|] == s[..|pat|];
      forall i | 0 <= i <= |s[1..]|
        ensures !OccursAt(s[1..], pat, i)
      {
        if i + |pat| <= |s[1..]| {
          assert s[1..][i..i + |pat|] == s[i + 1..i + 1 + |pat|];
          assert !OccursAt(s, pat, i + 1);
        }
      }
      ReplaceAbsent(s[1..], pat, rep);
      assert [s[0]] + s[1..] == s;
    }
  }

  /** A string that starts with a non-empty pattern starts with its replacement afterwards. */
  lemma ReplaceAtStart(s: string, pat: string, rep: string)
    requires pat != [] && StartsWith(s, pat)
    ensures StartsWith(ReplaceAll(s, pat, rep), rep)
  {
    assert ReplaceAll(s, pat, rep) == rep + ReplaceAll(s[|pat|..], pat, rep);
  }

  /** `s[k:]` */
  function DropFirst(s: string, k: nat): string {
    if k <= |s| then s[k..] else []
  }

  /** `s[:-k]` for a positive `k`. */
  function DropLast(s: string, k: nat): string {
    if k <= |s| then s[..|s| - k] else []
  }

  /** `s[k:-k]` for a positive `k`. */
  function DropBoth(s: string, k: nat): string {
    if 2 * k <= |s| then s[k..|s| - k] else []
  }

  /** `s.endswith(p)` */
  predicate EndsWith(s: string, p: string) {
    |p| <= |s| && s[|s| - |p|..] == p
  }

  /** The index of the first occurrence of `c` in `s` (`s.index(c)`). */
  function FirstIndex<T(==)>(s: seq<T>, c: T): (i: nat)
    requires c in s
    ensures i < |s| && s[i] == c && forall j :: 0 <= j < i ==> s[j] != c
  {
    if s[0] == c then 0 else 1 + FirstIndex(s[1..], c)
  }

  /** The index of the last occurrence of `c` in `s`. */
  function LastIndex(s: string, c: char): (i: nat)
    requires c in s
    ensures i < |s| && s[i] == c && forall j :: i < j < |s| ==> s[j] != c
  {
    if s[|s| - 1] == c then |s| - 1 else LastIndex(s[..|s| - 1], c)
  }

  /** `s.split(c, 1)[1]`: what follows the first `c`. */
  function AfterFirst(s: string, c: char): string
    requires c in s
  {
    s[FirstIndex(s, c) + 1..]
  }

  /** `s.rsplit(c, 1)[0]`: what precedes the last `c`. */
  function BeforeLast(s: string, c: char): string
    requires c in s
  {
    s[..LastIndex(s, c)]
  }

  lemma AfterFirstOf(a: string, c: char, b: string)
    requires c !in a
    ensures c in a + [c] + b && AfterFirst(a + [c] + b, c) == b
  {
    var s := a + [c] + b;
    assert s[|a|] == c;
    var i := FirstIndex(s, c);
    assert forall j :: 0 <= j < |a| ==> s[j] == a[j];
    assert i == |a|;
    assert s[|a| + 1..] == b;
  }

  lemma BeforeLastOf(a: string, c: char, b: string)
    requires c !in b
    ensures c in a + [c] + b && BeforeLast(a + [c] + b, c) == a
  {
    var s := a + [c] + b;
    assert s[|a|] == c;
    var i := LastIndex(s, c);
    assert forall j :: |a| < j < |s| ==> s[j] == b[j - |a| - 1];
    assert i == |a|;
    assert s[..|a|] == a;
  }

  /** A maximal run of non-whitespace characters, as `str.split()` produces. */
  predicate IsWord(w: string) {
    w != [] && forall i :: 0 <= i < |w| ==> !IsSpace(w[i])
  }

  /** The longest prefix of `s` without whitespace. */
  function TakeWord(s: string): (w: string)
    ensures |w| <= |s| && w == s[..|w|]
    ensures forall i :: 0 <= i < |w| ==> !IsSpace(w[i])
    ensures |w| == |s| || IsSpace(s[|w|])
    decreases |s|
  {
    if s == [] || IsSpace(s[0]) then [] else [s[0]] + TakeWord(s[1..])
  }

  /** `s.split()` with no separator: the words of `s`, whitespace runs dropped. */
  function SplitWords(s: string): (ws: seq<string>)
    ensures forall i :: 0 <= i < |ws| ==> IsWord(ws[i])
    decreases |s|
  {
    if s == [] then []
    else if IsSpace(s[0]) then SplitWords(s[1..])
    else
      var w := TakeWord(s);
      [w] + SplitWords(s[|w|..])
  }

  /** A string of nothing but whitespace has no words. */
  lemma {:induction false} SplitWordsAllSpace(s: string)
    requires AllSpace(s)
    ensures SplitWords(s) == []
    decreases |s|
  {
    if s != [] {
      assert IsSpace(s[0]);
      assert AllSpace(s[1..]) by {
        forall i | 0 <= i < |s[1..]| ensures IsSpace(s[1..][i]) {
          assert s[1..][i] == s[i + 1];
        }
      }
      SplitWordsAllSpace(s[1..]);
    }
  }

  /** `sep.join(ws)` */
  function Join(ws: seq<string>, sep: string): string {
    if ws == [] then []
    else if |ws| == 1 then ws[0]
    else ws[0] + sep + Join(ws[1..], sep)
  }

  lemma {:induction false} TakeWordBeforeSpace(w: string, rest: string)
    requires forall i :: 0 <= i < |w| ==> !IsSpace(w[i])
    requires rest == [] || IsSpace(rest[0])
    ensures TakeWord(w + rest) == w
    decreases |w|
  {
    if w != [] {
      var s := w + rest;
      assert s[0] == w[0] && !IsSpace(s[0]);
      assert s[1..] == w[1..] + rest;
      TakeWordBeforeSpace(w[1..], rest);
      assert TakeWord(s) == [w[0]] + TakeWord(w[1..] + rest);
      assert w == [w[0]] + w[1..];
    }
  }

  /** Splitting words joined by single spaces gives the words back. */
  lemma {:induction false} SplitJoin(ws: seq<string>)
    requires forall i :: 0 <= i < |ws| ==> IsWord(ws[i])
    ensures SplitWords(Join(ws, " ")) == ws
    decreases |ws|
  {
    if |ws| == 1 {
      TakeWordBeforeSpace(ws[0], []);
      assert ws[0] + [] == ws[0];
      assert ws[0][|ws[0]|..] == [];
    } else if |ws| > 1 {
      var w := ws[0];
      var rest := Join(ws[1..], " ");
      var s := w + " " + rest;
      assert s == w + (" " + rest);
      TakeWordBeforeSpace(w, " " + rest);
      assert s[|w|..] == " " + rest;
      assert (" " + rest)[1..] == rest;
      SplitJoin(ws[1..]);
      assert SplitWords(s) == [w] + SplitWords(" " + rest);
      assert ws == [w] + ws[1..];
    }
  }

  function DigitChar(d: nat): char
    requires d < 10
  {
    (48 + d) as char
  }

  predicate IsDigit(c: char) {
    '0' <= c <= '9'
  }

  /** `str(n)` for a non-negative integer. */
  function NatToString(n: nat): (s: string)
    ensures s != [] && forall i :: 0 <= i < |s| ==> IsDigit(s[i])
    decreases n
  {
    if n < 10 then [DigitChar(n)] else NatToString(n / 10) + [DigitChar(n % 10)]
  }

  /** The digits of an `int(...)` literal: ASCII digits, single underscores between them. */
  predicate DigitGroups(t: string) {
    t != [] && IsDigit(t[0]) && IsDigit(t[|t| - 1]) &&
    (forall i :: 0 <= i < |t| ==> IsDigit(t[i]) || t[i] == '_') &&
    (forall i :: 0 <= i < |t| - 1 ==> t[i] == '_' ==> t[i + 1] != '_')
  }

  /** The value of the digits of `t`, underscores skipped. */
  function DigitsValue(t: string): nat
    decreases |t|
  {
    if t == [] then 0
    else if IsDigit(t[|t| - 1]) then DigitsValue(t[..|t| - 1]) * 10 + (t[|t| - 1] as int - 48)
    else DigitsValue(t[..|t| - 1])
  }

  /** `int(s)` on a string: surrounding whitespace, an optional sign, then digit groups. */
  function ParseInt(s: string): (r: Option<int>)
  {
    var t := Strip(s);
    if t == [] then None
    else if t[0] == '-' || t[0] == '+' then
      var body := t[1..];
      if DigitGroups(body) then Some(if t[0] == '-' then -(DigitsValue(body) as int) else DigitsValue(body) as int)
      else None
    else if DigitGroups(t) then Some(DigitsValue(t))
    else None
  }

  lemma {:induction false} DigitsValueOfNatToString(n: nat)
    ensures DigitsValue(NatToString(n)) == n
    decreases n
  {
    var s := NatToString(n);
    if n >= 10 {
      DigitsValueOfNatToString(n / 10);
      assert s[..|s| - 1] == NatToString(n / 10);
    }
  }

  lemma DigitsTrimmed(s: string)
    requires s != [] && IsDigit(s[0]) && IsDigit(s[|s| - 1])
    ensures Strip(s) == s
  {
    assert !IsSpace(s[0]) && !IsSpace(s[|s| - 1]);
    StripOfTrimmed(s);
  }

  lemma NatToStringShape(n: nat)
    ensures DigitGroups(NatToString(n))
    ensures NatToString(n)[0] != '-' && NatToString(n)[0] != '+'
  {
    var s := NatToString(n);
    assert IsDigit(s[0]) && IsDigit(s[|s| - 1]);
  }

  /** `int(str(n)) == n` */
  lemma ParseIntOfNatToString(n: nat)
    ensures ParseInt(NatToString(n)) == Some(n)
  {
    var s := NatToString(n);
    NatToStringShape(n);
    DigitsTrimmed(s);
    DigitsValueOfNatToString(n);
  }
}
