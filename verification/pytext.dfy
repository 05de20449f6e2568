/**
 * The few Python built-ins on text that the services rely on:
 * `str(int)`, `int(str)`, `str.strip()`, `list(str)` and `"".join(list)`.
 */
module PyText {
  import opened Wrappers

  predicate IsDigit(c: char) {
    '0' <= c <= '9'
  }

  function DigitChar(d: nat): (c: char)
    requires d < 10
    ensures IsDigit(c)
  {
    ('0' as int + d) as char
  }

  function DigitValue(c: char): (d: nat)
    requires IsDigit(c)
    ensures d < 10 && DigitChar(d) == c
  {
    (c as int - '0' as int)
  }

  /** The decimal digits of a natural number, most significant first. */
  function NatDigits(n: nat): (r: string)
    ensures |r| >= 1
    ensures forall i :: 0 <= i < |r| ==> IsDigit(r[i])
    decreases n
  {
    if n < 10 then [DigitChar(n)] else NatDigits(n / 10) + [DigitChar(n % 10)]
  }

  /** Python's `str(n)` for an int. */
  function DecimalString(n: int): (r: string)
    ensures |r| >= 1
    ensures forall i :: 0 <= i < |r| ==> IsDigit(r[i]) || r[i] == '-'
    ensures 0 <= n < 10 ==> r == [DigitChar(n)]
  {
    if n < 0 then "-" + NatDigits(-n) else NatDigits(n)
  }

  predicate AllDigits(s: string) {
    forall i :: 0 <= i < |s| ==> IsDigit(s[i])
  }

  /** The value of a string of decimal digits (0 for the empty string). */
  function DigitsValue(s: string): nat
    requires AllDigits(s)
  {
    if s == [] then 0 else DigitsValue(s[..|s| - 1]) * 10 + DigitValue(s[|s| - 1])
  }

  /**
   * Python's `int(s)` on a string: an optional sign followed by at least one
   * decimal digit; `None` where Python raises ValueError.
   */
  function ParseInt(s: string): (r: Option<int>)
    ensures r.Some? ==> |s| >= 1
  {
    if |s| >= 1 && s[0] == '-' && |s| >= 2 && AllDigits(s[1..]) then Some(0 - DigitsValue(s[1..]) as int)
    else if |s| >= 1 && s[0] == '+' && |s| >= 2 && AllDigits(s[1..]) then Some(DigitsValue(s[1..]))
    else if |s| >= 1 && AllDigits(s) then Some(DigitsValue(s))
    else None
  }

  /** Python's `int(c)` on a one-character string. */
  function ParseDigitChar(c: char): (r: Option<nat>)
    ensures r.Some? <==> IsDigit(c)
    ensures r.Some? ==> r.value < 10 && DigitChar(r.value) == c
  {
    if IsDigit(c) then Some(DigitValue(c)) else None
  }

  lemma {:induction false} NatDigitsRoundTrip(n: nat)
    ensures AllDigits(NatDigits(n)) && DigitsValue(NatDigits(n)) == n
    decreases n
  {
    var r := NatDigits(n);
    if n >= 10 {
      NatDigitsRoundTrip(n / 10);
      assert r[..|r| - 1] == NatDigits(n / 10);
      assert r[|r| - 1] == DigitChar(n % 10);
    }
  }

  /** `int(str(n)) == n`: the decimal rendering of an int reads back as the same int. */
  lemma {:induction false} DecimalRoundTrip(n: int)
    ensures ParseInt(DecimalString(n)) == Some(n)
  {
    NatDigitsRoundTrip(if n < 0 then -n else n);
    if n < 0 {
      var r := DecimalString(n);
      assert r[1..] == NatDigits(-n);
    } else {
      assert NatDigits(n)[0] != '-' && NatDigits(n)[0] != '+';
    }
  }

  /** Distinct ints have distinct renderings, so `str(i)` keys are distinct per cell. */
  lemma DecimalInjective(a: int, b: int)
    requires DecimalString(a) == DecimalString(b)
    ensures a == b
  {
    DecimalRoundTrip(a);
    DecimalRoundTrip(b);
  }

  /** Python's `str.isspace()` on one character. */
  predicate IsSpace(c: char) {
    || c in {' ', '\t', '\n', '\r', '\U{0B}', '\U{0C}', '\U{1C}', '\U{1D}', '\U{1E}', '\U{1F}'}
    || c in {'\U{85}', '\U{A0}', '\U{1680}', '\U{2028}', '\U{2029}', '\U{202F}', '\U{205F}', '\U{3000}'}
    || '\U{2000}' <= c <= '\U{200A}'
  }

  predicate AllSpace(s: string) {
    forall i :: 0 <= i < |s| ==> IsSpace(s[i])
  }

  /** Python's `s.lstrip()`: `s` without its leading whitespace. */
  function StripLeft(s: string): (r: string)
    ensures |r| <= |s| && r == s[|s| - |r|..]
    ensures AllSpace(s[..|s| - |r|])
    ensures r == [] <==> AllSpace(s)
    ensures r != [] ==> !IsSpace(r[0])
  {
    if s != [] && IsSpace(s[0]) then
      var r := StripLeft(s[1..]);
      assert s[..|s| - |r|] == [s[0]] + s[1..][..|s| - 1 - |r|];
      r
    else s
  }

  /** Python's `s.rstrip()`: `s` without its trailing whitespace. */
  function StripRight(s: string): (r: string)
    ensures |r| <= |s| && r == s[..|r|]
    ensures AllSpace(s[|r|..])
    ensures r == [] <==> AllSpace(s)
    ensures r != [] ==> !IsSpace(r[|r| - 1])
  {
    if s != [] && IsSpace(s[|s| - 1]) then
      var r := StripRight(s[..|s| - 1]);
      assert s[|r|..] == s[..|s| - 1][|r|..] + [s[|s| - 1]];
      r
    else s
  }

  /** Python's `s.strip()`: `s` without its leading and trailing whitespace. */
  function Strip(s: string): (r: string)
    ensures |r| <= |s|
    ensures r == [] <==> AllSpace(s)
    ensures r != [] ==> !IsSpace(r[0]) && !IsSpace(r[|r| - 1])
    ensures s != [] && !IsSpace(s[0]) && !IsSpace(s[|s| - 1]) ==> r == s
  {
    var left := StripLeft(s);
    var r := StripRight(left);
    assert r != [] ==> r[0] == left[0];
    r
  }

  /** Leading whitespace before `s` is stripped away. */
  lemma {:induction false} StripLeftPadded(pre: string, s: string)
    requires AllSpace(pre)
    ensures StripLeft(pre + s) == StripLeft(s)
    decreases |pre|
  {
    if pre == [] {
      assert pre + s == s;
    } else {
      assert (pre + s)[0] == pre[0];
      assert (pre + s)[1..] == pre[1..] + s;
      StripLeftPadded(pre[1..], s);
    }
  }

  /** Once a non-space character is met, what follows it is kept. */
  lemma {:induction false} StripLeftKeepsTail(s: string, post: string)
    requires !AllSpace(s)
    ensures StripLeft(s + post) == StripLeft(s) + post
    decreases |s|
  {
    assert (s + post)[0] == s[0];
    if IsSpace(s[0]) {
      assert (s + post)[1..] == s[1..] + post;
      StripLeftKeepsTail(s[1..], post);
    }
  }

  /** Trailing whitespace after `s` is stripped away. */
  lemma {:induction false} StripRightPadded(s: string, post: string)
    requires AllSpace(post)
    ensures StripRight(s + post) == StripRight(s)
    decreases |post|
  {
    if post != [] {
      assert (s + post)[..|s + post| - 1] == s + post[..|post| - 1];
      StripRightPadded(s, post[..|post| - 1]);
    } else {
      assert s + post == s;
    }
  }

  /** Whitespace added around a string is stripped again: only the inner text counts. */
  lemma StripPadding(pre: string, s: string, post: string)
    requires AllSpace(pre) && AllSpace(post)
    ensures Strip(pre + s + post) == Strip(s)
  {
    assert pre + s + post == pre + (s + post);
    StripLeftPadded(pre, s + post);
    if AllSpace(s) {
      StripLeftPadded(s, post);
      assert StripLeft(post) == [];
      assert StripLeft(s) == [];
    } else {
      StripLeftKeepsTail(s, post);
      StripRightPadded(StripLeft(s), post);
    }
  }

  /** `lstrip()` only removes whitespace: a non-space character survives it exactly when present. */
  lemma StripLeftKeepsNonSpace(s: string, c: char)
    requires !IsSpace(c)
    ensures c in StripLeft(s) <==> c in s
  {
    var left := StripLeft(s);
    var pre := s[..|s| - |left|];
    assert s == pre + left;
    assert c !in pre by {
      forall i | 0 <= i < |pre| ensures pre[i] != c { assert IsSpace(pre[i]); }
    }
  }

  /** `rstrip()` only removes whitespace: a non-space character survives it exactly when present. */
  lemma StripRightKeepsNonSpace(s: string, c: char)
    requires !IsSpace(c)
    ensures c in StripRight(s) <==> c in s
  {
    var right := StripRight(s);
    var post := s[|right|..];
    assert s == right + post;
    assert c !in post by {
      forall i | 0 <= i < |post| ensures post[i] != c { assert IsSpace(post[i]); }
    }
  }

  /** Stripping only removes whitespace: a non-space character is in `Strip(s)` exactly when it is in `s`. */
  lemma StripKeepsNonSpace(s: string, c: char)
    requires !IsSpace(c)
    ensures c in Strip(s) <==> c in s
  {
    StripLeftKeepsNonSpace(s, c);
    StripRightKeepsNonSpace(StripLeft(s), c);
  }

  /** Python's `list(s)`: one one-character string per character. */
  function Chars(s: string): (r: seq<string>)
    ensures |r| == |s|
    ensures forall i :: 0 <= i < |r| ==> r[i] == [s[i]]
  {
    seq(|s|, i requires 0 <= i < |s| => [s[i]])
  }

  /** Python's `"".join(xs)`. */
  function Join(xs: seq<string>): string {
    if xs == [] then "" else xs[0] + Join(xs[1..])
  }

  predicate AllSingles(xs: seq<string>) {
    forall i :: 0 <= i < |xs| ==> |xs[i]| == 1
  }

  /** Joining one-character strings gives the string of their characters. */
  lemma {:induction false} JoinSingles(xs: seq<string>)
    requires AllSingles(xs)
    ensures |Join(xs)| == |xs|
    ensures forall i :: 0 <= i < |xs| ==> Join(xs)[i] == xs[i][0]
  {
    if xs != [] {
      JoinSingles(xs[1..]);
      assert Join(xs) == xs[0] + Join(xs[1..]);
      forall i | 0 <= i < |xs| ensures Join(xs)[i] == xs[i][0] {
        if i > 0 { assert Join(xs)[i] == Join(xs[1..])[i - 1]; }
      }
    }
  }

  /** Joining non-empty strings gives at least one character per string. */
  lemma {:induction false} JoinLengthAtLeast(xs: seq<string>)
    requires forall i :: 0 <= i < |xs| ==> |xs[i]| >= 1
    ensures |Join(xs)| >= |xs|
  {
    if xs != [] {
      JoinLengthAtLeast(xs[1..]);
    }
  }

  /** `"".join(list(s)) == s`. */
  lemma JoinChars(s: string)
    ensures Join(Chars(s)) == s
  {
    JoinSingles(Chars(s));
  }
}
