/** String helpers standing in for Python's `str.upper`, `in` on strings, `str(int)` and `float(str)`. */
module Text {
  import opened Wrappers

  /** ASCII upper-casing of one character; other characters are left alone. */
  function UpperChar(c: char): char {
    if 'a' <= c <= 'z' then (c as int - 32) as char else c
  }

  /** `s.upper()` restricted to ASCII letters. */
  function Upper(s: string): (r: string)
    ensures |r| == |s|
    ensures forall i :: 0 <= i < |s| ==> r[i] == UpperChar(s[i])
  {
    if s == [] then [] else [UpperChar(s[0])] + Upper(s[1..])
  }

  /** `t in s` for strings: `t` occurs in `s` at some offset. */
  predicate Contains(s: string, t: string) {
    exists i | 0 <= i <= |s| - |t| :: OccursAt(s, t, i)
  }

  predicate OccursAt(s: string, t: string, i: int) {
    0 <= i <= |s| - |t| && s[i..i + |t|] == t
  }

  /** A non-empty token can only occur in a string that holds its first character. */
  lemma ContainsNeedsFirstChar(s: string, t: string)
    requires |t| > 0 && Contains(s, t)
    ensures exists i :: 0 <= i < |s| && s[i] == t[0]
  {
    var i :| 0 <= i <= |s| - |t| && OccursAt(s, t, i);
    assert s[i] == s[i..i + |t|][0];
  }

  function DigitChar(d: nat): (c: char)
    requires d < 10
    ensures '0' <= c <= '9'
  {
    ('0' as int + d) as char
  }

  function DigitValue(c: char): (d: nat)
    requires '0' <= c <= '9'
    ensures d < 10
  {
    c as int - '0' as int
  }

  /** `str(n)` for a natural number: its decimal digits, most significant first. */
  function NatToString(n: nat): (s: string)
    ensures |s| > 0
    ensures forall i :: 0 <= i < |s| ==> '0' <= s[i] <= '9'
    decreases n
  {
    if n < 10 then [DigitChar(n)] else NatToString(n / 10) + [DigitChar(n % 10)]
  }

  predicate AllDigits(s: string) {
    forall i :: 0 <= i < |s| ==> '0' <= s[i] <= '9'
  }

  /** The number a string of decimal digits denotes. */
  function DigitsValue(s: string): nat
    requires AllDigits(s)
  {
    if s == [] then 0 else DigitsValue(s[..|s| - 1]) * 10 + DigitValue(s[|s| - 1])
  }

  lemma {:induction false} DigitsValueOfNatToString(n: nat)
    ensures AllDigits(NatToString(n)) && DigitsValue(NatToString(n)) == n
    decreases n
  {
    if n >= 10 {
      DigitsValueOfNatToString(n / 10);
      var s := NatToString(n / 10) + [DigitChar(n % 10)];
      assert s[..|s| - 1] == NatToString(n / 10);
    }
  }

  function Pow10(k: nat): (p: nat)
    ensures p >= 1
  {
    if k == 0 then 1 else 10 * Pow10(k - 1)
  }

  /** The first index of `c` in `s`, or `|s|` when it does not occur. */
  function IndexOf(s: string, c: char): (k: nat)
    ensures k <= |s|
    ensures forall i :: 0 <= i < k ==> s[i] != c
    ensures k < |s| ==> s[k] == c
  {
    if s == [] then 0 else if s[0] == c then 0 else 1 + IndexOf(s[1..], c)
  }

  lemma {:induction false} IndexOfAbsent(s: string, c: char)
    requires forall i :: 0 <= i < |s| ==> s[i] != c
    ensures IndexOf(s, c) == |s|
  {
    if s != [] {
      IndexOfAbsent(s[1..], c);
    }
  }

  /**
   * `float(s)` for plain decimal text: an optional sign, then digits with at most one
   * decimal point and at least one digit. Everything else (exponents, "inf", "nan",
   * surrounding blanks, underscores) gives None, which the callers treat as the
   * ValueError Python would raise for unparsable text.
   */
  function ParseDecimal(s: string): (r: Option<real>)
    ensures r.Some? ==> |s| > 0
  {
    if s == [] then None
    else if s[0] == '-' then
      match ParseUnsigned(s[1..])
      case Some(v) => Some(-v)
      case None => None
    else if s[0] == '+' then ParseUnsigned(s[1..])
    else ParseUnsigned(s)
  }

  function ParseUnsigned(s: string): Option<real> {
    var k := IndexOf(s, '.');
    var whole := s[..k];
    var frac := if k < |s| then s[k + 1..] else "";
    if |whole| + |frac| == 0 || !AllDigits(whole) || !AllDigits(frac) then None
    else Some(DigitsValue(whole) as real + DigitsValue(frac) as real / Pow10(|frac|) as real)
  }

  /** Digits without a point parse to the integer they denote: `float("42") == 42.0`. */
  lemma ParseIntegerText(n: nat)
    ensures ParseDecimal(NatToString(n)) == Some(n as real)
  {
    var s := NatToString(n);
    DigitsValueOfNatToString(n);
    ParseDigits(s);
  }

  lemma ParseDigits(s: string)
    requires |s| > 0 && AllDigits(s)
    ensures ParseDecimal(s) == Some(DigitsValue(s) as real)
  {
    IndexOfAbsent(s, '.');
    var k := IndexOf(s, '.');
    assert s[..k] == s;
    var frac: string := "";
    assert AllDigits(frac);
    assert DigitsValue(frac) == 0;
    assert Pow10(|frac|) == 1;
    assert ParseUnsigned(s) == Some(DigitsValue(s) as real);
    assert s[0] != '-' && s[0] != '+';
  }

  /** Upper-casing twice is upper-casing once. */
  lemma UpperIdempotent(s: string)
    ensures Upper(Upper(s)) == Upper(s)
  {
    assert forall i :: 0 <= i < |s| ==> UpperChar(UpperChar(s[i])) == UpperChar(s[i]);
  }

  lemma UpperConcat(a: string, b: string)
    ensures Upper(a + b) == Upper(a) + Upper(b)
  {
    assert forall i :: 0 <= i < |a + b| ==> Upper(a + b)[i] == (Upper(a) + Upper(b))[i];
  }

  /** Every character of a token occurs in a text that contains it. */
  lemma ContainsChars(s: string, t: string, k: nat)
    requires k < |t|
    ensures Contains(s, t) ==> t[k] in s
  {
    if Contains(s, t) {
      var i :| 0 <= i <= |s| - |t| && OccursAt(s, t, i);
      assert s[i..i + |t|][k] == s[i + k];
    }
  }

  /** An occurrence of a token without blanks covers no blank. */
  lemma OccurrenceHasNoBlank(s: string, t: string, i: int)
    requires OccursAt(s, t, i) && ' ' !in t
    ensures forall p :: i <= p < i + |t| ==> s[p] != ' '
  {
    forall p | i <= p < i + |t|
      ensures s[p] != ' '
    {
      assert s[p] == s[i..i + |t|][p - i] == t[p - i];
    }
  }

  /** A token without blanks that occurs in `a + b`, where `a` ends in a blank, occurs in `a` or in `b`. */
  lemma ContainsAcrossBlank(a: string, b: string, t: string)
    requires |a| > 0 && a[|a| - 1] == ' ' && ' ' !in t && |t| > 0
    ensures Contains(a + b, t) ==> Contains(a, t) || Contains(b, t)
  {
    var s := a + b;
    if !Contains(s, t) {
      return;
    }
    var i :| 0 <= i <= |s| - |t| && OccursAt(s, t, i);
    OccurrenceHasNoBlank(s, t, i);
    assert s[|a| - 1] == ' ';
    if i + |t| <= |a| {
      assert a[i..i + |t|] == s[i..i + |t|];
      assert OccursAt(a, t, i);
    } else {
      assert b[i - |a|..i - |a| + |t|] == s[i..i + |t|];
      assert OccursAt(b, t, i - |a|);
    }
  }

  /** A token holding an upper-case letter that `w` holds in neither case is not in `Upper(w)`. */
  lemma TokenAbsent(w: string, t: string, k: nat, lower: char)
    requires k < |t| && 'A' <= t[k] <= 'Z' && lower as int == t[k] as int + 32
    requires t[k] !in w && lower !in w
    ensures !Contains(Upper(w), t)
  {
    forall i | 0 <= i < |w|
      ensures Upper(w)[i] != t[k]
    {
      assert w[i] in w;
    }
    ContainsChars(Upper(w), t, k);
  }

  /** Word by word: a blank-free token in neither upper-cased word is not in the upper-cased pair. */
  lemma AbsentAcross(a: string, b: string, t: string)
    requires |a| > 0 && a[|a| - 1] == ' ' && ' ' !in t && |t| > 0
    requires !Contains(Upper(a), t) && !Contains(Upper(b), t)
    ensures !Contains(Upper(a + b), t)
  {
    UpperConcat(a, b);
    ContainsAcrossBlank(Upper(a), Upper(b), t);
  }
}
