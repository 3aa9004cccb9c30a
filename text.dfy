/**
 * The few string operations of the Java standard library that the bots rely
 * on: `startsWith`, `contains`, `String.valueOf(long)`, `Long.parseLong` and
 * the two-field `split(":")` of the admin callback data.
 */
module Text {
  import opened Wrappers

  /** `s.startsWith(p)` */
  predicate StartsWith(s: string, p: string) {
    |p| <= |s| && s[..|p|] == p
  }

  /** `s.contains(sub)`: some window of `s` equals `sub`. */
  predicate Contains(s: string, sub: string)
    decreases |s|
  {
    |sub| <= |s| && (s[..|sub|] == sub || Contains(s[1..], sub))
  }

  lemma {:induction false} ContainsAt(s: string, sub: string, i: nat)
    requires i + |sub| <= |s| && s[i..i + |sub|] == sub
    ensures Contains(s, sub)
    decreases i
  {
    if i > 0 {
      assert s[1..][i - 1..i - 1 + |sub|] == s[i..i + |sub|];
      ContainsAt(s[1..], sub, i - 1);
    }
  }

  /** A text that lacks the first character of `sub` cannot contain `sub`. */
  lemma {:induction false} ContainsHead(s: string, sub: string)
    requires sub != [] && Contains(s, sub)
    ensures sub[0] in s
    decreases |s|
  {
    if s[..|sub|] != sub {
      ContainsHead(s[1..], sub);
    } else {
      assert s[0] == sub[0];
    }
  }

  /** A text without the first character of `sub` does not contain `sub`. */
  lemma LacksHead(s: string, sub: string)
    requires sub != [] && sub[0] !in s
    ensures !Contains(s, sub)
  {
    if Contains(s, sub) {
      ContainsHead(s, sub);
    }
  }

  predicate IsDigit(c: char) {
    '0' <= c <= '9'
  }

  function DigitChar(d: nat): (c: char)
    requires d < 10
    ensures IsDigit(c)
  {
    ('0' as int + d) as char
  }

  function DigitValue(c: char): (d: nat)
    requires IsDigit(c)
    ensures d < 10
  {
    c as int - '0' as int
  }

  /** `String.valueOf(n)` for a non-negative number: its decimal digits, no leading zero. */
  function NumberText(n: nat): (s: string)
    ensures |s| >= 1 && AllDigits(s)
    ensures |s| == 1 <==> n < 10
    decreases n
  {
    if n < 10 then [DigitChar(n)] else NumberText(n / 10) + [DigitChar(n % 10)]
  }

  predicate AllDigits(s: string) {
    forall i :: 0 <= i < |s| ==> IsDigit(s[i])
  }

  /** The value of a string of decimal digits (leading zeros allowed). */
  function DigitsValue(s: string): nat
    requires AllDigits(s)
    decreases |s|
  {
    if s == [] then 0 else DigitsValue(s[..|s| - 1]) * 10 + DigitValue(s[|s| - 1])
  }

  /** `Long.parseLong(s)`: an optional sign followed by at least one digit; anything else fails. */
  function ParseLong(s: string): (r: Option<int>)
    ensures r.Some? <==> s != [] && (AllDigits(s) || ((s[0] == '-' || s[0] == '+') && |s| >= 2 && AllDigits(s[1..])))
    ensures r.Some? && s[0] != '-' ==> r.value >= 0
    ensures r.Some? && s[0] == '-' ==> r.value <= 0
  {
    if s != [] && (s[0] == '-' || s[0] == '+') then
      var body := s[1..];
      if body != [] && AllDigits(body) then
        var v: int := DigitsValue(body);
        Some(if s[0] == '-' then -v else v)
      else None
    else if s != [] && AllDigits(s) then Some(DigitsValue(s))
    else None
  }

  lemma {:induction false} NumberTextDigits(n: nat)
    ensures |NumberText(n)| >= 1 && AllDigits(NumberText(n))
    ensures NumberText(n)[0] != '0' || n == 0
    ensures DigitsValue(NumberText(n)) == n
    decreases n
  {
    if n >= 10 {
      NumberTextDigits(n / 10);
      var s := NumberText(n);
      assert s[..|s| - 1] == NumberText(n / 10);
    }
  }

  /** `Long.parseLong(String.valueOf(n)) == n`: the text of a number reads back as that number. */
  lemma ParseNumberText(n: nat)
    ensures ParseLong(NumberText(n)) == Some(n)
  {
    NumberTextDigits(n);
  }

  /** Distinct numbers have distinct texts, so a text names at most one number. */
  lemma NumberTextInjective(a: nat, b: nat)
    ensures NumberText(a) == NumberText(b) ==> a == b
  {
    NumberTextDigits(a);
    NumberTextDigits(b);
  }

  /** Position of the first `:` in `s`, if any. */
  function ColonIndex(s: string): (r: Option<nat>)
    ensures r.Some? ==> r.value < |s| && s[r.value] == ':'
    ensures r.Some? ==> forall i :: 0 <= i < r.value ==> s[i] != ':'
    ensures r.None? ==> forall i :: 0 <= i < |s| ==> s[i] != ':'
    decreases |s|
  {
    if s == [] then None
    else if s[0] == ':' then Some(0)
    else match ColonIndex(s[1..])
      case None => None
      case Some(k) => Some(k + 1)
  }

  /** The first colon at position `k` is found there. */
  lemma ColonIndexAt(s: string, k: nat)
    requires k < |s| && s[k] == ':' && forall i :: 0 <= i < k ==> s[i] != ':'
    ensures ColonIndex(s) == Some(k)
  {
  }

  /**
   * The first two elements of `s.split(":")`: the text before the first colon
   * and the text between the first and the second colon (or the end). None when
   * there is no colon, where Java's `data[1]` would be out of bounds.
   */
  function TwoFields(s: string): (r: Option<(string, string)>)
    ensures r.Some? ==> forall i :: 0 <= i < |r.value.0| ==> r.value.0[i] != ':'
    ensures r.Some? ==> forall i :: 0 <= i < |r.value.1| ==> r.value.1[i] != ':'
    ensures r.Some? ==> var (a, b) := r.value;
      StartsWith(s, a + ":" + b) && (|s| == |a| + 1 + |b| || s[|a| + 1 + |b|] == ':')
    ensures r.None? <==> forall i :: 0 <= i < |s| ==> s[i] != ':'
  {
    match ColonIndex(s)
    case None => None
    case Some(k) =>
      var rest := s[k + 1..];
      var second := match ColonIndex(rest) case None => rest case Some(j) => rest[..j];
      Some((s[..k], second))
  }

  /** Joining two colon-free fields with a colon and splitting again gives the fields back. */
  lemma TwoFieldsJoin(a: string, b: string)
    requires forall i :: 0 <= i < |a| ==> a[i] != ':'
    requires forall i :: 0 <= i < |b| ==> b[i] != ':'
    ensures TwoFields(a + ":" + b) == Some((a, b))
  {
    var s := a + ":" + b;
    assert forall i :: 0 <= i < |a| ==> s[i] == a[i];
    ColonIndexAt(s, |a|);
    assert s[|a| + 1..] == b;
    assert s[..|a|] == a;
    assert ColonIndex(b).None?;
  }
}
