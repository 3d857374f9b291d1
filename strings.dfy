// Small text helpers shared by the components: JavaScript's `trim`,
// `includes` on strings, `String(n)` for a non-negative integer and
// `padStart`, together with decoders that serve as their partners.

module Wrappers {
  datatype Option<T> = None | Some(value: T)
}

module Strings {
  import opened Wrappers

  /** The characters JavaScript's `String.prototype.trim` removes
      (WhiteSpace and LineTerminator of ECMAScript). */
  predicate IsWhitespace(c: char)
  {
    c == ' ' || c == '\t' || c == '\n' || c == '\r' || c == '\U{000B}' || c == '\U{000C}'
    || c == '\U{00A0}' || c == '\U{1680}' || ('\U{2000}' <= c <= '\U{200A}')
    || c == '\U{2028}' || c == '\U{2029}' || c == '\U{202F}' || c == '\U{205F}'
    || c == '\U{3000}' || c == '\U{FEFF}'
  }

  predicate AllWhitespace(s: string)
  {
    forall i :: 0 <= i < |s| ==> IsWhitespace(s[i])
  }

  /** The number of whitespace characters `s` starts with. */
  function LeadingBlanks(s: string): (n: nat)
    ensures n <= |s|
    ensures forall i :: 0 <= i < n ==> IsWhitespace(s[i])
    ensures n == |s| || !IsWhitespace(s[n])
  {
    if s != [] && IsWhitespace(s[0]) then
      var n := LeadingBlanks(s[1..]);
      assert forall i :: 1 <= i < n + 1 ==> s[i] == s[1..][i - 1];
      n + 1
    else 0
  }

  /** The number of whitespace characters `s` ends with. */
  function TrailingBlanks(s: string): (n: nat)
    ensures n <= |s|
    ensures forall i :: |s| - n <= i < |s| ==> IsWhitespace(s[i])
    ensures n == |s| || !IsWhitespace(s[|s| - n - 1])
  {
    if s != [] && IsWhitespace(s[|s| - 1]) then
      var n := TrailingBlanks(s[..|s| - 1]);
      assert forall i :: |s| - 1 - n <= i < |s| - 1 ==> s[i] == s[..|s| - 1][i];
      n + 1
    else 0
  }

  /** JavaScript's `s.trim()`: whitespace dropped at both ends. The result
      is an infix of `s`, everything around it is whitespace and it neither
      starts nor ends with whitespace; it is empty exactly when `s` is
      blank. */
  function Trim(s: string): (r: string)
    ensures |r| <= |s|
    ensures r == [] || (!IsWhitespace(r[0]) && !IsWhitespace(r[|r| - 1]))
    ensures exists k :: 0 <= k <= |s| - |r| && r == s[k..k + |r|]
              && AllWhitespace(s[..k]) && AllWhitespace(s[k + |r|..])
    ensures r == [] <==> AllWhitespace(s)
  {
    var lo := LeadingBlanks(s);
    if lo == |s| then
      assert s[..lo] == s && s[lo + 0..] == [];
      []
    else
      var hi := |s| - TrailingBlanks(s);
      assert lo < hi;
      var r := s[lo..hi];
      assert r == s[lo..lo + |r|];
      assert AllWhitespace(s[..lo]);
      assert AllWhitespace(s[lo + |r|..]);
      r
  }

  /** `t` occurs in `s` starting at position `i`. */
  predicate OccursAt(s: string, t: string, i: int)
  {
    0 <= i <= |s| - |t| && s[i..i + |t|] == t
  }

  /** `s.includes(t)`. */
  predicate Includes(s: string, t: string)
  {
    exists i | 0 <= i <= |s| - |t| :: OccursAt(s, t, i)
  }

  /** Decimal digits. */
  predicate IsDigit(c: char)
  {
    '0' <= c <= '9'
  }

  predicate AllDigits(s: string)
  {
    forall i :: 0 <= i < |s| ==> IsDigit(s[i])
  }

  function DigitChar(d: nat): (c: char)
    requires d < 10
    ensures IsDigit(c) && (c as int) - ('0' as int) == d
  {
    ['0', '1', '2', '3', '4', '5', '6', '7', '8', '9'][d]
  }

  /** The value of a string of decimal digits (leading zeros allowed). */
  function DecimalValue(s: string): nat
    requires AllDigits(s)
  {
    if s == [] then 0
    else DecimalValue(s[..|s| - 1]) * 10 + ((s[|s| - 1] as int) - ('0' as int))
  }

  /** `String(n)` for a non-negative integer: the shortest decimal numeral,
      which reads back as `n`. */
  function NatToString(n: nat): (s: string)
    ensures |s| >= 1 && AllDigits(s)
    ensures |s| == 1 || s[0] != '0'
    ensures DecimalValue(s) == n
    ensures n < 10 <==> |s| == 1
  {
    if n < 10 then [DigitChar(n)]
    else
      var p := NatToString(n / 10);
      var s := p + [DigitChar(n % 10)];
      assert s[..|s| - 1] == p;
      s
  }

  /** `n.toString()` for any integer: the numeral of `|n|`, after a minus
      sign exactly when `n` is negative. */
  function IntToString(n: int): (s: string)
    ensures |s| >= 1 && (s[0] == '-' <==> n < 0)
    ensures n >= 0 ==> s == NatToString(n)
    ensures n < 0 ==> s[1..] == NatToString(-n)
  {
    if n < 0 then "-" + NatToString(-n) else NatToString(n)
  }

  /** A numeral at most 99 is at most two characters long. */
  lemma {:induction false} NatToStringShort(n: nat)
    requires n < 100
    ensures |NatToString(n)| <= 2
  {
    if n >= 10 {
      assert n / 10 < 10;
      assert |NatToString(n / 10)| == 1;
    }
  }

  /** `s.padStart(len, c)`: `s` with copies of `c` in front until it is
      `len` long; a longer `s` is left as it is. */
  function PadStart(s: string, len: nat, c: char): (r: string)
    ensures |r| == if |s| >= len then |s| else len
    ensures r[|r| - |s|..] == s
    ensures forall i :: 0 <= i < |r| - |s| ==> r[i] == c
  {
    if |s| >= len then s
    else
      var fill := seq(len - |s|, _ => c);
      assert (fill + s)[|fill|..] == s;
      fill + s
  }

  lemma PadStartDigits(s: string, len: nat)
    requires AllDigits(s)
    ensures AllDigits(PadStart(s, len, '0'))
    ensures DecimalValue(PadStart(s, len, '0')) == DecimalValue(s)
  {
    var r := PadStart(s, len, '0');
    var k := |r| - |s|;
    assert r[k..] == s;
    LeadingZeros(r, k);
  }

  /** Zeros in front of a numeral do not change its value. */
  lemma {:induction false} LeadingZeros(r: string, k: nat)
    requires k <= |r| && AllDigits(r[k..])
    requires forall i :: 0 <= i < k ==> r[i] == '0'
    ensures AllDigits(r)
    ensures DecimalValue(r) == DecimalValue(r[k..])
  {
    assert AllDigits(r) by {
      forall i | 0 <= i < |r| ensures IsDigit(r[i]) {
        if i >= k { assert r[k..][i - k] == r[i]; }
      }
    }
    if k < |r| {
      var q := r[..|r| - 1];
      assert q[k..] == r[k..][..|r| - 1 - k];
      LeadingZeros(q, k);
      assert r[k..][..|r[k..]| - 1] == q[k..];
    } else {
      ZerosValue(r);
      assert r[k..] == [];
    }
  }

  lemma {:induction false} ZerosValue(r: string)
    requires forall i :: 0 <= i < |r| ==> r[i] == '0'
    ensures AllDigits(r) && DecimalValue(r) == 0
  {
    if r != [] {
      ZerosValue(r[..|r| - 1]);
    }
  }

  /** The position of the first `c` in `s`, if any. */
  function IndexOf(s: string, c: char): (r: Option<nat>)
    ensures r.Some? ==> (r.value < |s| && s[r.value] == c
                         && forall i :: 0 <= i < r.value ==> s[i] != c)
    ensures r.None? ==> forall i :: 0 <= i < |s| ==> s[i] != c
  {
    if s == [] then None
    else if s[0] == c then Some(0)
    else match IndexOf(s[1..], c)
      case None => None
      case Some(k) => Some(k + 1)
  }

  /** `IndexOf` finds the first occurrence. */
  lemma IndexOfFirst(t: string, c: char, k: nat)
    requires k < |t| && t[k] == c && forall i :: 0 <= i < k ==> t[i] != c
    ensures IndexOf(t, c) == Some(k)
  {
  }

  /** In a numeral followed by a non-digit `c`, the first `c` is the one
      right after the numeral. */
  lemma IndexAfterDigits(d: string, c: char, rest: string)
    requires AllDigits(d) && !IsDigit(c)
    ensures IndexOf(d + [c] + rest, c) == Some(|d|)
    ensures (d + [c] + rest)[..|d|] == d && (d + [c] + rest)[|d| + 1..] == rest
  {
    var t := d + [c] + rest;
    forall i | 0 <= i < |d| ensures t[i] != c {
      assert t[i] == d[i];
    }
    IndexOfFirst(t, c, |d|);
  }

  /** Reads a `m:ss` clock (any number of minute digits, exactly two digits
      of seconds below 60) back as a number of seconds. */
  function ParseClock(t: string): Option<nat>
  {
    match IndexOf(t, ':')
    case None => None
    case Some(k) => ClockFields(t[..k], t[k + 1..])
  }

  /** The value of a clock whose minutes field is `m` and seconds field `s`. */
  function ClockFields(m: string, s: string): Option<nat>
  {
    if m != [] && AllDigits(m) && |s| == 2 && AllDigits(s) && DecimalValue(s) < 60
    then Some(DecimalValue(m) * 60 + DecimalValue(s))
    else None
  }

  /** `Math.floor(n / 60)` and `n % 60` for a count that is not negative:
      minutes and seconds on both timers, hours and minutes on the daily
      statistics. */
  function SplitSixty(n: nat): (r: (nat, nat))
    ensures r.0 * 60 + r.1 == n && r.1 < 60
  {
    (n / 60, n % 60)
  }

  /** A clock built from a numeral for the minutes and a two-digit numeral
      for the seconds reads back as the total number of seconds. */
  lemma ParseClockOf(m: string, s: string)
    requires m != [] && AllDigits(m) && |s| == 2 && AllDigits(s) && DecimalValue(s) < 60
    ensures ParseClock(m + ":" + s) == Some(DecimalValue(m) * 60 + DecimalValue(s))
  {
    ParseClockSplit(m, s);
    ClockFieldsValue(m, s);
  }

  /** The colon after a numeral splits the clock into that numeral and the
      rest. */
  lemma ParseClockSplit(m: string, s: string)
    requires AllDigits(m)
    ensures ParseClock(m + ":" + s) == ClockFields(m, s)
  {
    assert m + ":" + s == m + [':'] + s;
    IndexAfterDigits(m, ':', s);
  }

  lemma ClockFieldsValue(m: string, s: string)
    requires m != [] && AllDigits(m) && |s| == 2 && AllDigits(s) && DecimalValue(s) < 60
    ensures ClockFields(m, s) == Some(DecimalValue(m) * 60 + DecimalValue(s))
  {
  }

  /** A minutes numeral, a colon and `secs < 60` padded to two digits read
      back as `minutes * 60 + secs`. */
  lemma TwoDigitClock(m: string, secs: nat)
    requires m != [] && AllDigits(m) && secs < 60
    ensures |PadStart(NatToString(secs), 2, '0')| == 2
    ensures ParseClock(m + ":" + PadStart(NatToString(secs), 2, '0'))
            == Some(DecimalValue(m) * 60 + secs)
  {
    TwoDigits(secs);
    ParseClockOf(m, PadStart(NatToString(secs), 2, '0'));
  }

  /** `secs < 60` padded to two digits is a two-digit numeral worth `secs`. */
  lemma TwoDigits(secs: nat)
    requires secs < 60
    ensures var p := PadStart(NatToString(secs), 2, '0');
            |p| == 2 && AllDigits(p) && DecimalValue(p) == secs
  {
    var n := NatToString(secs);
    NatToStringShort(secs);
    PadStartDigits(n, 2);
  }
}
