/**
 * Text helpers shared by the bot and the mirror task: Python's `str.isspace`,
 * `str.strip`, `int(...)`, `str.replace`, `split(...)[-1]` and the decimal
 * rendering of integers, over `string` (a sequence of code points).
 */
module Strings {
  import opened Wrappers

  /** The characters for which Python's `str.isspace()` holds; also what `\s` matches in a str pattern. */
  predicate IsSpace(c: char)
  {
    ('\t' <= c <= '\r') || ('\U{1c}' <= c <= ' ')
    || c == '\U{85}' || c == '\U{a0}' || c == '\U{1680}'
    || ('\U{2000}' <= c <= '\U{200a}') || c == '\U{2028}' || c == '\U{2029}'
    || c == '\U{202f}' || c == '\U{205f}' || c == '\U{3000}'
  }

  predicate IsDigit(c: char)
  {
    '0' <= c <= '9'
  }

  function DigitValue(c: char): nat
    requires IsDigit(c)
  {
    (c as int) - ('0' as int)
  }

  function DigitChar(d: nat): (c: char)
    requires d < 10
    ensures IsDigit(c) && DigitValue(c) == d
  {
    (('0' as int) + d) as char
  }

  /** Number of whitespace characters at the start of `s`. */
  function LeadingSpaces(s: string): (n: nat)
    ensures n <= |s| && forall k :: 0 <= k < n ==> IsSpace(s[k])
    ensures n < |s| ==> !IsSpace(s[n])
  {
    if s == [] || !IsSpace(s[0]) then 0 else 1 + LeadingSpaces(s[1..])
  }

  /** Number of whitespace characters at the end of `s`. */
  function TrailingSpaces(s: string): (n: nat)
    ensures n <= |s| && forall k :: |s| - n <= k < |s| ==> IsSpace(s[k])
    ensures n < |s| ==> !IsSpace(s[|s| - 1 - n])
  {
    if s == [] || !IsSpace(s[|s| - 1]) then 0
    else
      var init := s[..|s| - 1];
      var n := TrailingSpaces(init);
      assert forall k :: |init| - n <= k < |init| ==> s[k] == init[k];
      1 + n
  }

  /**
   * `s.strip()`: drops leading and trailing whitespace. The result is the slice
   * of `s` that starts after its leading whitespace, everything after the slice
   * is whitespace, and the slice neither starts nor ends with whitespace.
   */
  function Strip(s: string): (r: string)
    ensures r == [] || (!IsSpace(r[0]) && !IsSpace(r[|r| - 1]))
    ensures LeadingSpaces(s) + |r| <= |s| && r == s[LeadingSpaces(s)..LeadingSpaces(s) + |r|]
    ensures forall k :: LeadingSpaces(s) + |r| <= k < |s| ==> IsSpace(s[k])
  {
    var i := LeadingSpaces(s);
    var t := s[i..];
    var r := t[..|t| - TrailingSpaces(t)];
    SpacesAfter(s, i, |r|);
    r
  }

  lemma SpacesAfter(s: string, i: nat, len: nat)
    requires i + len <= |s| && forall k :: len <= k < |s| - i ==> IsSpace(s[i..][k])
    ensures forall k :: i + len <= k < |s| ==> IsSpace(s[k])
  {
    forall k | i + len <= k < |s| ensures IsSpace(s[k]) {
      assert s[k] == s[i..][k - i];
    }
  }

  /** A text that neither starts nor ends with whitespace is its own strip. */
  lemma StripUnpadded(s: string)
    requires s != [] && !IsSpace(s[0]) && !IsSpace(s[|s| - 1])
    ensures Strip(s) == s
  {
    assert LeadingSpaces(s) == 0;
    assert s[0..] == s;
    assert TrailingSpaces(s) == 0;
  }

  /** Decimal digits of `n`, most significant first, without leading zeros. */
  function NatToString(n: nat): (r: string)
    ensures |r| > 0 && forall i :: 0 <= i < |r| ==> IsDigit(r[i])
  {
    if n < 10 then [DigitChar(n)] else NatToString(n / 10) + [DigitChar(n % 10)]
  }

  /** Python's `str(n)` for an integer. */
  function IntToString(n: int): (r: string)
    ensures |r| > 0 && forall i :: 0 <= i < |r| ==> r[i] == '-' || IsDigit(r[i])
  {
    if n < 0 then "-" + NatToString(-n) else NatToString(n)
  }

  predicate AllDigits(s: string)
  {
    forall i :: 0 <= i < |s| ==> IsDigit(s[i])
  }

  /** The value of a string of decimal digits. */
  function DigitsValue(s: string): nat
    requires AllDigits(s)
  {
    if s == [] then 0 else DigitsValue(s[..|s| - 1]) * 10 + DigitValue(s[|s| - 1])
  }

  /** Python's `int(text)` on ASCII decimal input: surrounding whitespace, an optional sign, then digits. */
  function ParseInt(text: string): Option<int>
  {
    var t := Strip(text);
    if t == [] then None
    else if t[0] == '-' || t[0] == '+' then
      (if |t| > 1 && AllDigits(t[1..])
       then var v: int := DigitsValue(t[1..]); Some(if t[0] == '-' then -v else v)
       else None)
    else if AllDigits(t) then Some(DigitsValue(t))
    else None
  }

  lemma {:induction false} NatToStringRoundTrip(n: nat)
    ensures DigitsValue(NatToString(n)) == n
  {
    if n >= 10 {
      var s := NatToString(n);
      assert s[..|s| - 1] == NatToString(n / 10);
      NatToStringRoundTrip(n / 10);
    }
  }

  /** Reading back what `str(n)` printed gives `n`: the rendering loses nothing. */
  lemma IntToStringRoundTrip(n: int)
    ensures ParseInt(IntToString(n)) == Some(n)
  {
    var d := NatToString(if n < 0 then -n else n);
    NatToStringRoundTrip(if n < 0 then -n else n);
    if n < 0 {
      ParseNegative(d);
    } else {
      ParseDigits(d);
    }
  }

  lemma ParseDigits(d: string)
    requires d != [] && AllDigits(d)
    ensures ParseInt(d) == Some(DigitsValue(d))
  {
    StripUnpadded(d);
  }

  lemma ParseNegative(d: string)
    requires d != [] && AllDigits(d)
    ensures ParseInt("-" + d) == Some(-(DigitsValue(d) as int))
  {
    var m := "-" + d;
    assert m[|m| - 1] == d[|d| - 1];
    StripUnpadded(m);
    assert m[1..] == d;
  }

  /** `str(n)` is injective: two integers with the same text are equal. */
  lemma IntToStringInjective(m: int, n: int)
    requires IntToString(m) == IntToString(n)
    ensures m == n
  {
    IntToStringRoundTrip(m);
    IntToStringRoundTrip(n);
  }

  lemma ConcatAssoc(a: string, b: string, c: string)
    ensures (a + b) + c == a + (b + c)
  {
  }

  lemma DropPrefix(a: string, b: string)
    ensures (a + b)[|a|..] == b
  {
  }

  /** `pat` occurs in `s` starting at index `i`. */
  predicate OccursAt(s: string, pat: string, i: int)
  {
    0 <= i && i + |pat| <= |s| && s[i..i + |pat|] == pat
  }

  /** Seen from the second character on, an occurrence at `i > 0` is one at `i - 1`. */
  lemma OccursShift(s: string, pat: string, i: int)
    requires s != [] && 0 < i
    ensures OccursAt(s, pat, i) <==> OccursAt(s[1..], pat, i - 1)
  {
    if i + |pat| <= |s| {
      assert s[i..i + |pat|] == s[1..][i - 1..i - 1 + |pat|];
    }
  }

  /** `s.find(pat)`: the leftmost index where `pat` occurs, if any. */
  function Find(s: string, pat: string): (r: Option<nat>)
    requires |pat| > 0
    ensures r.Some? ==> OccursAt(s, pat, r.value) && forall i :: 0 <= i < r.value ==> !OccursAt(s, pat, i)
    ensures r.None? ==> forall i :: !OccursAt(s, pat, i)
    decreases |s|
  {
    if |s| < |pat| then None
    else if pat <= s then
      assert s[0..|pat|] == pat;
      Some(0)
    else
      assert forall i | 0 < i :: OccursAt(s, pat, i) <==> OccursAt(s[1..], pat, i - 1) by {
        forall i | 0 < i ensures OccursAt(s, pat, i) <==> OccursAt(s[1..], pat, i - 1) {
          OccursShift(s, pat, i);
        }
      }
      assert !OccursAt(s, pat, 0);
      match Find(s[1..], pat)
      case None => None
      case Some(j) => Some(j + 1)
  }

  /**
   * `s.replace(pat, rep)`: the text up to the leftmost occurrence of `pat` is
   * kept, the occurrence becomes `rep`, and the rest of the text after it is
   * treated the same way; occurrences therefore never overlap.
   */
  function ReplaceAll(s: string, pat: string, rep: string): (r: string)
    requires |pat| > 0
    ensures pat <= s ==> rep <= r
    ensures (forall i :: !OccursAt(s, pat, i)) ==> r == s
    decreases |s|
  {
    match Find(s, pat)
    case None => s
    case Some(i) =>
      assert pat <= s ==> i == 0 by {
        if pat <= s { assert OccursAt(s, pat, 0); }
      }
      s[..i] + rep + ReplaceAll(s[i + |pat|..], pat, rep)
  }

  /** `s.split(pat)`: the texts between the leftmost non-overlapping occurrences of `pat`. */
  function Split(s: string, pat: string): (r: seq<string>)
    requires |pat| > 0
    ensures |r| > 0
    decreases |s|
  {
    match Find(s, pat)
    case None => [s]
    case Some(i) => [s[..i]] + Split(s[i + |pat|..], pat)
  }

  /** `sep.join(parts)`. */
  function Join(parts: seq<string>, sep: string): string
  {
    if parts == [] then []
    else if |parts| == 1 then parts[0]
    else parts[0] + sep + Join(parts[1..], sep)
  }

  lemma JoinCons(a: string, ps: seq<string>, sep: string)
    requires ps != []
    ensures Join([a] + ps, sep) == a + sep + Join(ps, sep)
  {
    assert ([a] + ps)[1..] == ps;
  }

  /**
   * `s.replace(pat, rep)` is `rep.join(s.split(pat))`: the texts between the
   * occurrences are kept as they were, and each occurrence becomes `rep`.
   */
  lemma {:induction false} ReplaceIsSplitJoin(s: string, pat: string, rep: string)
    requires |pat| > 0
    ensures ReplaceAll(s, pat, rep) == Join(Split(s, pat), rep)
    decreases |s|
  {
    match Find(s, pat)
    case None =>
    case Some(i) =>
      var tail := s[i + |pat|..];
      ReplaceIsSplitJoin(tail, pat, rep);
      JoinCons(s[..i], Split(tail, pat), rep);
  }

  /** Splitting at `pat` and joining with `pat` gives the text back. */
  lemma {:induction false} SplitJoinRoundTrip(s: string, pat: string)
    requires |pat| > 0
    ensures Join(Split(s, pat), pat) == s
    decreases |s|
  {
    match Find(s, pat)
    case None =>
    case Some(i) =>
      var tail := s[i + |pat|..];
      SplitJoinRoundTrip(tail, pat);
      JoinCons(s[..i], Split(tail, pat), pat);
      assert s[i..i + |pat|] == pat;
      assert s == s[..i] + s[i..i + |pat|] + tail;
  }

  /** Text after the last occurrence of `sep`, the whole text when there is none: `s.split(sep)[-1]`. */
  function LastField(s: string, sep: char): (r: string)
    ensures |r| <= |s| && s[|s| - |r|..] == r && sep !in r
    ensures sep !in s ==> r == s
    ensures |r| < |s| ==> s[|s| - |r| - 1] == sep
  {
    if s == [] then []
    else if s[|s| - 1] == sep then []
    else LastField(s[..|s| - 1], sep) + [s[|s| - 1]]
  }

  /** Error text as the mirror task reports it: at most 300 characters, then "..." when it was cut. */
  function Truncate300(s: string): (r: string)
    ensures |s| <= 300 ==> r == s
    ensures |s| > 300 ==> |r| == 303 && r == s[..300] + "..."
  {
    if |s| > 300 then s[..300] + "..." else s
  }
}
