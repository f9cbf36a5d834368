/**
 * String helpers that the JavaScript and TypeScript sources get from the
 * language: ASCII `toLowerCase`, `includes`, `startsWith`, `join`,
 * `replace` with a string pattern, number-to-decimal rendering and
 * `padStart`.
 */
module Text {
  import opened Types

  predicate IsDigit(c: char) {
    '0' <= c <= '9'
  }

  predicate AllDigits(s: string) {
    forall i :: 0 <= i < |s| ==> IsDigit(s[i])
  }

  /** `toLowerCase` restricted to ASCII letters. */
  function LowerChar(c: char): char {
    if 'A' <= c <= 'Z' then (c as int + 32) as char else c
  }

  function Lower(s: string): (r: string)
    ensures |r| == |s|
  {
    seq(|s|, i requires 0 <= i < |s| => LowerChar(s[i]))
  }

  /** `s` holds `w` starting at index `i`. */
  predicate HasAt(s: string, i: int, w: string) {
    0 <= i && i + |w| <= |s| && s[i..i + |w|] == w
  }

  /** `s.includes(w)`. */
  predicate Contains(s: string, w: string) {
    exists i | 0 <= i <= |s| - |w| :: HasAt(s, i, w)
  }

  /** Some word of the list occurs in `s`. */
  predicate ContainsAny(s: string, words: seq<string>) {
    exists k | 0 <= k < |words| :: Contains(s, words[k])
  }

  predicate StartsWith(s: string, p: string) {
    |p| <= |s| && s[..|p|] == p
  }

  lemma ContainsAt(s: string, i: int, w: string)
    requires HasAt(s, i, w)
    ensures Contains(s, w)
  {
  }

  lemma ContainsNothingInEmpty(w: string)
    requires w != ""
    ensures !Contains("", w)
  {
  }

  /** `lines.join(sep)`. */
  function Join(lines: seq<string>, sep: string): string
    decreases |lines|
  {
    if |lines| == 0 then ""
    else if |lines| == 1 then lines[0]
    else lines[0] + sep + Join(lines[1..], sep)
  }

  /** Appending one more line to a joined text adds the separator and the line. */
  lemma {:induction false} JoinSnoc(lines: seq<string>, x: string, sep: string)
    ensures Join(lines + [x], sep) == if lines == [] then x else Join(lines, sep) + sep + x
    decreases |lines|
  {
    if |lines| == 0 {
      assert lines + [x] == [x];
    } else if |lines| == 1 {
      assert lines + [x] == [lines[0], x];
      assert ([lines[0], x])[1..] == [x];
    } else {
      assert (lines + [x])[1..] == lines[1..] + [x];
      JoinSnoc(lines[1..], x, sep);
    }
  }

  /** Index of the first occurrence of `pat` in `s` at or after `from`. */
  function IndexOfFrom(s: string, pat: string, from: nat): (r: Option<nat>)
    ensures r.Some? ==> from <= r.value && HasAt(s, r.value, pat)
    ensures r.Some? ==> forall j :: from <= j < r.value ==> !HasAt(s, j, pat)
    ensures r.None? ==> forall j :: from <= j ==> !HasAt(s, j, pat)
    decreases |s| - from
  {
    if from + |pat| > |s| then None
    else if s[from..from + |pat|] == pat then Some(from)
    else IndexOfFrom(s, pat, from + 1)
  }

  /** `s.replace(pat, rep)` with a string pattern: only the first occurrence is replaced. */
  function ReplaceFirst(s: string, pat: string, rep: string): (r: string)
    ensures |r| == if Contains(s, pat) then |s| - |pat| + |rep| else |s|
  {
    match IndexOfFrom(s, pat, 0)
    case None => s
    case Some(i) =>
      ContainsAt(s, i, pat);
      s[..i] + rep + s[i + |pat|..]
  }

  lemma ReplaceFirstAbsent(s: string, pat: string, rep: string)
    requires !Contains(s, pat)
    ensures ReplaceFirst(s, pat, rep) == s
  {
    var r := IndexOfFrom(s, pat, 0);
    if r.Some? {
      ContainsAt(s, r.value, pat);
    }
  }

  /** Replacement happens at the first occurrence: the text before it is kept, and so is everything after the replaced part. */
  lemma ReplaceFirstAt(s: string, pat: string, rep: string, i: nat)
    requires HasAt(s, i, pat)
    requires forall j :: 0 <= j < i ==> !HasAt(s, j, pat)
    ensures ReplaceFirst(s, pat, rep) == s[..i] + rep + s[i + |pat|..]
  {
    var r := IndexOfFrom(s, pat, 0);
    assert r.Some? && r.value == i;
  }

  /** The decimal digit for `d < 10`. */
  function DigitChar(d: nat): char
    requires d < 10
  {
    ('0' as int + d) as char
  }

  function DigitValue(c: char): nat
    requires IsDigit(c)
  {
    c as int - '0' as int
  }

  /** `n.toString()` for a natural number. */
  function NatToString(n: nat): (r: string)
    ensures |r| >= 1 && AllDigits(r)
    decreases n
  {
    if n < 10 then [DigitChar(n)] else NatToString(n / 10) + [DigitChar(n % 10)]
  }

  /** The value of a string of decimal digits (the empty string is 0). */
  function ParseNat(s: string): nat
    requires AllDigits(s)
    decreases |s|
  {
    if s == [] then 0 else ParseNat(s[..|s| - 1]) * 10 + DigitValue(s[|s| - 1])
  }

  /** Reading back a rendered number gives the number. */
  lemma {:induction false} ParseNatToString(n: nat)
    ensures ParseNat(NatToString(n)) == n
    decreases n
  {
    if n >= 10 {
      var s := NatToString(n);
      var pre := NatToString(n / 10);
      assert s == pre + [DigitChar(n % 10)];
      assert s[..|s| - 1] == pre;
      ParseNatToString(n / 10);
    }
  }

  /** A rendered number has one digit below 10, two below 100, three or more from 100. */
  lemma {:induction false} NatToStringLength(n: nat)
    ensures n < 10 ==> |NatToString(n)| == 1
    ensures 10 <= n < 100 ==> |NatToString(n)| == 2
    ensures n >= 100 ==> |NatToString(n)| >= 3
    decreases n
  {
    if n >= 10 {
      NatToStringLength(n / 10);
    }
  }

  /** Leading zeros do not change the value of a digit string. */
  lemma {:induction false} ParseNatLeadingZero(s: string)
    requires AllDigits(s)
    ensures AllDigits("0" + s) && ParseNat("0" + s) == ParseNat(s)
    decreases |s|
  {
    var t := "0" + s;
    if s != [] {
      assert t[..|t| - 1] == "0" + s[..|s| - 1];
      ParseNatLeadingZero(s[..|s| - 1]);
    }
  }

  /** `str.padStart(2, '0')`. */
  function PadStart2(s: string): string {
    if |s| >= 2 then s else if |s| == 1 then "0" + s else "00"
  }
}
