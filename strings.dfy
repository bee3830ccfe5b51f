/** The string operations of JavaScript and Python that the front end relies on,
    written out with their edge cases: substring search, first/every replacement,
    splitting on a character, decimal rendering, clamped substring and slice. */
module Strings {
  import opened Optional

  /** `sub` occurs in `s` at index `i`. */
  predicate OccursAt(s: string, sub: string, i: nat) {
    i + |sub| <= |s| && s[i..i + |sub|] == sub
  }

  /** `String.prototype.indexOf`: the first index at which `sub` occurs. */
  function IndexOf(s: string, sub: string): (r: Option<nat>)
    ensures r.Some? ==> OccursAt(s, sub, r.value)
    ensures r.Some? ==> forall j :: 0 <= j < r.value ==> !OccursAt(s, sub, j)
    ensures r.None? ==> forall j: nat :: !OccursAt(s, sub, j)
    decreases |s|
  {
    if |sub| <= |s| && s[..|sub|] == sub then Some(0)
    else if |s| == 0 then None
    else
      var rest := IndexOf(s[1..], sub);
      ShiftOccurs(s, sub);
      match rest
      case None => None
      case Some(k) => Some(k + 1)
  }

  /** An occurrence in the tail is an occurrence in `s` one index later. */
  lemma ShiftOccurs(s: string, sub: string)
    requires |s| > 0
    ensures forall j: nat :: OccursAt(s[1..], sub, j) ==> OccursAt(s, sub, j + 1)
    ensures forall j: nat :: 1 <= j && OccursAt(s, sub, j) ==> OccursAt(s[1..], sub, j - 1)
  {
    forall j: nat
      ensures OccursAt(s[1..], sub, j) <==> OccursAt(s, sub, j + 1)
    {
      if j + 1 + |sub| <= |s| {
        assert s[1..][j..j + |sub|] == s[j + 1..j + 1 + |sub|];
      }
    }
  }

  /** `p` occurs in `a + p + b` right after `a`. */
  lemma OccursAtJoin(a: string, p: string, b: string)
    ensures OccursAt(a + p + b, p, |a|)
  {
    assert (a + p + b)[|a|..|a| + |p|] == p;
  }

  /** `String.prototype.includes` and Python's `in` on strings. */
  predicate Contains(s: string, sub: string) {
    IndexOf(s, sub).Some?
  }

  lemma ContainsAt(s: string, sub: string, i: nat)
    requires OccursAt(s, sub, i)
    ensures Contains(s, sub)
  {
  }

  /** `s.replace(pat, rep)` with a string pattern: only the first occurrence is replaced
      (replacement strings are taken literally; `$` patterns are not modelled). */
  function ReplaceFirst(s: string, pat: string, rep: string): string {
    match IndexOf(s, pat)
    case None => s
    case Some(i) => s[..i] + rep + s[i + |pat|..]
  }

  /** `s.replace(new RegExp(pat, 'g'), rep)` for a pattern that matches itself literally:
      every non-overlapping occurrence, scanning left to right. */
  function ReplaceAll(s: string, pat: string, rep: string): string
    requires |pat| > 0
    decreases |s|
  {
    match IndexOf(s, pat)
    case None => s
    case Some(i) => s[..i] + rep + ReplaceAll(s[i + |pat|..], pat, rep)
  }

  /** If the first character of `p` does not occur in `a`, the first occurrence of `p`
      in `a + p + b` is right after `a`. */
  lemma {:induction false} FirstOccurrenceAfter(a: string, p: string, b: string)
    requires |p| > 0 && p[0] !in a
    ensures IndexOf(a + p + b, p) == Some(|a|)
  {
    var s := a + p + b;
    if a == [] {
      assert s[..|p|] == p;
    } else {
      assert s[1..] == a[1..] + p + b;
      FirstOccurrenceAfter(a[1..], p, b);
      assert s[..|p|][0] == a[0];
    }
  }

  /** Under the same condition, the first replacement rewrites exactly that occurrence. */
  lemma ReplaceFirstAfter(a: string, p: string, b: string, r: string)
    requires |p| > 0 && p[0] !in a
    ensures ReplaceFirst(a + p + b, p, r) == a + r + b
  {
    FirstOccurrenceAfter(a, p, b);
    var s := a + p + b;
    assert s[..|a|] == a;
    assert s[|a| + |p|..] == b;
  }

  /** Replacing a pattern by itself changes nothing. */
  lemma {:induction false} ReplaceAllSelf(s: string, p: string)
    requires |p| > 0
    ensures ReplaceAll(s, p, p) == s
    decreases |s|
  {
    match IndexOf(s, p)
    case None =>
    case Some(i) =>
      ReplaceAllSelf(s[i + |p|..], p);
      assert s[..i] + p + s[i + |p|..] == s by {
        assert s[i..i + |p|] == p;
        assert s == s[..i] + s[i..i + |p|] + s[i + |p|..];
      }
  }

  /** A pattern absent from `s` leaves it unchanged. */
  lemma ReplaceAllAbsent(s: string, p: string, r: string)
    requires |p| > 0 && !Contains(s, p)
    ensures ReplaceAll(s, p, r) == s
  {
  }

  // ----- splitting on one character -----

  /** `s.split(sep)` for a one-character separator: always at least one part, and
      an empty string gives `[""]`. */
  function Split(s: string, sep: char): (r: seq<string>)
    ensures |r| >= 1
    decreases |s|
  {
    if s == [] then [""]
    else
      var rest := Split(s[1..], sep);
      if s[0] == sep then [""] + rest
      else [[s[0]] + rest[0]] + rest[1..]
  }

  /** `parts.join(sep)`. */
  function Join(parts: seq<string>, sep: char): string
    requires |parts| >= 1
    decreases |parts|
  {
    if |parts| == 1 then parts[0] else parts[0] + [sep] + Join(parts[1..], sep)
  }

  /** Joining the parts of a split gives back the string. */
  lemma {:induction false} JoinSplit(s: string, sep: char)
    ensures Join(Split(s, sep), sep) == s
    decreases |s|
  {
    if s != [] {
      var rest := Split(s[1..], sep);
      JoinSplit(s[1..], sep);
      if s[0] == sep {
        assert Split(s, sep)[1..] == rest;
      } else {
        var r := Split(s, sep);
        if |rest| == 1 {
          assert r == [[s[0]] + rest[0]];
        } else {
          assert r[1..] == rest[1..];
          assert Join(rest, sep) == rest[0] + [sep] + Join(rest[1..], sep);
        }
      }
    }
  }

  /** A string without the separator splits into itself alone. */
  lemma {:induction false} SplitFree(s: string, sep: char)
    requires sep !in s
    ensures Split(s, sep) == [s]
    decreases |s|
  {
    if s != [] {
      SplitFree(s[1..], sep);
      assert [s[0]] + s[1..] == s;
    }
  }

  /** A separator-free prefix joins the first part of the split; the rest is unchanged. */
  lemma {:induction false} SplitPrefix(p: string, s: string, sep: char)
    requires sep !in p
    ensures Split(p + s, sep) == [p + Split(s, sep)[0]] + Split(s, sep)[1..]
    decreases |p|
  {
    if p != [] {
      var tail := Split(s, sep);
      SplitPrefix(p[1..], s, sep);
      assert (p + s)[1..] == p[1..] + s;
      var rest := Split(p[1..] + s, sep);
      assert rest[0] == p[1..] + tail[0] && rest[1..] == tail[1..];
      assert (p + s)[0] == p[0] != sep;
      assert Split(p + s, sep) == [[p[0]] + rest[0]] + rest[1..];
      assert [p[0]] + (p[1..] + tail[0]) == p + tail[0];
    } else {
      var tail := Split(s, sep);
      assert p + s == s && p + tail[0] == tail[0];
      assert tail == [tail[0]] + tail[1..];
    }
  }

  /** No part of a split holds the separator. */
  lemma {:induction false} SplitPartsFree(s: string, sep: char)
    ensures forall i :: 0 <= i < |Split(s, sep)| ==> sep !in Split(s, sep)[i]
    decreases |s|
  {
    if s != [] {
      SplitPartsFree(s[1..], sep);
    }
  }

  // ----- decimal numbers -----

  predicate IsDigit(c: char) { '0' <= c <= '9' }

  function DigitChar(d: nat): (c: char)
    requires d < 10
    ensures IsDigit(c) && c as int - '0' as int == d
  {
    (d + '0' as int) as char
  }

  /** `String(n)` / `${n}` for a non-negative integer: its decimal digits. */
  function NatToString(n: nat): (r: string)
    ensures |r| >= 1
    ensures forall i :: 0 <= i < |r| ==> IsDigit(r[i])
    decreases n
  {
    if n < 10 then [DigitChar(n)] else NatToString(n / 10) + [DigitChar(n % 10)]
  }

  /** The value of a string of decimal digits. */
  function ParseDecimal(s: string): nat
    requires forall i :: 0 <= i < |s| ==> IsDigit(s[i])
    decreases |s|
  {
    if s == [] then 0
    else 10 * ParseDecimal(s[..|s| - 1]) + DigitValue(s[|s| - 1])
  }

  function DigitValue(c: char): nat
    requires IsDigit(c)
  {
    c as int - '0' as int
  }

  /** Rendering a number in decimal and reading it back gives the number. */
  lemma {:induction false} ParseNatToString(n: nat)
    ensures ParseDecimal(NatToString(n)) == n
    decreases n
  {
    if n >= 10 {
      ParseNatToString(n / 10);
      var s := NatToString(n);
      assert s[..|s| - 1] == NatToString(n / 10);
    }
  }

  /** Distinct numbers render differently. */
  lemma NatToStringInjective(m: nat, n: nat)
    requires NatToString(m) == NatToString(n)
    ensures m == n
  {
    ParseNatToString(m);
    ParseNatToString(n);
  }

  /** Python's `str(n)` for any integer. */
  function IntToString(n: int): (r: string)
    ensures |r| >= 1
  {
    if n < 0 then "-" + NatToString(-n) else NatToString(n)
  }

  // ----- clamped substring and slice -----

  function Clamp(i: int, len: nat): (r: nat)
    ensures r <= len
  {
    if i < 0 then 0 else if i > len then len else i
  }

  /** `s.substring(start, end)`: both ends clamped to `[0, |s|]`, swapped if reversed. */
  function Substring(s: string, start: int, end: int): string {
    var a, b := Clamp(start, |s|), Clamp(end, |s|);
    if a <= b then s[a..b] else s[b..a]
  }

  /** `s.substring(start)`. */
  function SubstringFrom(s: string, start: int): string {
    Substring(s, start, |s|)
  }

  /** A `slice` index: negative counts from the end, then clamped. */
  function SliceIndex(i: int, len: nat): nat {
    if i < 0 then Clamp(len + i, len) else Clamp(i, len)
  }

  /** `s.slice(start, end)`: empty when the resolved start is not before the end. */
  function Slice(s: string, start: int, end: int): string {
    var a, b := SliceIndex(start, |s|), SliceIndex(end, |s|);
    if a < b then s[a..b] else ""
  }

  /** `s.slice(start)`. */
  function SliceFrom(s: string, start: int): string {
    s[SliceIndex(start, |s|)..]
  }

  // ----- ASCII case folding, as the `i` flag does for ASCII letters -----

  function LowerChar(c: char): char {
    if 'A' <= c <= 'Z' then (c as int + 32) as char else c
  }

  function Lower(s: string): (r: string)
    ensures |r| == |s|
    ensures forall i :: 0 <= i < |s| ==> r[i] == LowerChar(s[i])
  {
    seq(|s|, i requires 0 <= i < |s| => LowerChar(s[i]))
  }

  /** Case-insensitive substring test of a regular-expression alternative under `/i`. */
  predicate ContainsIgnoreCase(s: string, word: string) {
    Contains(Lower(s), Lower(word))
  }

  // ----- sums -----

  /** `values.reduce((a, b) => a + b, 0)`. */
  function Sum(values: seq<int>): int
    decreases |values|
  {
    if values == [] then 0 else Sum(values[..|values| - 1]) + values[|values| - 1]
  }
}
