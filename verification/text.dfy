/**
 * String helpers with the meaning of the Python builtins the source leans on:
 * strip(), lower(), `in`, startswith/endswith, find/replace, rstrip(c),
 * re.split on a character class, slicing with a possibly negative bound,
 * str(int) and int(str).
 *
 * Whitespace is the ASCII part of Python's whitespace set and lower-casing
 * is ASCII lower-casing; Python's Unicode tables are not modelled.
 */
module Text {
  import opened Wrappers

  /**
   * The ASCII characters for which Python's str.isspace() holds, and so
   * the ones str.strip(), str.split(), int() and `\s` treat as whitespace:
   * space, tab, line feed, vertical tab, form feed, carriage return and the
   * four separators 0x1C to 0x1F.
   */
  predicate IsSpace(c: char) {
    || c == ' ' || c == '\t' || c == '\n' || c == '\r' || c == '\U{000B}' || c == '\U{000C}'
    || ('\U{001C}' <= c <= '\U{001F}')
  }

  predicate Blank(s: string) {
    forall i :: 0 <= i < |s| ==> IsSpace(s[i])
  }

  /** Number of whitespace characters at the front of `s`. */
  function LeadingSpaces(s: string): (n: nat)
    ensures n <= |s|
    ensures Blank(s[..n])
    ensures n < |s| ==> !IsSpace(s[n])
  {
    if |s| > 0 && IsSpace(s[0]) then 1 + LeadingSpaces(s[1..]) else 0
  }

  /** Length of `s` once its trailing whitespace is removed. */
  function TrailingEnd(s: string): (n: nat)
    ensures n <= |s|
    ensures Blank(s[n..])
    ensures n > 0 ==> !IsSpace(s[n - 1])
  {
    if |s| > 0 && IsSpace(s[|s| - 1]) then
      var n := TrailingEnd(s[..|s| - 1]);
      assert s[n..] == s[..|s| - 1][n..] + [s[|s| - 1]];
      n
    else |s|
  }

  /** No whitespace at either end. */
  predicate Trimmed(s: string) {
    |s| > 0 ==> !IsSpace(s[0]) && !IsSpace(s[|s| - 1])
  }

  /** Python's `s.strip()`. */
  function Strip(s: string): (r: string)
    ensures LeadingSpaces(s) + |r| <= |s|
    ensures r == s[LeadingSpaces(s)..LeadingSpaces(s) + |r|]
    ensures Blank(s[..LeadingSpaces(s)]) && Blank(s[LeadingSpaces(s) + |r|..])
    ensures Trimmed(r)
  {
    var l := LeadingSpaces(s);
    var t := s[l..];
    var e := TrailingEnd(t);
    assert t[e..] == s[l + e..];
    t[..e]
  }

  lemma BlankConcat(a: string, b: string)
    requires Blank(a) && Blank(b)
    ensures Blank(a + b)
  {}

  lemma LeadingSpacesOfBlank(s: string)
    requires Blank(s)
    ensures LeadingSpaces(s) == |s|
  {}

  lemma StripBlank(s: string)
    ensures Strip(s) == [] <==> Blank(s)
  {
    var l := LeadingSpaces(s);
    if Strip(s) == [] {
      BlankConcat(s[..l], s[l..]);
      assert s == s[..l] + s[l..];
    }
    if Blank(s) {
      LeadingSpacesOfBlank(s);
    }
  }

  /** A string with no whitespace at either end is its own strip. */
  lemma StripTrimmed(s: string)
    requires Trimmed(s)
    ensures Strip(s) == s
  {
    assert LeadingSpaces(s) == 0;
    assert s[0..] == s;
    assert TrailingEnd(s) == |s|;
  }

  lemma StripIdempotent(s: string)
    ensures Strip(Strip(s)) == Strip(s)
  {
    StripTrimmed(Strip(s));
  }

  function LowerChar(c: char): char {
    if 'A' <= c <= 'Z' then (c as int + 32) as char else c
  }

  /** Python's `s.lower()` on the ASCII range. */
  function Lower(s: string): (r: string)
    ensures |r| == |s|
    ensures forall i :: 0 <= i < |s| ==> r[i] == LowerChar(s[i])
  {
    seq(|s|, i requires 0 <= i < |s| => LowerChar(s[i]))
  }

  lemma LowerKeepsSpaces(s: string)
    ensures forall i :: 0 <= i < |s| ==> (IsSpace(Lower(s)[i]) <==> IsSpace(s[i]))
  {}

  lemma LowerIdempotent(s: string)
    ensures Lower(Lower(s)) == Lower(s)
  {}

  /** `(s or "").strip().lower()`, the normal form every voice-command test uses. */
  function Norm(s: string): string {
    Lower(Strip(s))
  }

  /** Normalising twice changes nothing more. */
  lemma NormIdempotent(s: string)
    ensures Norm(Norm(s)) == Norm(s)
  {
    var t := Strip(s);
    var u := Lower(t);
    LowerKeepsSpaces(t);
    if |u| > 0 {
      assert IsSpace(u[0]) <==> IsSpace(t[0]);
      assert IsSpace(u[|u| - 1]) <==> IsSpace(t[|t| - 1]);
    }
    StripTrimmed(u);
    LowerIdempotent(t);
  }

  lemma NormBlank(s: string)
    ensures Norm(s) == [] <==> Blank(s)
  {
    StripBlank(s);
  }

  predicate EndsWith(s: string, suffix: string) {
    |suffix| <= |s| && s[|s| - |suffix|..] == suffix
  }

  /** `sub` occurs in `s` starting at index `i`. */
  predicate OccursAt(s: string, sub: string, i: int) {
    0 <= i && i + |sub| <= |s| && s[i..i + |sub|] == sub
  }

  function FindFrom(s: string, sub: string, from: nat): (r: Option<nat>)
    decreases |s| - from
    ensures r.Some? ==> from <= r.value && OccursAt(s, sub, r.value)
    ensures r.Some? ==> forall j :: from <= j < r.value ==> !OccursAt(s, sub, j)
    ensures r.None? ==> forall j :: from <= j ==> !OccursAt(s, sub, j)
  {
    if from + |sub| > |s| then None
    else if s[from..from + |sub|] == sub then Some(from)
    else FindFrom(s, sub, from + 1)
  }

  /** Python's `s.find(sub)`, as an option: the first index where `sub` occurs. */
  function IndexOf(s: string, sub: string): (r: Option<nat>)
    ensures r.Some? ==> OccursAt(s, sub, r.value)
    ensures r.Some? ==> forall j :: 0 <= j < r.value ==> !OccursAt(s, sub, j)
    ensures r.None? ==> forall j :: !OccursAt(s, sub, j)
  {
    FindFrom(s, sub, 0)
  }

  /** Python's `sub in s`. */
  predicate Contains(s: string, sub: string) {
    IndexOf(s, sub).Some?
  }

  lemma ContainsAt(s: string, sub: string, i: int)
    requires OccursAt(s, sub, i)
    ensures Contains(s, sub)
  {}

  /** A one-character string occurs exactly when the character does. */
  lemma ContainsChar(s: string, c: char)
    ensures Contains(s, [c]) <==> c in s
  {
    if Contains(s, [c]) {
      var i := IndexOf(s, [c]).value;
      assert s[i] == s[i..i + 1][0] == c;
    }
    if c in s {
      var i :| 0 <= i < |s| && s[i] == c;
      assert s[i..i + 1] == [c];
      ContainsAt(s, [c], i);
    }
  }

  lemma PrefixContained(s: string, p: string)
    requires p <= s
    ensures Contains(s, p)
  {
    assert OccursAt(s, p, 0);
  }

  lemma SuffixContained(s: string, p: string)
    requires EndsWith(s, p)
    ensures Contains(s, p)
  {
    assert OccursAt(s, p, |s| - |p|);
  }

  /** Containment is transitive: a substring of a substring is a substring. */
  lemma ContainsTrans(s: string, a: string, b: string)
    requires Contains(s, a) && Contains(a, b)
    ensures Contains(s, b)
  {
    var i := IndexOf(s, a).value;
    var j := IndexOf(a, b).value;
    assert OccursAt(s, a, i) && OccursAt(a, b, j);
    forall k | 0 <= k < |b| ensures s[i + j + k] == b[k] {
      assert b[k] == a[j..j + |b|][k] == a[j + k];
      assert a[j + k] == s[i..i + |a|][j + k];
    }
    assert s[i + j..i + j + |b|] == b;
    ContainsAt(s, b, i + j);
  }

  /** Python's `s.replace(pat, rep, 1)`. */
  function ReplaceFirst(s: string, pat: string, rep: string): (r: string)
    ensures !Contains(s, pat) ==> r == s
    ensures Contains(s, pat) ==> var i := IndexOf(s, pat).value;
      r == s[..i] + rep + s[i + |pat|..]
  {
    match IndexOf(s, pat)
    case None => s
    case Some(i) => s[..i] + rep + s[i + |pat|..]
  }

  /** Python's `s.rstrip(c)` for a single character `c`. */
  function RStripChar(s: string, c: char): (r: string)
    ensures r <= s
    ensures |r| > 0 ==> r[|r| - 1] != c
    ensures forall i :: |r| <= i < |s| ==> s[i] == c
  {
    if |s| > 0 && s[|s| - 1] == c then RStripChar(s[..|s| - 1], c) else s
  }

  /** Length of the run of non-separator characters at the front of `s`. */
  function RunLength(s: string, isSep: char -> bool): (n: nat)
    requires |s| > 0 && !isSep(s[0])
    ensures 1 <= n <= |s|
    ensures forall i :: 0 <= i < n ==> !isSep(s[i])
    ensures n < |s| ==> isSep(s[n])
  {
    if |s| == 1 || isSep(s[1]) then 1 else 1 + RunLength(s[1..], isSep)
  }

  /**
   * The non-empty pieces of `re.split(r"[<sep>]+", s)`: the maximal runs of
   * characters that are not separators, in order.
   */
  function Words(s: string, isSep: char -> bool): seq<string>
    decreases |s|
  {
    if |s| == 0 then []
    else if isSep(s[0]) then Words(s[1..], isSep)
    else
      var n := RunLength(s, isSep);
      [s[..n]] + Words(s[n..], isSep)
  }

  /** What a suffix contains, the whole string contains. */
  lemma ContainsInSuffix(s: string, n: nat, w: string)
    requires n <= |s| && Contains(s[n..], w)
    ensures Contains(s, w)
  {
    var k := IndexOf(s[n..], w).value;
    assert s[n + k..n + k + |w|] == s[n..][k..k + |w|];
    ContainsAt(s, w, n + k);
  }

  /** Every word is a non-empty, separator-free substring of the string it came from. */
  lemma {:induction false} WordsAreSubstrings(s: string, isSep: char -> bool)
    ensures forall w :: w in Words(s, isSep) ==>
      |w| > 0 && Contains(s, w) && forall i :: 0 <= i < |w| ==> !isSep(w[i])
    decreases |s|
  {
    if |s| == 0 {
    } else if isSep(s[0]) {
      WordsAreSubstrings(s[1..], isSep);
      forall w | w in Words(s[1..], isSep) ensures Contains(s, w) {
        ContainsInSuffix(s, 1, w);
      }
    } else {
      var n := RunLength(s, isSep);
      WordsAreSubstrings(s[n..], isSep);
      PrefixContained(s, s[..n]);
      forall w | w in Words(s[n..], isSep) ensures Contains(s, w) {
        ContainsInSuffix(s, n, w);
      }
    }
  }

  /** A string with some non-separator character has at least one word. */
  lemma {:induction false} WordsNonEmpty(s: string, isSep: char -> bool, i: nat)
    requires i < |s| && !isSep(s[i])
    ensures |Words(s, isSep)| > 0
    decreases |s|
  {
    if isSep(s[0]) {
      WordsNonEmpty(s[1..], isSep, i - 1);
    }
  }

  /** Python's `s[:k]`, where a negative `k` counts from the end. */
  function SliceTo(s: string, k: int): (r: string)
    ensures r <= s
    ensures k >= 0 ==> |r| == if k < |s| then k else |s|
    ensures k < 0 ==> |r| == if |s| + k > 0 then |s| + k else 0
  {
    if k >= 0 then (if k < |s| then s[..k] else s)
    else if |s| + k > 0 then s[..|s| + k] else []
  }

  predicate IsDigit(c: char) {
    '0' <= c <= '9'
  }

  /** Python's `s.isdigit()` on the ASCII range: non-empty and all digits. */
  predicate AllDigits(s: string) {
    |s| > 0 && forall i :: 0 <= i < |s| ==> IsDigit(s[i])
  }

  function DigitChar(d: nat): char
    requires d < 10
  {
    ('0' as int + d) as char
  }

  function DigitValue(c: char): nat
    requires IsDigit(c)
  {
    c as int - '0' as int
  }

  /** The number a string of decimal digits denotes. */
  function DigitsValue(s: string): nat
    requires forall i :: 0 <= i < |s| ==> IsDigit(s[i])
  {
    if |s| == 0 then 0 else 10 * DigitsValue(s[..|s| - 1]) + DigitValue(s[|s| - 1])
  }

  /** Python's `str(n)` for a natural number. */
  function NatToString(n: nat): (r: string)
    ensures AllDigits(r)
    ensures r[0] != '0' || n == 0
  {
    if n < 10 then [DigitChar(n)] else NatToString(n / 10) + [DigitChar(n % 10)]
  }

  /** Python's `str(i)` for an integer. */
  function IntToString(i: int): string {
    if i < 0 then "-" + NatToString(-i) else NatToString(i)
  }

  lemma {:induction false} NatToStringValue(n: nat)
    ensures DigitsValue(NatToString(n)) == n
  {
    if n >= 10 {
      var s := NatToString(n);
      assert s[..|s| - 1] == NatToString(n / 10);
      NatToStringValue(n / 10);
    }
  }

  /** Distinct numbers print differently. */
  lemma NatToStringInjective(m: nat, n: nat)
    requires NatToString(m) == NatToString(n)
    ensures m == n
  {
    NatToStringValue(m);
    NatToStringValue(n);
  }

  /**
   * Python's `int(s)` for a string: surrounding whitespace, one optional sign
   * and at least one ASCII digit; anything else raises ValueError (None here).
   * Underscore digit separators are not accepted by this model.
   */
  function ParseInt(s: string): (r: Option<int>)
    ensures r.Some? ==> |Strip(s)| > 0
  {
    var t := Strip(s);
    if |t| > 0 && (t[0] == '-' || t[0] == '+') then
      (if AllDigits(t[1..]) then
         Some(if t[0] == '-' then -(DigitsValue(t[1..]) as int) else DigitsValue(t[1..]))
       else None)
    else if AllDigits(t) then Some(DigitsValue(t))
    else None
  }

  /** Printing an integer and parsing it back gives the integer. */
  lemma ParseIntToString(i: int)
    ensures ParseInt(IntToString(i)) == Some(i)
  {
    var s := IntToString(i);
    if i < 0 {
      ParseNegative(s, -i);
    } else {
      assert IsDigit(s[0]) && IsDigit(s[|s| - 1]);
      ParseDigits(s);
      NatToStringValue(i);
    }
  }

  lemma ParseNegative(s: string, n: nat)
    requires s == "-" + NatToString(n)
    ensures ParseInt(s) == Some(-(n as int))
  {
    assert s[1..] == NatToString(n);
    assert IsDigit(s[|s| - 1]);
    NatToStringValue(n);
    ParseSignedDigits(s);
  }

  lemma ParseDigits(s: string)
    requires AllDigits(s) && Trimmed(s)
    ensures ParseInt(s) == Some(DigitsValue(s))
  {
    StripTrimmed(s);
    assert IsDigit(s[0]);
  }

  lemma ParseSignedDigits(s: string)
    requires |s| > 0 && s[0] == '-' && AllDigits(s[1..]) && Trimmed(s)
    ensures ParseInt(s) == Some(-(DigitsValue(s[1..]) as int))
  {
    StripTrimmed(s);
  }

}
