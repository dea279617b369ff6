/**
 * The JavaScript string and array built-ins the dashboard relies on, over
 * `string` (a sequence of Unicode scalar values):
 * `Number.prototype.toString` for natural numbers, `String.prototype.includes`,
 * `indexOf` and `replace` with a string pattern (first occurrence only),
 * `split` on a one-character separator, `trim`, and `Array.prototype.join`.
 */
module Text {
  import opened Wrappers

  // ---------------------------------------------------------------------------
  // Decimal rendering of counts
  // ---------------------------------------------------------------------------

  predicate IsDigit(c: char) {
    '0' <= c <= '9'
  }

  predicate AllDigits(s: string) {
    forall k :: 0 <= k < |s| ==> IsDigit(s[k])
  }

  function DigitChar(d: nat): (c: char)
    requires d < 10
    ensures IsDigit(c)
  {
    ['0', '1', '2', '3', '4', '5', '6', '7', '8', '9'][d]
  }

  function DigitValue(c: char): (d: nat)
    requires IsDigit(c)
    ensures d < 10 && DigitChar(d) == c
  {
    (c as int - '0' as int)
  }

  /** The decimal numeral JavaScript prints for a non-negative integer. */
  function NatToString(n: nat): (s: string)
    ensures |s| >= 1 && AllDigits(s)
    ensures |s| > 1 ==> s[0] != '0'
    decreases n
  {
    if n < 10 then [DigitChar(n)] else NatToString(n / 10) + [DigitChar(n % 10)]
  }

  /** The value of a decimal numeral (the reading direction of `NatToString`). */
  function ParseNat(s: string): nat
    requires AllDigits(s)
  {
    if |s| == 0 then 0 else 10 * ParseNat(s[..|s| - 1]) + DigitValue(s[|s| - 1])
  }

  /** Reading back a printed count gives the count. */
  lemma {:induction false} ParseNatToString(n: nat)
    ensures ParseNat(NatToString(n)) == n
    decreases n
  {
    var s := NatToString(n);
    if n >= 10 {
      ParseNatToString(n / 10);
      assert s[..|s| - 1] == NatToString(n / 10);
    }
  }

  /** The longest prefix of `s` made of digits. */
  function LeadingDigits(s: string): (d: string)
    ensures |d| <= |s| && d == s[..|d|] && AllDigits(d)
    ensures |d| < |s| ==> !IsDigit(s[|d|])
  {
    if |s| > 0 && IsDigit(s[0]) then [s[0]] + LeadingDigits(s[1..]) else ""
  }

  /** The number a label such as "3 datasets total" opens with. */
  function CountOfLabel(s: string): nat {
    ParseNat(LeadingDigits(s))
  }

  /** A numeral followed by a non-digit can be read back from the front of a label. */
  lemma {:induction false} CountOfLabelRoundTrip(n: nat, rest: string)
    requires |rest| == 0 || !IsDigit(rest[0])
    ensures CountOfLabel(NatToString(n) + rest) == n
  {
    LeadingDigitsOfNumeral(NatToString(n), rest);
    ParseNatToString(n);
  }

  lemma {:induction false} LeadingDigitsOfNumeral(num: string, rest: string)
    requires AllDigits(num)
    requires |rest| == 0 || !IsDigit(rest[0])
    ensures LeadingDigits(num + rest) == num
    decreases |num|
  {
    if |num| > 0 {
      assert (num + rest)[1..] == num[1..] + rest;
      LeadingDigitsOfNumeral(num[1..], rest);
    }
  }

  /** The English plural of a noun: "-is" becomes "-es" (analysis, analyses), else add "s". */
  function PluralNoun(noun: string): string {
    if |noun| >= 2 && noun[|noun| - 2..] == "is" then noun[..|noun| - 2] + "es" else noun + "s"
  }

  /** "n things" in English: the singular for exactly one, the plural otherwise. */
  function Inflect(n: nat, noun: string): string {
    NatToString(n) + " " + (if n == 1 then noun else PluralNoun(noun))
  }

  /** The count can be read back from the front of an inflected phrase. */
  lemma InflectCount(n: nat, noun: string, tail: string)
    ensures CountOfLabel(Inflect(n, noun) + tail) == n
  {
    var rest := " " + (if n == 1 then noun else PluralNoun(noun)) + tail;
    assert rest[0] == ' ';
    assert Inflect(n, noun) + tail == NatToString(n) + rest;
    CountOfLabelRoundTrip(n, rest);
  }

  // ---------------------------------------------------------------------------
  // Substring search and first-occurrence replacement
  // ---------------------------------------------------------------------------

  /** `t` occurs in `s` starting at position `i`. */
  predicate Occurs(s: string, t: string, i: int) {
    0 <= i && i + |t| <= |s| && s[i..i + |t|] == t
  }

  /** The first position at or after `k` where `t` occurs in `s`. */
  function IndexOfFrom(s: string, t: string, k: nat): (r: Option<nat>)
    ensures r.Some? ==> k <= r.value && Occurs(s, t, r.value)
    ensures r.Some? ==> forall j :: k <= j < r.value ==> !Occurs(s, t, j)
    ensures r.None? ==> forall j :: k <= j ==> !Occurs(s, t, j)
    decreases |s| - k
  {
    if k + |t| > |s| then None
    else if s[k..k + |t|] == t then Some(k)
    else IndexOfFrom(s, t, k + 1)
  }

  /** `String.prototype.indexOf`, with `None` for JavaScript's -1. */
  function IndexOf(s: string, t: string): (r: Option<nat>)
    ensures r.Some? ==> Occurs(s, t, r.value) && forall j :: 0 <= j < r.value ==> !Occurs(s, t, j)
    ensures r.None? ==> forall j :: !Occurs(s, t, j)
  {
    IndexOfFrom(s, t, 0)
  }

  /** `String.prototype.includes`. */
  predicate Includes(s: string, t: string) {
    IndexOf(s, t).Some?
  }

  /**
   * `String.prototype.replace` with a string pattern and a replacement
   * free of `$` patterns: only the first occurrence of `pat` is replaced,
   * and nothing changes when it is absent. (A `$&`, `$$` or similar in the
   * replacement would be expanded; the rewrite never passes one.)
   */
  function ReplaceFirst(s: string, pat: string, rep: string): (r: string)
    ensures !Includes(s, pat) ==> r == s
    ensures Includes(s, pat) ==>
      var i := IndexOf(s, pat).value;
      && Occurs(s, pat, i)
      && (forall j :: 0 <= j < i ==> !Occurs(s, pat, j))
      && |r| == |s| - |pat| + |rep|
      && r[..i] == s[..i]
      && r[i..i + |rep|] == rep
      && r[i + |rep|..] == s[i + |pat|..]
  {
    match IndexOf(s, pat)
    case None => s
    case Some(i) => s[..i] + rep + s[i + |pat|..]
  }

  /** A string that occurs in the middle piece occurs in the whole. */
  lemma IncludesInfix(a: string, b: string, c: string, t: string)
    requires Includes(b, t)
    ensures Includes(a + b + c, t)
  {
    var i := IndexOf(b, t).value;
    assert (a + b + c)[|a| + i..|a| + i + |t|] == b[i..i + |t|];
    assert Occurs(a + b + c, t, |a| + i);
  }

  // ---------------------------------------------------------------------------
  // Splitting on one character and joining with a separator
  // ---------------------------------------------------------------------------

  /** Number of occurrences of `c` in `s`. */
  function CountChar(s: string, c: char): nat {
    if |s| == 0 then 0 else (if s[0] == c then 1 else 0) + CountChar(s[1..], c)
  }

  /**
   * `String.prototype.split` with a one-character separator: the pieces between
   * separators, in order, keeping empty pieces; `""` splits into `[""]`.
   */
  function Split(s: string, c: char): (parts: seq<string>)
    ensures |parts| == CountChar(s, c) + 1
    ensures forall k :: 0 <= k < |parts| ==> c !in parts[k]
    decreases |s|
  {
    if |s| == 0 then [""]
    else
      var rest := Split(s[1..], c);
      if s[0] == c then [""] + rest
      else [[s[0]] + rest[0]] + rest[1..]
  }

  /** `Array.prototype.join`: the items in order with `sep` between neighbours. */
  function Join(xs: seq<string>, sep: string): string {
    if |xs| == 0 then ""
    else if |xs| == 1 then xs[0]
    else xs[0] + sep + Join(xs[1..], sep)
  }

  /** Joining the pieces of a split with the separator restores the string. */
  lemma {:induction false} JoinSplit(s: string, c: char)
    ensures Join(Split(s, c), [c]) == s
    decreases |s|
  {
    if |s| > 0 {
      var rest := Split(s[1..], c);
      JoinSplit(s[1..], c);
      if s[0] == c {
        assert Join([""] + rest, [c]) == "" + [c] + Join(rest, [c]);
        assert s == [s[0]] + s[1..];
      } else if |rest| == 1 {
        assert s == [s[0]] + s[1..];
      } else {
        var parts := [[s[0]] + rest[0]] + rest[1..];
        assert parts[1..] == rest[1..];
        assert Join(parts, [c]) == [s[0]] + rest[0] + [c] + Join(rest[1..], [c]);
        assert Join(rest, [c]) == rest[0] + [c] + Join(rest[1..], [c]);
        assert s == [s[0]] + s[1..];
      }
    }
  }

  lemma {:induction false} SplitNoSeparator(a: string, c: char)
    requires c !in a
    ensures Split(a, c) == [a]
    decreases |a|
  {
    if |a| > 0 {
      SplitNoSeparator(a[1..], c);
      assert a == [a[0]] + a[1..];
    }
  }

  lemma {:induction false} SplitAtSeparator(a: string, b: string, c: char)
    requires c !in a
    ensures Split(a + [c] + b, c) == [a] + Split(b, c)
    decreases |a|
  {
    var s := a + [c] + b;
    if |a| == 0 {
      assert s[1..] == b;
    } else {
      assert s[1..] == a[1..] + [c] + b;
      SplitAtSeparator(a[1..], b, c);
      assert a == [a[0]] + a[1..];
    }
  }

  /** Splitting a join restores the items when no item contains the separator. */
  lemma {:induction false} SplitJoin(xs: seq<string>, c: char)
    requires |xs| >= 1
    requires forall k :: 0 <= k < |xs| ==> c !in xs[k]
    ensures Split(Join(xs, [c]), c) == xs
    decreases |xs|
  {
    if |xs| == 1 {
      SplitNoSeparator(xs[0], c);
    } else {
      SplitJoin(xs[1..], c);
      SplitAtSeparator(xs[0], Join(xs[1..], [c]), c);
      assert xs == [xs[0]] + xs[1..];
    }
  }

  // ---------------------------------------------------------------------------
  // Trimming white space
  // ---------------------------------------------------------------------------

  /** The characters `String.prototype.trim` removes: WhiteSpace and LineTerminator. */
  predicate IsSpace(c: char) {
    c in SpaceChars || ('\U{2000}' <= c <= '\U{200A}')
  }

  const SpaceChars: set<char> := {
    '\t', '\n', '\U{000B}', '\U{000C}', '\r', ' ', '\U{00A0}', '\U{1680}',
    '\U{2028}', '\U{2029}', '\U{202F}', '\U{205F}', '\U{3000}', '\U{FEFF}'}

  /** `s` without its leading white space. */
  function TrimStart(s: string): (r: string)
    ensures |r| <= |s| && r == s[|s| - |r|..]
    ensures forall k :: 0 <= k < |s| - |r| ==> IsSpace(s[k])
    ensures |r| > 0 ==> !IsSpace(r[0])
  {
    if |s| > 0 && IsSpace(s[0]) then TrimStart(s[1..]) else s
  }

  /** `s` without its trailing white space. */
  function TrimEnd(s: string): (r: string)
    ensures |r| <= |s| && r == s[..|r|]
    ensures forall k :: |r| <= k < |s| ==> IsSpace(s[k])
    ensures |r| > 0 ==> !IsSpace(r[|r| - 1])
  {
    if |s| > 0 && IsSpace(s[|s| - 1]) then TrimEnd(s[..|s| - 1]) else s
  }

  /** `String.prototype.trim`. */
  function Trim(s: string): string {
    TrimEnd(TrimStart(s))
  }

  /** Where the trimmed text starts in the original. */
  function TrimOffset(s: string): nat {
    |s| - |TrimStart(s)|
  }

  /**
   * What trimming keeps: a contiguous piece of `s`, white space only outside
   * it, and no white space at either of its ends.
   */
  lemma TrimIsInnerPiece(s: string)
    ensures TrimOffset(s) + |Trim(s)| <= |s|
    ensures Trim(s) == s[TrimOffset(s)..TrimOffset(s) + |Trim(s)|]
    ensures forall k :: 0 <= k < TrimOffset(s) ==> IsSpace(s[k])
    ensures forall k :: TrimOffset(s) + |Trim(s)| <= k < |s| ==> IsSpace(s[k])
    ensures |Trim(s)| > 0 ==> !IsSpace(Trim(s)[0]) && !IsSpace(Trim(s)[|Trim(s)| - 1])
  {
    var t := TrimStart(s);
    var r := TrimEnd(t);
    var i := |s| - |t|;
    assert Trim(s) == r && TrimOffset(s) == i;
    assert t == s[i..];
    TrimPiece(s, t, r, i);
    TrimTailIsSpace(s, t, r, i);
    assert forall k :: 0 <= k < i ==> IsSpace(s[k]);
    assert |r| > 0 ==> !IsSpace(r[|r| - 1]);
  }

  lemma TrimPiece(s: string, t: string, r: string, i: nat)
    requires i <= |s| && t == s[i..] && r == TrimEnd(t)
    requires |t| > 0 ==> !IsSpace(t[0])
    ensures i + |r| <= |s| && r == s[i..i + |r|]
    ensures |r| > 0 ==> !IsSpace(r[0])
  {
    calc {
      s[i..i + |r|];
      s[i..][..|r|];
      t[..|r|];
      r;
    }
    if |r| > 0 {
      assert r[0] == t[0];
    }
  }

  lemma TrimTailIsSpace(s: string, t: string, r: string, i: nat)
    requires i <= |s| && t == s[i..] && r == TrimEnd(t)
    ensures forall k :: i + |r| <= k < |s| ==> IsSpace(s[k])
  {
    forall k | i + |r| <= k < |s|
      ensures IsSpace(s[k])
    {
      assert s[k] == t[k - i];
    }
  }

  /** A string with no white space at either end is its own trim. */
  lemma {:induction false} TrimUnpadded(s: string)
    requires |s| == 0 || (!IsSpace(s[0]) && !IsSpace(s[|s| - 1]))
    ensures Trim(s) == s
  {
  }

  /** Trimming twice is trimming once. */
  lemma TrimIdempotent(s: string)
    ensures Trim(Trim(s)) == Trim(s)
  {
    TrimIsInnerPiece(s);
    TrimUnpadded(Trim(s));
  }
}
