/**
 * The handful of Go `strings`, `bytes` and `strconv` operations the relay
 * engine relies on, written over `seq<char>`. One character stands for one
 * byte and one rune, which is exact for ASCII text.
 */
module Strings {

  predicate HasPrefix(s: string, prefix: string)
  {
    |prefix| <= |s| && s[..|prefix|] == prefix
  }

  predicate HasSuffix(s: string, suffix: string)
  {
    |suffix| <= |s| && s[|s| - |suffix|..] == suffix
  }

  /** strings.TrimPrefix: drops `prefix` once when `s` starts with it. */
  function TrimPrefix(s: string, prefix: string): (r: string)
    ensures HasPrefix(s, prefix) ==> prefix + r == s
    ensures !HasPrefix(s, prefix) ==> r == s
  {
    if HasPrefix(s, prefix) then s[|prefix|..] else s
  }

  /** strings.TrimSuffix: drops `suffix` once when `s` ends with it. */
  function TrimSuffix(s: string, suffix: string): (r: string)
    ensures HasSuffix(s, suffix) ==> r + suffix == s
    ensures !HasSuffix(s, suffix) ==> r == s
  {
    if HasSuffix(s, suffix) then s[..|s| - |suffix|] else s
  }

  // ---------------------------------------------------------------------
  // Case folding (strings.ToLower, restricted to the ASCII letters)

  function LowerChar(c: char): char
  {
    if 'A' <= c <= 'Z' then (c as int + 32) as char else c
  }

  function Lower(s: string): (r: string)
    ensures |r| == |s|
  {
    seq(|s|, i requires 0 <= i < |s| => LowerChar(s[i]))
  }

  predicate IsLower(s: string)
  {
    forall i :: 0 <= i < |s| ==> LowerChar(s[i]) == s[i]
  }

  lemma LowerIsLower(s: string)
    ensures IsLower(Lower(s))
    ensures Lower(Lower(s)) == Lower(s)
  {
    forall i | 0 <= i < |s| ensures LowerChar(LowerChar(s[i])) == LowerChar(s[i]) {
    }
  }

  lemma LowerOfLower(s: string)
    requires IsLower(s)
    ensures Lower(s) == s
  {
  }

  /** Lower-casing commutes with taking a slice. */
  lemma LowerSlice(s: string, i: nat, j: nat)
    requires i <= j <= |s|
    ensures Lower(s)[i..j] == Lower(s[i..j])
  {
  }

  // ---------------------------------------------------------------------
  // White space trimming (bytes.TrimSpace)

  /** unicode.IsSpace: the ASCII white space characters and Unicode's Z category spaces. */
  predicate IsSpace(c: char)
  {
    c == ' ' || c == '\t' || c == '\n' || c == '\r' || c == '\U{000B}' || c == '\U{000C}'
    || c == '\U{0085}' || c == '\U{00A0}' || c == '\U{1680}' || ('\U{2000}' <= c <= '\U{200A}')
    || c == '\U{2028}' || c == '\U{2029}' || c == '\U{202F}' || c == '\U{205F}' || c == '\U{3000}'
  }

  function TrimLeftSpace(s: string): (r: string)
    ensures |r| <= |s| && r == s[|s| - |r|..]
    ensures forall k :: 0 <= k < |s| - |r| ==> IsSpace(s[k])
    ensures r == [] || !IsSpace(r[0])
    decreases |s|
  {
    if |s| > 0 && IsSpace(s[0]) then TrimLeftSpace(s[1..]) else s
  }

  function TrimRightSpace(s: string): (r: string)
    ensures |r| <= |s| && r == s[..|r|]
    ensures forall k :: |r| <= k < |s| ==> IsSpace(s[k])
    ensures r == [] || !IsSpace(r[|r| - 1])
    decreases |s|
  {
    if |s| > 0 && IsSpace(s[|s| - 1]) then TrimRightSpace(s[..|s| - 1]) else s
  }

  function TrimSpace(s: string): (r: string)
  {
    TrimRightSpace(TrimLeftSpace(s))
  }

  /** The number of white space characters TrimSpace drops at the front. */
  function LeadingSpace(s: string): nat
  {
    |s| - |TrimLeftSpace(s)|
  }

  /** The trimmed string is a slice of the input framed by white space only, and has no white space at either end. */
  lemma TrimSpaceIsCore(s: string)
    ensures LeadingSpace(s) + |TrimSpace(s)| <= |s|
    ensures TrimSpace(s) == s[LeadingSpace(s)..LeadingSpace(s) + |TrimSpace(s)|]
    ensures forall k :: 0 <= k < LeadingSpace(s) ==> IsSpace(s[k])
    ensures forall k :: LeadingSpace(s) + |TrimSpace(s)| <= k < |s| ==> IsSpace(s[k])
    ensures TrimSpace(s) == [] || (!IsSpace(TrimSpace(s)[0]) && !IsSpace(TrimSpace(s)[|TrimSpace(s)| - 1]))
  {
    TrimSpaceSlice(s);
    TrimSpaceTrailing(s);
    TrimSpaceEnds(s);
  }

  /** What TrimSpace keeps is the slice after the leading white space. */
  lemma TrimSpaceSlice(s: string)
    ensures LeadingSpace(s) + |TrimSpace(s)| <= |s|
    ensures TrimSpace(s) == s[LeadingSpace(s)..LeadingSpace(s) + |TrimSpace(s)|]
  {
    var l := TrimLeftSpace(s);
    var r := TrimRightSpace(l);
    var lead := |s| - |l|;
    assert l == s[lead..];
    assert r == l[..|r|];
    assert |r| <= |l|;
    assert s[lead..][..|r|] == s[lead..lead + |r|];
  }

  /** Everything after what TrimSpace keeps is white space. */
  lemma TrimSpaceTrailing(s: string)
    ensures LeadingSpace(s) + |TrimSpace(s)| <= |s|
    ensures forall k :: LeadingSpace(s) + |TrimSpace(s)| <= k < |s| ==> IsSpace(s[k])
  {
    var l := TrimLeftSpace(s);
    var r := TrimRightSpace(l);
    var lead := |s| - |l|;
    assert l == s[lead..];
    forall k | lead + |r| <= k < |s| ensures IsSpace(s[k]) {
      assert s[k] == l[k - lead];
    }
  }

  /** What TrimSpace keeps neither starts nor ends with white space. */
  lemma TrimSpaceEnds(s: string)
    ensures TrimSpace(s) == [] || (!IsSpace(TrimSpace(s)[0]) && !IsSpace(TrimSpace(s)[|TrimSpace(s)| - 1]))
  {
    var l := TrimLeftSpace(s);
    var r := TrimRightSpace(l);
    if r != [] {
      assert r[0] == l[0];
    }
  }


  lemma SliceOfLower(s: string, i: nat, j: nat)
    requires IsLower(s) && i <= j <= |s|
    ensures IsLower(s[i..j])
  {
  }

  // ---------------------------------------------------------------------
  // Searching and replacing

  /** strings.Split(s, [c])[0]: everything before the first `c`, or all of `s`. */
  function BeforeFirst(s: string, c: char): (r: string)
    ensures |r| <= |s| && r == s[..|r|]
    ensures c !in r
    ensures |r| < |s| ==> s[|r|] == c
    decreases |s|
  {
    if s == [] then []
    else if s[0] == c then []
    else [s[0]] + BeforeFirst(s[1..], c)
  }

  /** Extending a string that already holds `c` does not move its first `c`. */
  lemma {:induction false} BeforeFirstOfExtension(s: string, t: string, c: char)
    requires c in s
    ensures BeforeFirst(s + t, c) == BeforeFirst(s, c)
    decreases |s|
  {
    assert (s + t)[0] == s[0];
    if s[0] != c {
      assert (s + t)[1..] == s[1..] + t;
      BeforeFirstOfExtension(s[1..], t, c);
    }
  }

  /** strings.Replace(s, [c], "", -1): every `c` removed. */
  function RemoveChar(s: string, c: char): (r: string)
    ensures c !in r
    ensures forall x :: x in r <==> x in s && x != c
    ensures c !in s ==> r == s
    decreases |s|
  {
    if s == [] then []
    else if s[0] == c then RemoveChar(s[1..], c)
    else [s[0]] + RemoveChar(s[1..], c)
  }

  /** The first `c` of `s + [c] + t`, for `s` without `c`, is the one after `s`. */
  lemma {:induction false} BeforeFirstAt(s: string, c: char, t: string)
    requires c !in s
    ensures BeforeFirst(s + [c] + t, c) == s
    decreases |s|
  {
    var u := s + [c] + t;
    if s == [] {
      assert u[0] == c;
    } else {
      assert u[0] == s[0];
      assert u[1..] == s[1..] + [c] + t;
      BeforeFirstAt(s[1..], c, t);
    }
  }

  /** Removing the one `c` between two strings without `c` joins them. */
  lemma {:induction false} RemoveSingleChar(a: string, c: char, b: string)
    requires c !in a && c !in b
    ensures RemoveChar(a + [c] + b, c) == a + b
    decreases |a|
  {
    var s := a + [c] + b;
    if a == [] {
      assert s[0] == c && s[1..] == b;
    } else {
      assert s[0] == a[0] && s[1..] == a[1..] + [c] + b;
      RemoveSingleChar(a[1..], c, b);
      assert [a[0]] + (a[1..] + b) == a + b;
    }
  }

  /**
   * strings.Replace(s, pattern, replacement, -1) for a non-empty pattern:
   * the occurrences are found left to right and do not overlap.
   */
  function ReplaceAll(s: string, pattern: string, replacement: string): string
    requires |pattern| > 0
    decreases |s|
  {
    if |s| < |pattern| then s
    else if s[..|pattern|] == pattern then replacement + ReplaceAll(s[|pattern|..], pattern, replacement)
    else [s[0]] + ReplaceAll(s[1..], pattern, replacement)
  }

  /** `w` occurs in `s` starting at offset `i`. */
  predicate OccursAt(s: string, w: string, i: nat)
  {
    i + |w| <= |s| && s[i..i + |w|] == w
  }

  ghost predicate Contains(s: string, pattern: string)
  {
    exists i: nat :: OccursAt(s, pattern, i)
  }

  /** Replacing a pattern that does not occur changes nothing. */
  lemma {:induction false} ReplaceAllAbsent(s: string, pattern: string, replacement: string)
    requires |pattern| > 0
    requires !Contains(s, pattern)
    ensures ReplaceAll(s, pattern, replacement) == s
    decreases |s|
  {
    if |s| < |pattern| {
    } else {
      assert !OccursAt(s, pattern, 0);
      assert s[0..|pattern|] == s[..|pattern|];
      if Contains(s[1..], pattern) {
        var i: nat :| OccursAt(s[1..], pattern, i);
        assert s[1..][i..i + |pattern|] == s[i + 1..i + 1 + |pattern|];
        assert OccursAt(s, pattern, i + 1);
        assert false;
      }
      ReplaceAllAbsent(s[1..], pattern, replacement);
    }
  }

  /** A prefix in which the pattern's first character does not occur survives the replacement. */
  lemma {:induction false} ReplaceAllKeepsPrefix(s: string, prefix: string, pattern: string, replacement: string)
    requires |pattern| > 0 && HasPrefix(s, prefix) && pattern[0] !in prefix
    ensures HasPrefix(ReplaceAll(s, pattern, replacement), prefix)
    decreases |prefix|
  {
    if prefix != [] {
      assert s[0] == prefix[0];
      if |s| < |pattern| {
      } else {
        assert s[..|pattern|][0] == s[0];
        assert s[..|pattern|] != pattern;
        assert HasPrefix(s[1..], prefix[1..]);
        ReplaceAllKeepsPrefix(s[1..], prefix[1..], pattern, replacement);
      }
    }
  }

  /** Replacing with a replacement at least as long as the pattern never shortens the string. */
  lemma {:induction false} ReplaceAllGrows(s: string, pattern: string, replacement: string)
    requires 0 < |pattern| <= |replacement|
    ensures |ReplaceAll(s, pattern, replacement)| >= |s|
    decreases |s|
  {
    if |s| >= |pattern| {
      if s[..|pattern|] == pattern {
        ReplaceAllGrows(s[|pattern|..], pattern, replacement);
      } else {
        ReplaceAllGrows(s[1..], pattern, replacement);
      }
    }
  }

  /** strings.Join. */
  function Join(parts: seq<string>, sep: string): string
  {
    if parts == [] then []
    else if |parts| == 1 then parts[0]
    else parts[0] + sep + Join(parts[1..], sep)
  }

  /** Joining a first part and a non-empty rest puts one separator between them. */
  lemma JoinCons(part: string, rest: seq<string>, sep: string)
    requires rest != []
    ensures Join([part] + rest, sep) == part + sep + Join(rest, sep)
  {
    assert ([part] + rest)[1..] == rest;
  }

  // ---------------------------------------------------------------------
  // Decimal numbers (fmt's %d and strconv.Atoi on a 64-bit platform)

  const MaxInt64: int := 0x7FFF_FFFF_FFFF_FFFF
  const MinInt64: int := -0x8000_0000_0000_0000

  predicate IsDigit(c: char) { '0' <= c <= '9' }

  predicate AllDigits(s: string)
  {
    forall i :: 0 <= i < |s| ==> IsDigit(s[i])
  }

  function DigitValue(c: char): nat
    requires IsDigit(c)
  {
    c as int - '0' as int
  }

  function DigitChar(d: nat): (c: char)
    requires d < 10
    ensures IsDigit(c) && DigitValue(c) == d
  {
    ('0' as int + d) as char
  }

  /** The value of a string of decimal digits, most significant first. */
  function DigitsValue(s: string): nat
    requires AllDigits(s)
    decreases |s|
  {
    if s == [] then 0 else DigitsValue(s[..|s| - 1]) * 10 + DigitValue(s[|s| - 1])
  }

  /** fmt's %d of a non-negative integer. */
  function NatToDecimal(n: nat): (s: string)
    ensures |s| > 0 && AllDigits(s)
  {
    if n < 10 then [DigitChar(n)] else NatToDecimal(n / 10) + [DigitChar(n % 10)]
  }

  lemma {:induction false} NatToDecimalValue(n: nat)
    ensures DigitsValue(NatToDecimal(n)) == n
  {
    var s := NatToDecimal(n);
    if n >= 10 {
      NatToDecimalValue(n / 10);
      assert s[..|s| - 1] == NatToDecimal(n / 10);
    }
  }

  function Clamp64(v: int): int
  {
    if v > MaxInt64 then MaxInt64 else if v < MinInt64 then MinInt64 else v
  }

  const MaxUint64: int := 0xFFFF_FFFF_FFFF_FFFF

  /** The decimal digits a string starts with. */
  function LeadingDigits(t: string): (r: string)
    ensures |r| <= |t| && r == t[..|r|] && AllDigits(r)
    ensures |r| < |t| ==> !IsDigit(t[|r|])
    decreases |t|
  {
    if t == [] || !IsDigit(t[0]) then [] else [t[0]] + LeadingDigits(t[1..])
  }

  /**
   * Whether ParseUint accepts the unsigned part `t` (overflow included): a
   * non-empty digit run that is either all of `t` or already beyond the
   * uint64 range when the first later byte would be read.
   */
  predicate UnsignedParses(t: string)
  {
    var run := LeadingDigits(t);
    run != [] && (run == t || DigitsValue(run) > MaxUint64)
  }

  /**
   * strconv.Atoi with its error ignored, on a 64-bit platform. After an
   * optional sign the digits are read one by one (ParseUint): a non-digit
   * gives 0, but once the digits read so far exceed the uint64 range the
   * parse stops there and ParseInt saturates, whatever follows. A string
   * of sign and digits alone gives its value, saturated to the int64 range.
   */
  function Atoi(s: string): (v: int)
    ensures MinInt64 <= v <= MaxInt64
  {
    var negative := |s| > 0 && s[0] == '-';
    var t := if |s| > 0 && (s[0] == '+' || s[0] == '-') then s[1..] else s;
    if UnsignedParses(t) then
      var magnitude: int := DigitsValue(LeadingDigits(t));
      Clamp64(if negative then -magnitude else magnitude)
    else 0
  }

  /** A string that is all digits is its own leading run. */
  lemma {:induction false} LeadingDigitsOfDigits(d: string)
    requires AllDigits(d)
    ensures LeadingDigits(d) == d
    decreases |d|
  {
    if d != [] {
      assert AllDigits(d[1..]) by { assert forall i :: 0 <= i < |d[1..]| ==> d[1..][i] == d[i + 1]; }
      LeadingDigitsOfDigits(d[1..]);
      assert d == [d[0]] + d[1..];
    }
  }

  /** Digits in front extend the leading run. */
  lemma {:induction false} LeadingDigitsAppend(d: string, t: string)
    requires AllDigits(d)
    ensures LeadingDigits(d + t) == d + LeadingDigits(t)
    decreases |d|
  {
    if d == [] {
      assert d + t == t;
    } else {
      var dt := d + t;
      assert dt[0] == d[0] && IsDigit(dt[0]);
      assert dt[1..] == d[1..] + t;
      assert AllDigits(d[1..]) by { assert forall i :: 0 <= i < |d[1..]| ==> d[1..][i] == d[i + 1]; }
      assert LeadingDigits(dt) == [d[0]] + LeadingDigits(d[1..] + t);
      LeadingDigitsAppend(d[1..], t);
      assert [d[0]] + (d[1..] + LeadingDigits(t)) == d + LeadingDigits(t);
    }
  }

  /** More digits after a run never make it worth less. */
  lemma {:induction false} DigitsValueGrows(d: string, e: string)
    requires AllDigits(d) && AllDigits(e)
    ensures AllDigits(d + e) && DigitsValue(d) <= DigitsValue(d + e)
    decreases |e|
  {
    assert AllDigits(d + e) by {
      forall i | 0 <= i < |d + e| ensures IsDigit((d + e)[i]) {
        if i < |d| { assert (d + e)[i] == d[i]; } else { assert (d + e)[i] == e[i - |d|]; }
      }
    }
    if e == [] {
      assert d + e == d;
    } else {
      var e' := e[..|e| - 1];
      assert AllDigits(e') by { assert forall i :: 0 <= i < |e'| ==> e'[i] == e[i]; }
      DigitsValueGrows(d, e');
      var de := d + e;
      assert de[..|de| - 1] == d + e';
      var x := DigitsValue(d + e');
      assert DigitsValue(de) == x * 10 + DigitValue(de[|de| - 1]);
    }
  }

  /** A run worth more than the uint64 range, whatever follows it, is parsed (as an overflow). */
  lemma OverflowingRunParses(d: string, t: string)
    requires AllDigits(d) && DigitsValue(d) > MaxUint64
    ensures UnsignedParses(d + t) && DigitsValue(LeadingDigits(d + t)) > MaxUint64
  {
    LeadingDigitsAppend(d, t);
    DigitsValueGrows(d, LeadingDigits(t));
    assert d != [];
  }

  /** Atoi of a string that starts with a digit: the unsigned parse, saturated. */
  lemma AtoiUnsigned(u: string)
    requires u != [] && IsDigit(u[0])
    ensures Atoi(u) == if UnsignedParses(u) then Clamp64(DigitsValue(LeadingDigits(u))) else 0
  {
  }

  /** Atoi after a minus sign: the negated unsigned parse, saturated. */
  lemma AtoiMinus(u: string)
    ensures Atoi("-" + u) == if UnsignedParses(u) then Clamp64(-(DigitsValue(LeadingDigits(u)) as int)) else 0
  {
    var s := "-" + u;
    assert s[0] == '-' && s[1..] == u;
  }

  /**
   * A digit run worth more than the uint64 range saturates Atoi, whatever
   * follows it: ParseUint stops at the overflowing digit.
   */
  lemma AtoiSaturates(d: string, t: string)
    requires AllDigits(d) && DigitsValue(d) > MaxUint64
    ensures Atoi(d + t) == MaxInt64
  {
    OverflowingRunParses(d, t);
    assert d != [] && (d + t)[0] == d[0];
    AtoiUnsigned(d + t);
  }

  /** After a minus sign, the same run saturates to the least int64. */
  lemma AtoiSaturatesNegative(d: string, t: string)
    requires AllDigits(d) && DigitsValue(d) > MaxUint64
    ensures Atoi("-" + d + t) == MinInt64
  {
    OverflowingRunParses(d, t);
    AtoiMinus(d + t);
    assert "-" + d + t == "-" + (d + t);
  }

  /** A digit run within the uint64 range followed by a non-digit is not a number: Atoi gives 0. */
  lemma AtoiRejectsTrailing(d: string, c: char, t: string)
    requires d != [] && AllDigits(d) && DigitsValue(d) <= MaxUint64 && !IsDigit(c)
    ensures Atoi(d + [c] + t) == 0
  {
    var u := [c] + t;
    assert d + [c] + t == d + u;
    TrailingStopsRun(d, u);
    assert (d + u)[0] == d[0];
    AtoiUnsigned(d + u);
  }

  /** The run ends at the non-digit, still within range, so ParseUint rejects the string. */
  lemma TrailingStopsRun(d: string, u: string)
    requires AllDigits(d) && DigitsValue(d) <= MaxUint64 && u != [] && !IsDigit(u[0])
    ensures !UnsignedParses(d + u)
  {
    LeadingDigitsAppend(d, u);
    assert LeadingDigits(u) == [];
    assert d + [] == d;
    assert LeadingDigits(d + u) == d;
    assert |d + u| > |d|;
  }

  /** Printing a count with %d and parsing it back with Atoi gives the count again. */
  lemma AtoiOfDecimal(n: nat)
    requires n <= MaxInt64
    ensures Atoi(NatToDecimal(n)) == n
  {
    NatToDecimalValue(n);
    var s := NatToDecimal(n);
    assert IsDigit(s[0]);
    LeadingDigitsOfDigits(s);
  }

  /** Strings without a single digit parse as 0. */
  lemma AtoiOfNonNumeric(s: string)
    requires forall i :: 0 <= i < |s| ==> !IsDigit(s[i])
    ensures Atoi(s) == 0
  {
    if |s| > 1 {
      assert !IsDigit(s[1..][0]);
    }
  }
}
