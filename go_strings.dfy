// The parts of Go's `strings` and `strconv` packages that the modelled code
// relies on, written out with their Go semantics (on Unicode scalar values,
// whose order agrees with the byte order of their UTF-8 encoding).
module GoStrings {
  import opened Wrappers

  // ---------------------------------------------------------------------
  // Split and Join on a one-character separator

  /** `strings.Split(s, string([c]))`: the pieces between occurrences of c.
      There is always at least one piece; the empty string gives [""]. */
  function Split(s: string, c: char): (r: seq<string>)
    ensures |r| >= 1
  {
    if |s| == 0 then [""]
    else if s[0] == c then [""] + Split(s[1..], c)
    else
      var rest := Split(s[1..], c);
      [[s[0]] + rest[0]] + rest[1..]
  }

  /** `strings.Join(parts, string([c]))`. */
  function Join(parts: seq<string>, c: char): string
  {
    if |parts| == 0 then ""
    else if |parts| == 1 then parts[0]
    else parts[0] + [c] + Join(parts[1..], c)
  }

  lemma {:induction false} JoinSplit(s: string, c: char)
    ensures Join(Split(s, c), c) == s
  {
    if |s| == 0 {
    } else if s[0] == c {
      JoinSplit(s[1..], c);
      assert s == [c] + s[1..];
    } else {
      JoinSplit(s[1..], c);
      var rest := Split(s[1..], c);
      if |rest| == 1 {
        assert Join(rest, c) == rest[0];
      } else {
        assert Join(rest, c) == rest[0] + [c] + Join(rest[1..], c);
        assert Split(s, c)[1..] == rest[1..];
      }
      assert s == [s[0]] + s[1..];
    }
  }

  lemma {:induction false} SplitPiecesHaveNoSeparator(s: string, c: char)
    ensures forall k :: 0 <= k < |Split(s, c)| ==> c !in Split(s, c)[k]
  {
    if |s| > 0 {
      SplitPiecesHaveNoSeparator(s[1..], c);
    }
  }

  lemma {:induction false} SplitPrepend(x: char, s: string, c: char)
    requires x != c
    ensures Split([x] + s, c) == [[x] + Split(s, c)[0]] + Split(s, c)[1..]
  {
    assert ([x] + s)[1..] == s;
  }

  lemma {:induction false} SplitWithoutSeparator(p: string, tail: string, c: char)
    requires c !in p
    ensures Split(p + tail, c) == [p + Split(tail, c)[0]] + Split(tail, c)[1..]
  {
    if |p| > 0 {
      SplitWithoutSeparator(p[1..], tail, c);
      assert p + tail == [p[0]] + (p[1..] + tail);
      SplitPrepend(p[0], p[1..] + tail, c);
      assert [p[0]] + (p[1..] + Split(tail, c)[0]) == p + Split(tail, c)[0];
    } else {
      assert p + tail == tail;
      assert p + Split(tail, c)[0] == Split(tail, c)[0];
      assert [Split(tail, c)[0]] + Split(tail, c)[1..] == Split(tail, c);
    }
  }

  /** Splitting what Join produced gives the parts back, provided there is at
      least one part and no part contains the separator. */
  lemma {:induction false} SplitJoin(parts: seq<string>, c: char)
    requires |parts| >= 1
    requires forall k :: 0 <= k < |parts| ==> c !in parts[k]
    ensures Split(Join(parts, c), c) == parts
  {
    if |parts| == 1 {
      SplitWithoutSeparator(parts[0], "", c);
      assert parts[0] + "" == parts[0];
    } else {
      var tail := [c] + Join(parts[1..], c);
      SplitJoin(parts[1..], c);
      assert Join(parts, c) == parts[0] + tail;
      SplitWithoutSeparator(parts[0], tail, c);
      assert tail[0] == c && tail[1..] == Join(parts[1..], c);
      assert Split(tail, c) == [""] + parts[1..];
      assert parts[0] + Split(tail, c)[0] == parts[0];
      assert parts == [parts[0]] + parts[1..];
    }
  }

  // ---------------------------------------------------------------------
  // Prefixes, suffixes, search and replacement

  predicate HasPrefix(s: string, p: string) { |p| <= |s| && s[..|p|] == p }

  predicate HasSuffix(s: string, p: string) { |p| <= |s| && s[|s| - |p|..] == p }

  /** `strings.TrimSuffix`. */
  function TrimSuffix(s: string, suffix: string): (r: string)
    ensures HasSuffix(s, suffix) ==> r + suffix == s
    ensures !HasSuffix(s, suffix) ==> r == s
  {
    if HasSuffix(s, suffix) then s[..|s| - |suffix|] else s
  }

  /** `strings.Contains`. */
  function Contains(s: string, sub: string): (b: bool)
  {
    HasPrefix(s, sub) || (|s| > 0 && Contains(s[1..], sub))
  }

  /** `sub` occurs in `s` at position `j`. */
  predicate OccursAt(s: string, sub: string, j: nat)
  {
    j + |sub| <= |s| && s[j..j + |sub|] == sub
  }

  /** `strings.Index` from position `from` on: the first position at or
      after `from` where `sub` occurs, or -1. */
  function IndexFrom(s: string, sub: string, from: nat): (i: int)
    requires from <= |s|
    ensures i == -1 || (from <= i && OccursAt(s, sub, i))
    ensures i == -1 ==> forall j: nat :: from <= j ==> !OccursAt(s, sub, j)
    ensures i >= 0 ==> forall j: nat :: from <= j < i ==> !OccursAt(s, sub, j)
    decreases |s| - from
  {
    if from + |sub| > |s| then -1
    else if OccursAt(s, sub, from) then from
    else if from == |s| then -1
    else IndexFrom(s, sub, from + 1)
  }

  /** `strings.Index`: the first position where `sub` occurs, or -1. */
  function Index(s: string, sub: string): (i: int)
    ensures i == -1 || (0 <= i && OccursAt(s, sub, i))
    ensures i == -1 <==> forall j: nat :: !OccursAt(s, sub, j)
    ensures i >= 0 ==> forall j: nat :: j < i ==> !OccursAt(s, sub, j)
  {
    IndexFrom(s, sub, 0)
  }

  /** `strings.ReplaceAll` for a non-empty pattern: leftmost,
      non-overlapping occurrences of `pat` are replaced by `rep`. */
  function ReplaceAll(s: string, pat: string, rep: string): (r: string)
    requires |pat| > 0
    decreases |s|
  {
    if |s| < |pat| then s
    else if s[..|pat|] == pat then rep + ReplaceAll(s[|pat|..], pat, rep)
    else [s[0]] + ReplaceAll(s[1..], pat, rep)
  }

  /** Without an occurrence of the pattern, ReplaceAll changes nothing. */
  lemma {:induction false} ReplaceAllWithoutOccurrence(s: string, pat: string, rep: string)
    requires |pat| > 0 && !Contains(s, pat)
    ensures ReplaceAll(s, pat, rep) == s
    decreases |s|
  {
    if |s| >= |pat| {
      assert s[..|pat|] != pat;
      ReplaceAllWithoutOccurrence(s[1..], pat, rep);
      assert s == [s[0]] + s[1..];
    }
  }

  /** Replacing a pattern by itself changes nothing, whatever the string. */
  lemma {:induction false} ReplaceAllBySelf(s: string, pat: string)
    requires |pat| > 0
    ensures ReplaceAll(s, pat, pat) == s
    decreases |s|
  {
    if |s| >= |pat| {
      if s[..|pat|] == pat {
        ReplaceAllBySelf(s[|pat|..], pat);
        assert s == s[..|pat|] + s[|pat|..];
      } else {
        ReplaceAllBySelf(s[1..], pat);
        assert s == [s[0]] + s[1..];
      }
    }
  }

  // ---------------------------------------------------------------------
  // Whitespace and case

  /** The ASCII white space that `strings.TrimSpace` removes. */
  predicate IsSpace(c: char)
  {
    c == ' ' || c == '\t' || c == '\n' || c == '\r' || c as int == 11 || c as int == 12
  }

  function TrimLeft(s: string): (r: string)
    ensures |r| <= |s| && s[|s| - |r|..] == r
    ensures |r| > 0 ==> !IsSpace(r[0])
    ensures forall k :: 0 <= k < |s| - |r| ==> IsSpace(s[k])
  {
    if |s| > 0 && IsSpace(s[0]) then TrimLeft(s[1..]) else s
  }

  function TrimRight(s: string): (r: string)
    ensures |r| <= |s| && s[..|r|] == r
    ensures |r| > 0 ==> !IsSpace(r[|r| - 1])
    ensures forall k :: |r| <= k < |s| ==> IsSpace(s[k])
  {
    if |s| > 0 && IsSpace(s[|s| - 1]) then TrimRight(s[..|s| - 1]) else s
  }

  /** `strings.TrimSpace`: the result is the slice of s between its leading
      and its trailing white space. */
  function TrimSpace(s: string): (r: string)
    ensures |r| > 0 ==> !IsSpace(r[0]) && !IsSpace(r[|r| - 1])
    ensures var i := |s| - |TrimLeft(s)|;
      i + |r| <= |s| && s[i..i + |r|] == r &&
      (forall k :: 0 <= k < i ==> IsSpace(s[k])) &&
      (forall k :: i + |r| <= k < |s| ==> IsSpace(s[k]))
  {
    var l := TrimLeft(s);
    var r := TrimRight(l);
    TrimmedSlice(s, l, r);
    r
  }

  /** A prefix `r` of a suffix `l` of `s` is a slice of `s`, and what `l`
      has after `r` is what `s` has after that slice. */
  lemma TrimmedSlice(s: string, l: string, r: string)
    requires |l| <= |s| && s[|s| - |l|..] == l
    requires |r| <= |l| && l[..|r|] == r
    requires forall k :: |r| <= k < |l| ==> IsSpace(l[k])
    ensures var i := |s| - |l|;
      s[i..i + |r|] == r && forall k :: i + |r| <= k < |s| ==> IsSpace(s[k])
  {
    var i := |s| - |l|;
    assert s[i..][..|r|] == r;
    assert s[i..i + |r|] == s[i..][..|r|];
    forall k | i + |r| <= k < |s|
      ensures IsSpace(s[k])
    {
      assert s[k] == l[k - i];
    }
  }

  function LowerChar(c: char): char
  {
    if 'A' <= c <= 'Z' then (c as int + 32) as char else c
  }

  /** `strings.ToLower` on ASCII letters; other characters are kept. */
  function ToLower(s: string): (r: string)
    ensures |r| == |s|
    ensures forall k :: 0 <= k < |s| ==> r[k] == LowerChar(s[k])
  {
    if |s| == 0 then "" else [LowerChar(s[0])] + ToLower(s[1..])
  }

  lemma ToLowerIdempotent(s: string)
    ensures ToLower(ToLower(s)) == ToLower(s)
  {
  }

  predicate NoUpperCase(s: string)
  {
    forall k :: 0 <= k < |s| ==> !('A' <= s[k] <= 'Z')
  }

  /** The strings ToLower keeps are exactly those without an upper-case
      ASCII letter. */
  lemma ToLowerKeeps(s: string)
    ensures ToLower(s) == s <==> NoUpperCase(s)
  {
    if ToLower(s) == s {
      forall k | 0 <= k < |s| ensures !('A' <= s[k] <= 'Z') {
        assert ToLower(s)[k] == LowerChar(s[k]);
      }
    }
  }

  // ---------------------------------------------------------------------
  // Decimal conversion (strconv.Itoa and strconv.Atoi on a 64-bit int)

  const MinInt64: int := -0x8000_0000_0000_0000
  const MaxInt64: int := 0x7fff_ffff_ffff_ffff

  predicate IsDigit(c: char) { '0' <= c <= '9' }

  function DigitChar(d: nat): char
    requires d < 10
  {
    ('0' as int + d) as char
  }

  function DigitValue(c: char): nat
    requires IsDigit(c)
  {
    c as int - '0' as int
  }

  /** The decimal digits of n, most significant first, without leading zeros. */
  function Digits(n: nat): (r: string)
    ensures |r| >= 1 && forall k :: 0 <= k < |r| ==> IsDigit(r[k])
    ensures |r| > 1 ==> r[0] != '0'
  {
    if n < 10 then [DigitChar(n)] else Digits(n / 10) + [DigitChar(n % 10)]
  }

  /** The value of a string of decimal digits. */
  function DigitsValue(s: string): nat
    requires forall k :: 0 <= k < |s| ==> IsDigit(s[k])
  {
    if |s| == 0 then 0 else DigitsValue(s[..|s| - 1]) * 10 + DigitValue(s[|s| - 1])
  }

  lemma {:induction false} DigitsValueOfDigits(n: nat)
    ensures DigitsValue(Digits(n)) == n
  {
    if n >= 10 {
      DigitsValueOfDigits(n / 10);
      var d := Digits(n);
      assert d[..|d| - 1] == Digits(n / 10);
    }
  }

  /** `strconv.Itoa`. */
  function Itoa(n: int): string
  {
    if n < 0 then "-" + Digits(-n) else Digits(n)
  }

  /** `strconv.Atoi` in base 10: an optional sign, then one or more decimal
      digits, with a value inside the 64-bit range. */
  function Atoi(s: string): (r: Option<int>)
    ensures r.Some? ==> MinInt64 <= r.value <= MaxInt64
  {
    var neg := |s| > 0 && s[0] == '-';
    var body := if |s| > 0 && (s[0] == '-' || s[0] == '+') then s[1..] else s;
    if |body| == 0 || exists k :: 0 <= k < |body| && !IsDigit(body[k]) then None
    else
      var v: int := if neg then -(DigitsValue(body) as int) else DigitsValue(body);
      if MinInt64 <= v <= MaxInt64 then Some(v) else None
  }

  /** Parsing what Itoa printed gives the number back, for every 64-bit int. */
  lemma AtoiItoa(n: int)
    requires MinInt64 <= n <= MaxInt64
    ensures Atoi(Itoa(n)) == Some(n)
  {
    if n < 0 {
      DigitsValueOfDigits(-n);
      assert ("-" + Digits(-n))[1..] == Digits(-n);
    } else {
      DigitsValueOfDigits(n);
    }
  }

  lemma {:induction false} DigitsInjective(a: nat, b: nat)
    requires Digits(a) == Digits(b)
    ensures a == b
  {
    DigitsValueOfDigits(a);
    DigitsValueOfDigits(b);
  }

  lemma ItoaInjective(a: int, b: int)
    requires Itoa(a) == Itoa(b)
    ensures a == b
  {
    if a < 0 && b < 0 {
      assert Digits(-a) == Itoa(a)[1..];
      DigitsInjective(-a, -b);
    } else if a >= 0 && b >= 0 {
      DigitsInjective(a, b);
    } else {
      assert false;
    }
  }

  // ---------------------------------------------------------------------
  // Ordering (Go's `<` on strings and strings.Compare)

  /** Lexicographic order on code points, which is Go's byte-wise order on
      the UTF-8 encodings. */
  predicate StrLess(a: string, b: string)
  {
    if |a| == 0 then |b| > 0
    else if |b| == 0 then false
    else if a[0] != b[0] then a[0] < b[0]
    else StrLess(a[1..], b[1..])
  }

  lemma {:induction false} StrLessIrreflexive(a: string)
    ensures !StrLess(a, a)
  {
    if |a| > 0 { StrLessIrreflexive(a[1..]); }
  }

  lemma {:induction false} StrLessTotal(a: string, b: string)
    ensures a == b || StrLess(a, b) || StrLess(b, a)
  {
    if |a| > 0 && |b| > 0 && a[0] == b[0] {
      StrLessTotal(a[1..], b[1..]);
      if a[1..] == b[1..] {
        assert a == [a[0]] + a[1..] && b == [b[0]] + b[1..];
      }
    }
  }

  lemma {:induction false} StrLessAsymmetric(a: string, b: string)
    requires StrLess(a, b)
    ensures !StrLess(b, a)
  {
    if |a| > 0 && |b| > 0 && a[0] == b[0] {
      StrLessAsymmetric(a[1..], b[1..]);
    }
  }

  /** `strings.Compare`. */
  function Compare(a: string, b: string): (r: int)
    ensures r == 0 <==> a == b
    ensures r < 0 <==> StrLess(a, b)
    ensures r > 0 <==> StrLess(b, a)
  {
    StrLessTotal(a, b);
    if a == b then (StrLessIrreflexive(a); 0)
    else if StrLess(a, b) then (StrLessAsymmetric(a, b); -1)
    else 1
  }
}
