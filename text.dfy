/** String operations of JavaScript that the modelled code relies on, written out
    over `seq<char>`: whitespace as `trim` and `\s` see it, trimming, joining,
    the piece counts of `split`, decimal rendering and parsing of integers, and
    `substring(0, n)`. */
module Text {
  import opened Wrappers

  /** JavaScript's WhiteSpace and LineTerminator characters: what `trim` removes and `\s` matches. */
  const Spaces: set<char> := {
    '\t', '\n', '\U{B}', '\U{C}', '\r', ' ', '\U{A0}', '\U{1680}',
    '\U{2000}', '\U{2001}', '\U{2002}', '\U{2003}', '\U{2004}', '\U{2005}', '\U{2006}',
    '\U{2007}', '\U{2008}', '\U{2009}', '\U{200A}',
    '\U{2028}', '\U{2029}', '\U{202F}', '\U{205F}', '\U{3000}', '\U{FEFF}'
  }

  predicate IsSpace(c: char) {
    c in Spaces
  }

  predicate AllSpace(s: string) {
    forall i :: 0 <= i < |s| ==> IsSpace(s[i])
  }

  /** The first position at or after `i` that is not whitespace, or `|s|`. */
  function LeadingEnd(s: string, i: nat): (n: nat)
    requires i <= |s|
    ensures i <= n <= |s|
    ensures forall k :: i <= k < n ==> IsSpace(s[k])
    ensures n < |s| ==> !IsSpace(s[n])
    decreases |s| - i
  {
    if i < |s| && IsSpace(s[i]) then LeadingEnd(s, i + 1) else i
  }

  /** The position just after the last non-whitespace character at or after `lo`, before
      `hi`, or `lo`. */
  function TrailingStart(s: string, lo: nat, hi: nat): (n: nat)
    requires lo <= hi <= |s|
    ensures lo <= n <= hi
    ensures forall k :: n <= k < hi ==> IsSpace(s[k])
    ensures n > lo ==> !IsSpace(s[n - 1])
    decreases hi - lo
  {
    if hi > lo && IsSpace(s[hi - 1]) then TrailingStart(s, lo, hi - 1) else hi
  }

  /** `trimStart`: drops the leading whitespace; what remains is a suffix that starts with a
      non-space. */
  function TrimStart(s: string): (r: string)
    ensures |r| <= |s| && r == s[|s| - |r|..]
    ensures forall i :: 0 <= i < |s| - |r| ==> IsSpace(s[i])
    ensures r == [] || !IsSpace(r[0])
  {
    s[LeadingEnd(s, 0)..]
  }

  /** `trim`: the slice of the input between its leading and its trailing whitespace; neither
      end of the result is whitespace. */
  function Trim(s: string): (r: string)
    ensures |r| <= |s|
    ensures var a := |s| - |TrimStart(s)|;
            && 0 <= a <= |s| - |r| && r == s[a..a + |r|]
            && (forall i :: 0 <= i < a ==> IsSpace(s[i]))
            && (forall i :: a + |r| <= i < |s| ==> IsSpace(s[i]))
    ensures r == [] || (!IsSpace(r[0]) && !IsSpace(r[|r| - 1]))
  {
    var a := LeadingEnd(s, 0);
    s[a..TrailingStart(s, a, |s|)]
  }

  /** `s.trim().length === 0` holds exactly for the strings made only of whitespace. */
  lemma {:induction false} TrimEmptyIffAllSpace(s: string)
    ensures Trim(s) == "" <==> AllSpace(s)
  {
    if Trim(s) == "" {
      assert TrimStart(s) == [];
    }
  }

  /** `trim` is idempotent. */
  lemma TrimIdempotent(s: string)
    ensures Trim(Trim(s)) == Trim(s)
  {
    var r := Trim(s);
    if r != [] {
      assert LeadingEnd(r, 0) == 0;
      assert TrailingStart(r, 0, |r|) == |r|;
    }
  }

  /** `parts.join(sep)`. */
  function Join(parts: seq<string>, sep: string): (r: string)
    ensures |parts| == 0 ==> r == ""
    ensures |parts| == 1 ==> r == parts[0]
    ensures |parts| >= 1 ==> |r| >= |parts[0]| && r[..|parts[0]|] == parts[0]
    ensures |parts| >= 2 ==> |r| >= |parts[0]| + |sep| && r[|parts[0]|..|parts[0]| + |sep|] == sep
  {
    if |parts| == 0 then ""
    else if |parts| == 1 then parts[0]
    else parts[0] + sep + Join(parts[1..], sep)
  }

  /** A join is empty only when every part is empty and at most one part or the separator is empty. */
  lemma {:induction false} JoinEmptyIff(parts: seq<string>, sep: string)
    ensures Join(parts, sep) == "" <==>
      (forall i :: 0 <= i < |parts| ==> parts[i] == "") && (|parts| <= 1 || sep == "")
  {
    if |parts| >= 2 {
      var rest := Join(parts[1..], sep);
      assert |Join(parts, sep)| == |parts[0]| + |sep| + |rest|;
      JoinEmptyIff(parts[1..], sep);
      assert forall i :: 1 <= i < |parts| ==> parts[1..][i - 1] == parts[i];
    }
  }

  /** `s.substring(0, n)` for `n >= 0`: the first `n` characters, or all of them. */
  function Take(s: string, n: nat): (r: string)
    ensures |r| == if |s| <= n then |s| else n
    ensures r == s[..|r|]
  {
    if |s| <= n then s else s[..n]
  }

  predicate StartsWith(s: string, prefix: string) {
    |prefix| <= |s| && s[..|prefix|] == prefix
  }

  predicate EndsWith(s: string, suffix: string) {
    |suffix| <= |s| && s[|s| - |suffix|..] == suffix
  }

  /** Does `needle` occur in `s`? */
  predicate Contains(s: string, needle: string) {
    StartsWith(s, needle) || (s != [] && Contains(s[1..], needle))
  }

  function CountChar(s: string, c: char): (n: nat)
    ensures n <= |s|
  {
    if s == [] then 0 else CountChar(s[..|s| - 1], c) + (if s[|s| - 1] == c then 1 else 0)
  }

  /** `s.split(' ').length`: one piece more than there are spaces, so never zero. */
  function SpaceSplitCount(s: string): (n: nat)
    ensures 1 <= n <= |s| + 1
  {
    CountChar(s, ' ') + 1
  }

  /** Where a maximal run of `\s` characters starts. */
  predicate SpaceRunStart(s: string, i: int)
    requires 0 <= i < |s|
  {
    IsSpace(s[i]) && (i == 0 || !IsSpace(s[i - 1]))
  }

  /** Where a maximal run of non-`\s` characters (a word) starts. */
  predicate WordStart(s: string, i: int)
    requires 0 <= i < |s|
  {
    !IsSpace(s[i]) && (i == 0 || IsSpace(s[i - 1]))
  }

  /** Number of maximal whitespace runs, counted left to right. */
  function SpaceRuns(s: string): (n: nat)
    ensures n <= |s|
  {
    if s == [] then 0
    else SpaceRuns(s[..|s| - 1]) + (if SpaceRunStart(s, |s| - 1) then 1 else 0)
  }

  /** Number of words (maximal runs of non-whitespace), counted left to right. */
  function Words(s: string): (n: nat)
    ensures n <= |s|
  {
    if s == [] then 0
    else Words(s[..|s| - 1]) + (if WordStart(s, |s| - 1) then 1 else 0)
  }

  /** `s.split(/\s+/).length`: every whitespace run separates two pieces, so never zero. */
  function RegexSplitCount(s: string): (n: nat)
    ensures 1 <= n <= |s| + 1
  {
    SpaceRuns(s) + 1
  }

  /** `s.split(/\s+/).filter(w => w.length > 0).length`: the number of words. */
  function WordCount(s: string): (n: nat)
    ensures n <= |s|
    ensures n == 0 <==> AllSpace(s)
  {
    WordsZeroIffAllSpace(s);
    Words(s)
  }

  lemma {:induction false} WordsZeroIffAllSpace(s: string)
    ensures Words(s) == 0 <==> AllSpace(s)
  {
    if s != [] {
      var p := s[..|s| - 1];
      WordsZeroIffAllSpace(p);
      assert forall i :: 0 <= i < |p| ==> p[i] == s[i];
      if AllSpace(p) && !IsSpace(s[|s| - 1]) {
        assert WordStart(s, |s| - 1);
      }
    }
  }

  /** Words are the non-empty pieces: each whitespace run splits off one piece, and the
      only empty pieces are the ones at an end of `s` that starts or ends with whitespace. */
  lemma {:induction false} RegexPiecesAndWords(s: string)
    requires s != []
    ensures RegexSplitCount(s) == WordCount(s)
      + (if IsSpace(s[0]) then 1 else 0) + (if IsSpace(s[|s| - 1]) then 1 else 0)
  {
    if |s| > 1 {
      var p := s[..|s| - 1];
      RegexPiecesAndWords(p);
      assert p[0] == s[0];
    }
  }

  function DigitChar(d: nat): (c: char)
    requires d < 10
    ensures '0' <= c <= '9' && c as int - '0' as int == d
  {
    ('0' as int + d) as char
  }

  predicate IsDigit(c: char) {
    '0' <= c <= '9'
  }

  /** The value of a character as a digit of a radix up to 36: `0`-`9`, then the letters in
      either case; 36 for every other character, which is a digit of no radix. */
  function DigitOf(c: char): (d: nat)
    ensures d <= 36
    ensures IsDigit(c) <==> d < 10
    ensures IsDigit(c) ==> DigitChar(d) == c
  {
    if '0' <= c <= '9' then (c as int - '0' as int) as nat
    else if 'a' <= c <= 'z' then (c as int - 'a' as int + 10) as nat
    else if 'A' <= c <= 'Z' then (c as int - 'A' as int + 10) as nat
    else 36
  }

  /** Decimal rendering of a natural number, as a template literal prints it. */
  function NatToString(n: nat): (r: string)
    ensures |r| >= 1 && forall i :: 0 <= i < |r| ==> IsDigit(r[i])
    ensures n > 0 ==> r[0] != '0'
  {
    if n < 10 then [DigitChar(n)] else NatToString(n / 10) + [DigitChar(n % 10)]
  }

  /** Decimal rendering of an integer. */
  function IntToString(i: int): (r: string)
    ensures r != ""
  {
    if i < 0 then "-" + NatToString(-i) else NatToString(i)
  }

  /** The value of a string of digits of `radix` (10 or 16), most significant digit first. */
  function Value(s: string, radix: nat): (n: nat)
    requires radix == 10 || radix == 16
    requires forall i :: 0 <= i < |s| ==> DigitOf(s[i]) < radix
  {
    if s == [] then 0
    else
      var high := Value(s[..|s| - 1], radix);
      (if radix == 16 then 16 * high else 10 * high) + DigitOf(s[|s| - 1])
  }

  /** Appending a digit multiplies the value by the radix and adds that digit. */
  lemma ValueSnoc(p: string, c: char, radix: nat)
    requires radix == 10 || radix == 16
    requires forall i :: 0 <= i < |p| ==> DigitOf(p[i]) < radix
    requires DigitOf(c) < radix
    ensures Value(p + [c], radix) == (if radix == 16 then 16 * Value(p, radix) else 10 * Value(p, radix)) + DigitOf(c)
  {
    assert (p + [c])[..|p|] == p;
  }

  /** Reading back the decimal rendering gives the number. */
  lemma {:induction false} DecimalValueOfNatToString(n: nat)
    ensures Value(NatToString(n), 10) == n
  {
    if n < 10 {
      ValueSnoc([], DigitChar(n), 10);
    } else {
      var q, d := n / 10, n % 10;
      assert n == 10 * q + d;
      assert NatToString(n) == NatToString(q) + [DigitChar(d)];
      DecimalValueOfNatToString(q);
      ValueSnoc(NatToString(q), DigitChar(d), 10);
      assert DigitOf(DigitChar(d)) == d;
    }
  }

  /** Distinct numbers render differently. */
  lemma NatToStringInjective(m: nat, n: nat)
    requires NatToString(m) == NatToString(n)
    ensures m == n
  {
    DecimalValueOfNatToString(m);
    DecimalValueOfNatToString(n);
  }

  /** The longest prefix made of digits of `radix`. */
  function DigitPrefix(s: string, radix: nat): (r: string)
    ensures |r| <= |s| && r == s[..|r|]
    ensures forall i :: 0 <= i < |r| ==> DigitOf(r[i]) < radix
    ensures |r| < |s| ==> DigitOf(s[|r|]) >= radix
  {
    if s != [] && DigitOf(s[0]) < radix then [s[0]] + DigitPrefix(s[1..], radix) else []
  }

  /** A minus sign ahead of the digits. */
  predicate Negative(t: string) {
    t != [] && t[0] == '-'
  }

  /** The text after an optional sign. */
  function SignDropped(t: string): (r: string)
    ensures r == t || (t != [] && (t[0] == '-' || t[0] == '+') && r == t[1..])
  {
    if t != [] && (t[0] == '-' || t[0] == '+') then t[1..] else t
  }

  /** `0x` or `0X` after the sign switches `parseInt` to radix 16. */
  predicate HexPrefixed(b: string) {
    |b| >= 2 && b[0] == '0' && (b[1] == 'x' || b[1] == 'X')
  }

  function Radix(b: string): (radix: nat)
    ensures radix == 10 || radix == 16
  {
    if HexPrefixed(b) then 16 else 10
  }

  /** The digits `parseInt` reads from, after the sign and the hex prefix. */
  function Numeral(b: string): (r: string)
    ensures HexPrefixed(b) ==> r == b[2..]
    ensures !HexPrefixed(b) ==> r == b
  {
    if HexPrefixed(b) then b[2..] else b
  }

  /** What `parseInt` reads after the sign: `0x`/`0X` selects radix 16, otherwise the radix
      is 10, and the longest run of digits of that radix is the magnitude; `None` (NaN) when
      that run is empty. */
  function Magnitude(b: string): (r: Option<nat>)
    ensures r.None? <==> DigitPrefix(Numeral(b), Radix(b)) == []
    ensures r.Some? ==> r.value == Value(DigitPrefix(Numeral(b), Radix(b)), Radix(b))
  {
    var digits := DigitPrefix(Numeral(b), Radix(b));
    if digits == [] then None else Some(Value(digits, Radix(b)))
  }

  /** What `parseInt` reads once the leading whitespace is skipped: an optional sign, then
      the magnitude, negated under a minus sign. */
  function Signed(t: string): (r: Option<int>)
    ensures var m := Magnitude(SignDropped(t));
            && (r.None? <==> m.None?)
            && (r.Some? ==> r.value == (if Negative(t) then -(m.value as int) else m.value as int))
  {
    match Magnitude(SignDropped(t))
    case None => None
    case Some(m) => Some(if Negative(t) then -(m as int) else m as int)
  }

  /** `parseInt(s)` with no radix: leading whitespace is skipped, and then the signed
      magnitude is read. */
  function ParseIntPrefix(s: string): (r: Option<int>)
    ensures r == Signed(TrimStart(s))
  {
    Signed(TrimStart(s))
  }

  /** The magnitude of a decimal rendering is the number rendered. */
  lemma MagnitudeOfNatToString(n: nat)
    ensures Magnitude(NatToString(n)) == Some(n)
  {
    var r := NatToString(n);
    assert !HexPrefixed(r) by { assert |r| >= 2 ==> IsDigit(r[1]); }
    DigitPrefixOfDigits(r, 10);
    DecimalValueOfNatToString(n);
  }

  /** `parseInt` reads back what the decimal rendering prints. */
  lemma ParseIntOfNatToString(n: nat)
    ensures ParseIntPrefix(NatToString(n)) == Some(n)
  {
    var r := NatToString(n);
    assert LeadingEnd(r, 0) == 0 by { assert !IsSpace(r[0]); }
    assert TrimStart(r) == r;
    assert SignDropped(r) == r by { assert IsDigit(r[0]); }
    MagnitudeOfNatToString(n);
  }

  /** A text that starts with neither whitespace nor a sign reads as its magnitude. */
  lemma ParseIntOfUnsigned(t: string)
    requires t != [] && !IsSpace(t[0]) && t[0] != '-' && t[0] != '+'
    ensures ParseIntPrefix(t) == Magnitude(t)
  {
    assert LeadingEnd(t, 0) == 0;
    assert TrimStart(t) == t;
  }

  /** A minus sign in front of the decimal rendering negates what `parseInt` reads. */
  lemma ParseIntOfNegated(n: nat)
    ensures ParseIntPrefix("-" + NatToString(n)) == Some(-(n as int))
  {
    var r := NatToString(n);
    var s := "-" + r;
    assert LeadingEnd(s, 0) == 0 by { assert !IsSpace(s[0]); }
    assert TrimStart(s) == s;
    assert SignDropped(s) == r;
    MagnitudeOfNatToString(n);
  }

  lemma {:induction false} DigitPrefixOfDigits(s: string, radix: nat)
    requires forall i :: 0 <= i < |s| ==> DigitOf(s[i]) < radix
    ensures DigitPrefix(s, radix) == s
  {
    if s != [] {
      DigitPrefixOfDigits(s[1..], radix);
    }
  }

  /** A character that is no digit of the radix ends the run of digits. */
  lemma {:induction false} DigitPrefixAppend(b: string, x: string, radix: nat)
    requires x != [] && DigitOf(x[0]) >= radix
    ensures DigitPrefix(b + x, radix) == DigitPrefix(b, radix)
  {
    if b != [] {
      assert (b + x)[1..] == b[1..] + x;
      DigitPrefixAppend(b[1..], x, radix);
    }
  }

  /** A character that is not whitespace ends the leading whitespace. */
  lemma {:induction false} LeadingEndAppend(s: string, x: string, i: nat)
    requires i <= |s| && x != [] && !IsSpace(x[0])
    ensures LeadingEnd(s + x, i) == LeadingEnd(s, i)
    decreases |s| - i
  {
    if i < |s| {
      assert (s + x)[i] == s[i];
      if IsSpace(s[i]) {
        LeadingEndAppend(s, x, i + 1);
      }
    } else {
      assert (s + x)[i] == x[0];
    }
  }

  lemma MagnitudeStopsAtComma(b: string, x: string)
    requires x != [] && x[0] == ','
    ensures Magnitude(b + x) == Magnitude(b)
  {
    assert HexPrefixed(b + x) == HexPrefixed(b);
    assert Numeral(b + x) == Numeral(b) + x by {
      if HexPrefixed(b) {
        assert (b + x)[2..] == b[2..] + x;
      }
    }
    DigitPrefixAppend(Numeral(b), x, Radix(b));
  }

  /** `parseInt` never reads past a comma, so of a comma-joined list it reads only the first
      item. */
  lemma ParseIntStopsAtComma(s: string, rest: string)
    ensures ParseIntPrefix(s + "," + rest) == ParseIntPrefix(s)
  {
    var x := "," + rest;
    assert s + "," + rest == s + x;
    LeadingEndAppend(s, x, 0);
    var t := TrimStart(s);
    assert TrimStart(s + x) == t + x;
    SignedStopsAtComma(t, x);
  }

  lemma SignedStopsAtComma(t: string, x: string)
    requires x != [] && x[0] == ','
    ensures Signed(t + x) == Signed(t)
  {
    SignDroppedAppend(t, x);
    MagnitudeStopsAtComma(SignDropped(t), x);
  }

  lemma SignDroppedAppend(t: string, x: string)
    requires x != [] && x[0] == ','
    ensures SignDropped(t + x) == SignDropped(t) + x
    ensures Negative(t + x) == Negative(t)
  {
    if t != [] {
      assert (t + x)[1..] == t[1..] + x;
    }
  }
}
