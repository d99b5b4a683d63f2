/** Decimal numbers in HP-GL parameters: scanning, value, rendering.  A number is exact here; the
    pair pattern of the executor takes fewer texts than the parameter grammar of a payload. */
module Numbers {
  import opened Text

  predicate IsDigit(c: char) { '0' <= c <= '9' }
  predicate IsBlank(c: char) { c == ' ' || c == '\t' || c == '\n' || c == '\r' || c == '\U{0b}' || c == '\U{0c}' }
  predicate IsAlpha(c: char) { 'a' <= c <= 'z' || 'A' <= c <= 'Z' }

  function DigitValue(c: char): nat {
    if IsDigit(c) then (c - '0') as nat else 0
  }

  function DigitChar(d: nat): (c: char)
    requires d < 10
    ensures IsDigit(c) && DigitValue(c) == d
  {
    '0' + d as char
  }

  ghost predicate AllDigits(s: string) { forall i :: 0 <= i < |s| ==> IsDigit(s[i]) }

  /** First offset at or after `i` that is not a digit. */
  function DigitsEnd(s: string, i: nat): (r: nat)
    requires i <= |s|
    ensures i <= r <= |s|
    decreases |s| - i
  {
    if i == |s| || !IsDigit(s[i]) then i else DigitsEnd(s, i + 1)
  }

  lemma {:induction false} DigitsEndMeaning(s: string, i: nat)
    requires i <= |s|
    ensures var r := DigitsEnd(s, i);
      (forall k :: i <= k < r ==> IsDigit(s[k])) && (r < |s| ==> !IsDigit(s[r]))
    decreases |s| - i
  {
    if i < |s| && IsDigit(s[i]) {
      DigitsEndMeaning(s, i + 1);
    }
  }

  /** Value of a run of digits. */
  function NatValue(s: string): nat {
    if s == "" then 0 else 10 * NatValue(s[..|s| - 1]) + DigitValue(s[|s| - 1])
  }

  /** Value of the digits after a decimal point. */
  function Fraction(s: string): real {
    if s == "" then 0.0 else (DigitValue(s[0]) as real + Fraction(s[1..])) / 10.0
  }

  /** Digits with an optional point, at least one digit in all. */
  function Unsigned(s: string): Option<real> {
    var i := DigitsEnd(s, 0);
    if i == |s| then (if i > 0 then Some(NatValue(s[..i]) as real) else None)
    else if s[i] != '.' then None
    else
      var j := DigitsEnd(s, i + 1);
      if j == |s| && (i > 0 || j > i + 1) then Some(NatValue(s[..i]) as real + Fraction(s[i + 1..])) else None
  }

  function Number(s: string): Option<real> {
    if s != "" && (s[0] == '+' || s[0] == '-') then
      match Unsigned(s[1..])
      case None => None
      case Some(v) => Some(if s[0] == '-' then -v else v)
    else Unsigned(s)
  }

  function StripLeft(s: string): string {
    if s != "" && IsBlank(s[0]) then StripLeft(s[1..]) else s
  }

  function StripRight(s: string): string {
    if s != "" && IsBlank(s[|s| - 1]) then StripRight(s[..|s| - 1]) else s
  }

  function Strip(s: string): string { StripRight(StripLeft(s)) }

  ghost predicate Tidy(s: string) { s != "" ==> !IsBlank(s[0]) && !IsBlank(s[|s| - 1]) }

  lemma StripTidy(s: string)
    requires Tidy(s)
    ensures Strip(s) == s
  {
  }

  lemma {:induction false} StripRightKeeps(s: string)
    requires |s| >= 2 && !IsBlank(s[1])
    ensures |StripRight(s)| >= 2 && StripRight(s)[..2] == s[..2]
    decreases |s|
  {
    if IsBlank(s[|s| - 1]) {
      StripRightKeeps(s[..|s| - 1]);
    }
  }

  function UpperChar(c: char): char {
    if 'a' <= c <= 'z' then c - 'a' + 'A' else c
  }

  function Upper(s: string): (r: string)
    ensures |r| == |s|
  {
    seq(|s|, i requires 0 <= i < |s| => UpperChar(s[i]))
  }

  /** Small letters become capitals. */
  lemma Capitals()
    ensures Upper("abcdefghijklmnopqrstuvwxyz") == "ABCDEFGHIJKLMNOPQRSTUVWXYZ"
  {
  }

  /** The first two characters in upper case: an instruction's mnemonic. */
  function Mnemonic(s: string): string { Upper(Prefix(s, 2)) }

  function Prefix(s: string, n: nat): string { if |s| < n then s else s[..n] }

  function Suffix(s: string, n: nat): string { if |s| < n then "" else s[n..] }

  // ---- the numbers the pair-wise executor recognises ----------------------------------

  /** Length of the optionally signed decimal at the front of `s`, or -1. */
  function ScanNumber(s: string): (r: int)
    ensures r == -1 || 0 < r <= |s|
  {
    var j := if s != "" && s[0] == '-' then 1 else 0;
    var k := DigitsEnd(s, j);
    if k == j then -1
    else if k < |s| && s[k] == '.' && DigitsEnd(s, k + 1) > k + 1 then DigitsEnd(s, k + 1)
    else k
  }

  /** A number the executor recognises whole. */
  predicate Plain(s: string) { ScanNumber(s) == |s| }

  lemma PlainCharacters(s: string)
    requires Plain(s)
    ensures s != "" && forall i :: 0 <= i < |s| ==> IsDigit(s[i]) || s[i] == '-' || s[i] == '.'
    ensures ',' !in s && ';' !in s && Tidy(s) && !IsAlpha(s[0]) && IsDigit(s[|s| - 1])
  {
    var j := if s != "" && s[0] == '-' then 1 else 0;
    var k := DigitsEnd(s, j);
    DigitsEndMeaning(s, j);
    if k < |s| {
      DigitsEndMeaning(s, k + 1);
    }
  }

  lemma {:induction false} AllDigitsEnd(s: string, i: nat)
    requires i <= |s| && AllDigits(s)
    ensures DigitsEnd(s, i) == |s|
    decreases |s| - i
  {
    if i < |s| {
      AllDigitsEnd(s, i + 1);
    }
  }

  lemma DigitsShift(s: string, t: string, off: nat, i: nat)
    requires off <= |s| && t == s[off..] && i <= |t|
    ensures DigitsEnd(t, i) == DigitsEnd(s, off + i) - off
    decreases |t| - i
  {
    if i < |t| && IsDigit(t[i]) {
      DigitsShift(s, t, off, i + 1);
    }
  }

  /** Every plain number has a value: what the plotter reads is what the pattern matched. */
  lemma PlainHasValue(s: string)
    requires Plain(s)
    ensures Number(s).Some?
  {
    PlainCharacters(s);
    var off := if s[0] == '-' then 1 else 0;
    var k := DigitsEnd(s, off);
    DigitsShift(s, s[off..], off, 0);
    if k < |s| {
      DigitsShift(s, s[off..], off, k + 1 - off);
    }
  }

  lemma {:induction false} DigitsEndStops(x: string, rest: string, i: nat)
    requires i <= |x| && rest != "" && !IsDigit(rest[0])
    ensures DigitsEnd(x + rest, i) == DigitsEnd(x, i)
    decreases |x| - i
  {
    if i < |x| && IsDigit(x[i]) {
      DigitsEndStops(x, rest, i + 1);
    }
  }

  lemma {:induction false} DigitsEndCut(s: string, i: nat, m: nat)
    requires i <= m <= |s|
    ensures DigitsEnd(s[..m], i) == if DigitsEnd(s, i) < m then DigitsEnd(s, i) else m
    decreases m - i
  {
    if i < m && IsDigit(s[i]) {
      DigitsEndCut(s, i + 1, m);
    }
  }

  /** What is scanned at the front of a text is a plain number by itself. */
  lemma ScanCut(s: string)
    requires ScanNumber(s) != -1
    ensures Plain(s[..ScanNumber(s)])
  {
    var j := if s[0] == '-' then 1 else 0;
    var n := ScanNumber(s);
    var k := DigitsEnd(s, j);
    DigitsEndCut(s, j, n);
    if n > k {
      DigitsEndCut(s, k + 1, n);
    }
  }

  /** A plain number in front of a separator is scanned exactly. */
  lemma ScanPlain(x: string, rest: string)
    requires Plain(x) && rest != "" && (rest[0] == ',' || rest[0] == ';')
    ensures ScanNumber(x + rest) == |x|
  {
    PlainCharacters(x);
    var j := if x[0] == '-' then 1 else 0;
    var k := DigitsEnd(x, j);
    DigitsEndStops(x, rest, j);
    if k < |x| {
      DigitsEndStops(x, rest, k + 1);
    }
  }

  // ---- rendering ----------------------------------------------------------------------

  function NatText(n: nat): (s: string)
    ensures s != "" && AllDigits(s)
  {
    if n < 10 then [DigitChar(n)] else NatText(n / 10) + [DigitChar(n % 10)]
  }

  lemma {:induction false} NatRoundTrip(n: nat)
    ensures NatValue(NatText(n)) == n
  {
    if n >= 10 {
      var s := NatText(n);
      NatRoundTrip(n / 10);
      assert s[..|s| - 1] == NatText(n / 10);
    } else {
      assert [DigitChar(n)][..0] == "";
    }
  }

  function IntText(n: int): string { if n < 0 then "-" + NatText(-n) else NatText(n) }

  lemma IntRoundTrip(n: int)
    ensures Number(IntText(n)) == Some(n as real)
    ensures Plain(IntText(n))
  {
    var m := if n < 0 then -n else n;
    var t := NatText(m);
    AllDigitsEnd(t, 0);
    NatRoundTrip(m);
    assert t[..|t|] == t && IsDigit(t[0]);
    if n < 0 {
      var s := IntText(n);
      assert s[1..] == t;
      DigitsShift(s, t, 1, 0);
    }
  }

  /** Truncation toward zero. */
  function Trunc(r: real): int { if r >= 0.0 then r.Floor else -((-r).Floor) }

  /** Rounding to the nearest whole number, halves to the even neighbour. */
  function RoundHalfEven(v: real): int {
    var f := v.Floor;
    var d := v - f as real;
    if d < 0.5 then f else if d > 0.5 then f + 1 else if f % 2 == 0 then f else f + 1
  }

  /** Truncation keeps the sign and drops less than one unit. */
  lemma TruncMeans(r: real)
    ensures var t := Trunc(r) as real;
      if r >= 0.0 then 0.0 <= t <= r < t + 1.0 else t - 1.0 < r <= t <= 0.0
  {
  }

  /** A digit in front of the point counts ten times what it counts behind it: moving the point one
      digit to the right multiplies by ten. */
  lemma PointMoves(whole: string, d: char, rest: string)
    requires IsDigit(d) && AllDigits(whole) && AllDigits(rest)
    ensures NatValue(whole + [d]) as real + Fraction(rest) == 10.0 * (NatValue(whole) as real + Fraction([d] + rest))
  {
    assert (whole + [d])[..|whole|] == whole && ([d] + rest)[1..] == rest;
  }

  /** The value of a decimal is its digits before the point and those behind it. */
  lemma DecimalValue(whole: string, rest: string)
    requires AllDigits(whole) && AllDigits(rest) && (whole != "" || rest != "")
    ensures Number(whole + "." + rest) == Some(NatValue(whole) as real + Fraction(rest))
    ensures Number("-" + (whole + "." + rest)) == Some(-(NatValue(whole) as real + Fraction(rest)))
    ensures Number("+" + (whole + "." + rest)) == Number(whole + "." + rest)
  {
    hide Unsigned, NatValue, Fraction;
    var s := whole + "." + rest;
    DecimalParts(whole, rest);
    assert s[0] == if whole == "" then '.' else whole[0];
    assert ("-" + s)[1..] == s && ("+" + s)[1..] == s;
  }

  lemma DecimalParts(whole: string, rest: string)
    requires AllDigits(whole) && AllDigits(rest) && (whole != "" || rest != "")
    ensures Unsigned(whole + "." + rest) == Some(NatValue(whole) as real + Fraction(rest))
  {
    hide NatValue, Fraction, DigitsEnd;
    var s := whole + "." + rest;
    DecimalEnds(whole, rest);
    assert s[|whole|] == '.' && s[..|whole|] == whole && s[|whole| + 1..] == rest;
  }

  lemma DecimalEnds(whole: string, rest: string)
    requires AllDigits(whole) && AllDigits(rest)
    ensures var s := whole + "." + rest; DigitsEnd(s, 0) == |whole| && DigitsEnd(s, |whole| + 1) == |s|
  {
    hide DigitsEnd;
    var s := whole + "." + rest;
    assert s == whole + ("." + rest) && s[|whole| + 1..] == rest;
    AllDigitsEnd(whole, 0);
    DigitsEndStops(whole, "." + rest, 0);
    DigitsShift(s, rest, |whole| + 1, 0);
    AllDigitsEnd(rest, 0);
  }
}
