/**
 The texts numbers are stored as: decimals, integers and switches.
 
 A decimal is its coefficient and its scale, so that 0.50 and 0.5 stay two texts of one value, and
 printing then parsing gives back both.
 */
module Decimals {
  import opened Text
  import opened Wrappers

  /** A finite decimal: `coef` over ten to the `scale`. Positive exponents are folded into `coef`. */
  datatype Dec = Dec(coef: int, scale: nat) {
    function Value(): real {
      coef as real / Pow10(scale) as real
    }
  }

  function Pow10(n: nat): (p: nat)
    ensures p >= 1
  {
    if n == 0 then 1 else 10 * Pow10(n - 1)
  }

  predicate IsBlank(c: char) {
    c == ' ' || c == '\t' || c == '\n' || c == '\r'
  }

  /** `strip()`. */
  function Strip(s: string): string {
    if s != "" && IsBlank(s[0]) then Strip(s[1..])
    else if s != "" && IsBlank(s[|s| - 1]) then Strip(s[..|s| - 1])
    else s
  }

  /** Nothing to strip at either end. */
  predicate Tight(s: string) {
    s != "" ==> !IsBlank(s[0]) && !IsBlank(s[|s| - 1])
  }

  lemma StripTight(s: string)
    requires Tight(s)
    ensures Strip(s) == s
  {
  }

  /** A whole number is its coefficient, and one more digit behind the point is worth a tenth. */
  lemma PlaceValue(coef: int, scale: nat)
    ensures Dec(coef, 0).Value() == coef as real
    ensures Dec(10 * coef, scale + 1).Value() == Dec(coef, scale).Value()
    ensures Dec(coef, scale + 1).Value() * 10.0 == Dec(coef, scale).Value()
  {
    var p := Pow10(scale) as real;
    assert Pow10(scale + 1) as real == 10.0 * p;
    assert (10 * coef) as real == 10.0 * coef as real;
    Cancels(coef as real, p);
  }

  lemma Cancels(x: real, p: real)
    requires p > 0.0
    ensures (10.0 * x) / (10.0 * p) == x / p
    ensures x / (10.0 * p) * 10.0 == x / p
  {
    var q := x / p;
    assert q * p == x;
    assert q * (10.0 * p) == 10.0 * x;
    assert q / 10.0 * (10.0 * p) == x;
  }

  /** Only blanks, tabs and line ends. */
  predicate Blank(s: string) {
    forall i | 0 <= i < |s| :: s[i] in " \t\n\r"
  }

  /** Blanks around a text are stripped, and nothing else is. */
  lemma {:induction false} StripAround(before: string, s: string, after: string)
    requires Blank(before) && Blank(after) && Tight(s) && s != ""
    ensures Strip(before + s + after) == s
    decreases |before| + |after|
  {
    var t := before + s + after;
    if before != "" {
      assert t[0] == before[0] && t[1..] == before[1..] + s + after;
      StripAround(before[1..], s, after);
    } else if after != "" {
      assert t[0] == s[0] && t[|t| - 1] == after[|after| - 1] && t[..|t| - 1] == before + s + after[..|after| - 1];
      StripAround(before, s, after[..|after| - 1]);
    } else {
      assert t == s;
      StripTight(s);
    }
  }

  // ── integers ──────────────────────────────────────────────────────────────

  function IntText(n: int): string {
    if n < 0 then "-" + NatText(-n) else NatText(n)
  }

  predicate Numeral(s: string) {
    s != "" && AllDigits(s)
  }

  function Negated(n: nat): int {
    0 - n
  }

  function SignedInt(s: string): Option<int> {
    if s != "" && s[0] == '-' && Numeral(s[1..]) then Some(Negated(NatValue(s[1..])))
    else if s != "" && s[0] == '+' && Numeral(s[1..]) then Some(NatValue(s[1..]))
    else if Numeral(s) then Some(NatValue(s))
    else None
  }

  function ParseInt(s: string): Option<int> {
    SignedInt(Strip(s))
  }

  lemma IntTextTight(n: int)
    ensures Tight(IntText(n)) && IntText(n) != ""
    ensures forall i | 0 <= i < |IntText(n)| :: IsDigit(IntText(n)[i]) || IntText(n)[i] == '-'
  {
  }

  lemma IntRoundTrip(n: int)
    ensures ParseInt(IntText(n)) == Some(n)
  {
    IntTextTight(n);
    StripTight(IntText(n));
    NatTextValue(if n < 0 then -n else n);
    if n < 0 {
      assert IntText(n)[1..] == NatText(-n);
    } else {
      assert IsDigit(IntText(n)[0]);
    }
  }

  // ── decimals ──────────────────────────────────────────────────────────────

  function Zeros(n: nat): (s: string)
    ensures |s| == n && AllDigits(s)
  {
    seq(n, _ => '0')
  }

  /** The digits of `n`, at least `width` of them. */
  function Digits(n: nat, width: nat): (s: string)
    ensures |s| >= width && |s| > 0 && AllDigits(s)
  {
    if |NatText(n)| >= width then NatText(n) else Zeros(width - |NatText(n)|) + NatText(n)
  }

  lemma {:induction false} LeadingZeros(k: nat, s: string)
    requires AllDigits(s)
    ensures AllDigits(Zeros(k) + s) && NatValue(Zeros(k) + s) == NatValue(s)
    decreases |s|
  {
    if s == "" {
      assert Zeros(k) + s == Zeros(k);
      ZerosValue(k);
    } else {
      LeadingZeros(k, s[..|s| - 1]);
      var t := Zeros(k) + s;
      assert t[..|t| - 1] == Zeros(k) + s[..|s| - 1];
    }
  }

  lemma {:induction false} ZerosValue(k: nat)
    ensures NatValue(Zeros(k)) == 0
  {
    if k > 0 {
      ZerosValue(k - 1);
      assert Zeros(k)[..k - 1] == Zeros(k - 1);
    }
  }

  lemma DigitsValue(n: nat, width: nat)
    ensures NatValue(Digits(n, width)) == n
  {
    NatTextValue(n);
    if |NatText(n)| < width {
      LeadingZeros(width - |NatText(n)|, NatText(n));
    }
  }

  function Unsigned(n: nat, scale: nat): string {
    var d := Digits(n, scale + 1);
    if scale == 0 then d else d[..|d| - scale] + "." + d[|d| - scale..]
  }

  /** Plain text, never scientific notation, and no sign on zero. */
  function DecText(d: Dec): string {
    if d.coef < 0 then "-" + Unsigned(-d.coef, d.scale) else Unsigned(d.coef, d.scale)
  }

  function ParsePlain(s: string): Option<(nat, nat)> {
    match RPartition(s, '.')
    case None => if Numeral(s) then Some((NatValue(s), 0)) else None
    case Some((whole, part)) =>
      if AllDigits(whole) && AllDigits(part) && whole + part != "" then Some((NatValue(whole + part), |part|)) else None
  }

  function Scaled(coef: int, scale: nat, exponent: int): Dec {
    if exponent <= scale then Dec(coef, scale - exponent) else Dec(coef * Pow10(exponent - scale), 0)
  }

  function ParseUnsigned(s: string): Option<Dec> {
    var cut := if 'e' in s then RPartition(s, 'e') else RPartition(s, 'E');
    match cut
    case None => (match ParsePlain(s) case Some(p) => Some(Dec(p.0, p.1)) case None => None)
    case Some((mantissa, exponent)) =>
      match (ParsePlain(mantissa), SignedInt(exponent))
      case (Some(p), Some(x)) => Some(Scaled(p.0, p.1, x))
      case _ => None
  }

  function ParseDec(s: string): Option<Dec> {
    ParseSigned(Strip(s))
  }

  function ParseSigned(t: string): Option<Dec> {
    if t != "" && t[0] == '-' then
      (match ParseUnsigned(t[1..]) case Some(d) => Some(Dec(-d.coef, d.scale)) case None => None)
    else if t != "" && t[0] == '+' then ParseUnsigned(t[1..])
    else ParseUnsigned(t)
  }

  /** Only digits and points, beginning with a digit and ending with one. */
  lemma UnsignedShape(n: nat, scale: nat)
    ensures var s := Unsigned(n, scale);
            && s != "" && IsDigit(s[0]) && IsDigit(s[|s| - 1])
            && forall i | 0 <= i < |s| :: IsDigit(s[i]) || s[i] == '.'
  {
  }

  lemma {:induction false} PlainWithPoint(whole: string, part: string)
    requires AllDigits(whole) && AllDigits(part) && whole + part != ""
    ensures ParsePlain(whole + ['.'] + part) == Some((NatValue(whole + part), |part|))
  {
    RPartitionAt(whole, part, '.');
  }

  lemma PlainRoundTrip(n: nat, scale: nat)
    ensures ParsePlain(Unsigned(n, scale)) == Some((n, scale))
  {
    var d := Digits(n, scale + 1);
    DigitsValue(n, scale + 1);
    if scale > 0 {
      var whole, part := d[..|d| - scale], d[|d| - scale..];
      assert whole + part == d;
      PlainWithPoint(whole, part);
    }
  }

  lemma UnsignedRoundTrip(n: nat, scale: nat)
    ensures ParseUnsigned(Unsigned(n, scale)) == Some(Dec(n, scale))
  {
    var s := Unsigned(n, scale);
    UnsignedShape(n, scale);
    PlainRoundTrip(n, scale);
    assert 'e' !in s && 'E' !in s;
    assert RPartition(s, 'E').None?;
  }

  lemma DecTextTight(d: Dec)
    ensures Tight(DecText(d)) && DecText(d) != ""
  {
    UnsignedShape(if d.coef < 0 then -d.coef else d.coef, d.scale);
  }

  lemma MinusSign(u: string)
    ensures ParseSigned("-" + u) == match ParseUnsigned(u) { case Some(d) => Some(Dec(-d.coef, d.scale)) case None => None }
  {
    assert ("-" + u)[1..] == u;
  }

  lemma SignPutBack(u: string, d: Dec, t: string)
    requires u != "" && IsDigit(u[0]) && ParseUnsigned(u) == Some(Dec(if d.coef < 0 then -d.coef else d.coef, d.scale))
    requires t == if d.coef < 0 then "-" + u else u
    ensures ParseSigned(t) == Some(d)
  {
    MinusSign(u);
  }

  lemma UnsignedBack(n: nat, scale: nat) returns (u: string)
    ensures u == Unsigned(n, scale) && u != "" && IsDigit(u[0]) && ParseUnsigned(u) == Some(Dec(n, scale))
  {
    u := Unsigned(n, scale);
    UnsignedShape(n, scale);
    UnsignedRoundTrip(n, scale);
  }

  lemma DecTextIs(d: Dec)
    ensures DecText(d) == if d.coef < 0 then "-" + Unsigned(-d.coef, d.scale) else Unsigned(d.coef, d.scale)
  {
  }

  lemma SignedRoundTrip(d: Dec)
    ensures ParseSigned(DecText(d)) == Some(d)
  {
    var u := UnsignedBack(if d.coef < 0 then -d.coef else d.coef, d.scale);
    DecTextIs(d);
    SignPutBack(u, d, DecText(d));
  }

  /** Printing then parsing a decimal gives the same coefficient and scale. */
  lemma DecRoundTrip(d: Dec)
    ensures ParseDec(DecText(d)) == Some(d)
  {
    DecTextTight(d);
    StripTight(DecText(d));
    SignedRoundTrip(d);
  }

  // ── texts nobody printed ──────────────────────────────────────────────────

  /** Blanks around a printed value do not matter. */
  lemma PaddedReads(before: string, after: string, d: Dec, n: int, b: bool)
    requires Blank(before) && Blank(after)
    ensures ParseDec(before + DecText(d) + after) == Some(d)
    ensures ParseInt(before + IntText(n) + after) == Some(n)
    ensures ParseBool(before + BoolText(b) + after) == Some(b)
  {
    DecTextTight(d);
    IntTextTight(n);
    StripAround(before, DecText(d), after);
    StripAround(before, IntText(n), after);
    StripAround(before, BoolText(b), after);
    DecRoundTrip(d);
    IntRoundTrip(n);
    BoolRoundTrip(b);
    StripTight(DecText(d));
    StripTight(IntText(n));
    StripTight(BoolText(b));
  }

  /** A plus sign may stand before what has no sign. */
  lemma PlusReads(n: nat, scale: nat)
    ensures ParseDec("+" + DecText(Dec(n, scale))) == Some(Dec(n, scale))
    ensures ParseInt("+" + IntText(n)) == Some(n)
  {
    var u, t := Unsigned(n, scale), NatText(n);
    UnsignedShape(n, scale);
    UnsignedRoundTrip(n, scale);
    NatTextValue(n);
    assert ("+" + u)[1..] == u && ("+" + t)[1..] == t;
    StripTight("+" + u);
    StripTight("+" + t);
  }

  lemma {:induction false} Pow10Adds(a: nat, b: nat)
    ensures Pow10(a + b) == Pow10(a) * Pow10(b)
  {
    if a > 0 {
      Pow10Adds(a - 1, b);
      assert Pow10(a + b) == 10 * Pow10(a - 1 + b);
    }
  }

  lemma Regroup(x: real, a: real, b: real, ab: real)
    requires ab == a * b
    ensures x * ab == x * b * a
  {
  }

  lemma ProductAsReal(a: int, b: int, p: int)
    requires p == a * b
    ensures p as real == a as real * b as real
  {
  }

  /** Each digit behind the point is taken back by a factor of ten. */
  lemma {:induction false} PointLeft(coef: int, scale: nat, k: nat)
    ensures Dec(coef, scale + k).Value() * Pow10(k) as real == Dec(coef, scale).Value()
  {
    if k > 0 {
      PointLeft(coef, scale, k - 1);
      PlaceValue(coef, scale + k - 1);
      Regroup(Dec(coef, scale + k).Value(), Pow10(k - 1) as real, 10.0, Pow10(k) as real);
    }
  }

  lemma Whole(coef: int, v: real, a: nat, b: nat, ab: nat)
    requires v * b as real == coef as real && ab == a * b
    ensures v * ab as real == (coef * a) as real
  {
    ProductAsReal(a, b, ab);
    ProductAsReal(coef, a, coef * a);
    Regroup(v, a as real, b as real, ab as real);
  }

  lemma WholeValue(n: int, d: Dec)
    requires d == Dec(n, 0)
    ensures d.Value() == n as real
  {
  }

  lemma PointGone(coef: int, scale: nat, k: nat, a: nat, b: nat, ab: nat)
    requires a == Pow10(k) && b == Pow10(scale) && ab == Pow10(k + scale)
    ensures Dec(coef * a, 0).Value() == Dec(coef, scale).Value() * ab as real
  {
    PointLeft(coef, 0, scale);
    WholeValue(coef, Dec(coef, 0));
    Pow10Adds(k, scale);
    Whole(coef, Dec(coef, scale).Value(), a, b, ab);
    WholeValue(coef * a, Dec(coef * a, 0));
  }

  /** An exponent no larger than the digits behind the point multiplies the mantissa's value by its power of ten. */
  lemma ScaledWithin(coef: int, scale: nat, exponent: nat)
    requires exponent <= scale
    ensures Scaled(coef, scale, exponent).Value() == Dec(coef, scale).Value() * Pow10(exponent) as real
  {
    PointLeft(coef, scale - exponent, exponent);
  }

  /** A negative exponent divides the mantissa's value by its power of ten. */
  lemma ScaledBelow(coef: int, scale: nat, k: nat)
    ensures Scaled(coef, scale, Negated(k)).Value() * Pow10(k) as real == Dec(coef, scale).Value()
  {
    PointLeft(coef, scale, k);
  }

  /** A large one multiplies it, past the last digit. */
  lemma ScaledBeyond(coef: int, scale: nat, exponent: nat, a: nat, b: nat, ten: nat)
    requires exponent > scale && a == Pow10(exponent - scale) && b == Pow10(scale) && ten == Pow10(exponent)
    ensures Scaled(coef, scale, exponent).Value() == Dec(coef, scale).Value() * ten as real
  {
    PointGone(coef, scale, exponent - scale, a, b, ten);
    assert Scaled(coef, scale, exponent) == Dec(coef * a, 0);
  }

  /** A mantissa and an exponent, cut at the letter between them. */
  lemma CutAtLetter(u: string, x: string, mark: char, n: nat, scale: nat, exponent: int)
    requires (mark == 'e' || mark == 'E') && ParsePlain(u) == Some((n, scale)) && SignedInt(x) == Some(exponent)
    requires 'e' !in u && 'e' !in x && 'E' !in x
    ensures ParseUnsigned(u + [mark] + x) == Some(Scaled(n, scale, exponent))
  {
    var t := u + [mark] + x;
    assert t[|u|] == mark;
    RPartitionAt(u, x, mark);
  }

  lemma CutText(u: string, x: string, mark: char, n: nat, scale: nat, exponent: int)
    requires (mark == 'e' || mark == 'E') && ParsePlain(u) == Some((n, scale)) && SignedInt(x) == Some(exponent)
    requires u != "" && IsDigit(u[0]) && Tight(x) && x != ""
    requires 'e' !in u && 'e' !in x && 'E' !in x
    ensures ParseDec(u + [mark] + x) == Some(Scaled(n, scale, exponent))
  {
    var t := u + [mark] + x;
    assert t[0] == u[0] && t[|t| - 1] == x[|x| - 1];
    StripTight(t);
    CutAtLetter(u, x, mark, n, scale, exponent);
  }

  /** Scientific notation, with either letter, is read as the mantissa with its point moved. */
  lemma ScientificReads(n: nat, scale: nat, exponent: int, mark: char)
    requires mark == 'e' || mark == 'E'
    ensures ParseDec(DecText(Dec(n, scale)) + [mark] + IntText(exponent)) == Some(Scaled(n, scale, exponent))
  {
    UnsignedShape(n, scale);
    PlainRoundTrip(n, scale);
    IntTextTight(exponent);
    SignedIntBack(exponent);
    CutText(Unsigned(n, scale), IntText(exponent), mark, n, scale, exponent);
  }

  lemma SignedIntBack(n: int)
    ensures SignedInt(IntText(n)) == Some(n)
  {
    IntTextTight(n);
    StripTight(IntText(n));
    IntRoundTrip(n);
  }

  lemma DecTextChars(d: Dec)
    ensures forall i | 0 <= i < |DecText(d)| :: IsDigit(DecText(d)[i]) || DecText(d)[i] == '.' || DecText(d)[i] == '-'
  {
    UnsignedShape(if d.coef < 0 then -d.coef else d.coef, d.scale);
  }

  // ── switches ──────────────────────────────────────────────────────────────

  function LowerChar(c: char): char {
    if 'A' <= c <= 'Z' then (c as int + 32) as char else c
  }

  function Lower(s: string): (l: string)
    ensures |l| == |s|
  {
    seq(|s|, i requires 0 <= i < |s| => LowerChar(s[i]))
  }

  function ParseBool(s: string): Option<bool> {
    var raw := Lower(Strip(s));
    if raw in {"true", "1", "yes", "on"} then Some(true)
    else if raw in {"false", "0", "no", "off", ""} then Some(false)
    else None
  }

  function BoolText(b: bool): string {
    if b then "true" else "false"
  }

  lemma BoolRoundTrip(b: bool)
    ensures ParseBool(BoolText(b)) == Some(b)
  {
    StripTight("true");
    StripTight("false");
    assert Lower("true") == "true";
    assert Lower("false") == "false";
  }

  /** The same letter, in whichever case. */
  predicate SameLetter(c: char, d: char) {
    c == d || ('A' <= c <= 'Z' && d as int == c as int + 32) || ('A' <= d <= 'Z' && c as int == d as int + 32)
  }

  /** The words for a switch, in any case, and no other word. */
  lemma SwitchWords(s: string, word: string)
    requires |s| == |word| && (forall i | 0 <= i < |s| :: SameLetter(s[i], word[i]))
    requires Tight(word) && forall i | 0 <= i < |word| :: !('A' <= word[i] <= 'Z')
    ensures ParseBool(s) == if word in {"true", "1", "yes", "on"} then Some(true)
                            else if word in {"false", "0", "no", "off", ""} then Some(false) else None
  {
    assert Lower(s) == word;
    assert Tight(s);
    StripTight(s);
  }
}
