/** The number grammar of section 6 of RFC 8259, and decimal integers. */
module Numbers {

  predicate IsDigit(c: char) {
    '0' <= c <= '9'
  }

  function DigitChar(d: nat): (c: char)
    requires d < 10
    ensures IsDigit(c) && DigitValue(c) == d
  {
    (48 + d) as char
  }

  function DigitValue(c: char): int {
    c as int - 48
  }

  predicate AllDigits(s: string) {
    forall i :: 0 <= i < |s| ==> IsDigit(s[i])
  }

  /** Decimal digits of `n`, without leading zeros. */
  function NatText(n: nat): (s: string)
    ensures s != "" && AllDigits(s)
    ensures s[0] == '0' ==> |s| == 1
    ensures NatOf(s) == n
  {
    if n < 10 then [DigitChar(n)]
    else
      var s := NatText(n / 10) + [DigitChar(n % 10)];
      assert s[..|s| - 1] == NatText(n / 10);
      s
  }

  function NatOf(s: string): int {
    if s == "" then 0 else 10 * NatOf(s[..|s| - 1]) + DigitValue(s[|s| - 1])
  }

  /** Python's `str(int)` and `int(str)` on JSON integers. */
  function IntText(i: int): (s: string)
    ensures IntOf(s) == i
  {
    if i < 0 then
      assert ("-" + NatText(-i))[1..] == NatText(-i);
      "-" + NatText(-i)
    else NatText(i)
  }

  function IntOf(s: string): int {
    if s != "" && s[0] == '-' then -NatOf(s[1..]) else NatOf(s)
  }

  // ---------- Scanning ----------

  function DigitRun(s: string): (n: nat)
    ensures n <= |s|
  {
    if s != "" && IsDigit(s[0]) then 1 + DigitRun(s[1..]) else 0
  }

  function SignLen(s: string): (n: nat)
    ensures n <= |s|
  {
    if s != "" && s[0] == '-' then 1 else 0
  }

  function IntLen(s: string): (n: nat)
    ensures n <= |s|
  {
    if s == "" || !IsDigit(s[0]) then 0 else if s[0] == '0' then 1 else DigitRun(s)
  }

  function FracLen(s: string): (n: nat)
    ensures n <= |s|
  {
    if |s| >= 2 && s[0] == '.' && IsDigit(s[1]) then 1 + DigitRun(s[1..]) else 0
  }

  function ExpLen(s: string): (n: nat)
    ensures n <= |s|
  {
    if s == "" || (s[0] != 'e' && s[0] != 'E') then 0
    else
      var sign := if |s| >= 2 && (s[1] == '+' || s[1] == '-') then 2 else 1;
      var d := DigitRun(s[sign..]);
      if d == 0 then 0 else sign + d
  }

  /** Lengths of the four parts of the longest number at the front of `s`. */
  datatype Scan = Scan(sign: nat, whole: nat, frac: nat, exp: nat) {
    function Len(): nat {
      sign + whole + frac + exp
    }
  }

  function ScanNumber(s: string): (r: Scan)
    ensures r.Len() <= |s|
  {
    var t := s[SignLen(s)..];
    var u := t[IntLen(t)..];
    var v := u[FracLen(u)..];
    Scan(SignLen(s), IntLen(t), FracLen(u), ExpLen(v))
  }

  predicate IsNumber(s: string) {
    var r := ScanNumber(s);
    r.whole > 0 && r.Len() == |s|
  }

  /** A number with a fraction or an exponent, which Python reads as a float. */
  predicate IsFloatLiteral(s: string) {
    IsNumber(s) && ScanNumber(s).frac + ScanNumber(s).exp > 0
  }

  /** `rest` cannot continue a number. */
  predicate EndsNumber(rest: string) {
    rest == "" || !(IsDigit(rest[0]) || rest[0] == '.' || rest[0] == 'e' || rest[0] == 'E')
  }

  lemma {:induction false} DigitRunStops(s: string, rest: string)
    requires rest == "" || !IsDigit(rest[0])
    ensures DigitRun(s + rest) == DigitRun(s)
  {
    if s == "" {
      assert s + rest == rest;
    } else {
      DigitRunStops(s[1..], rest);
      assert (s + rest)[1..] == s[1..] + rest;
    }
  }

  lemma {:induction false} AllDigitsRun(s: string)
    requires AllDigits(s)
    ensures DigitRun(s) == |s|
  {
    if s != "" {
      AllDigitsRun(s[1..]);
    }
  }

  lemma IntTextIsNumber(i: int)
    ensures IsNumber(IntText(i)) && !IsFloatLiteral(IntText(i))
  {
    var s := IntText(i);
    var digits := NatText(if i < 0 then -i else i);
    assert s[SignLen(s)..] == digits;
    AllDigitsRun(digits);
    assert IntLen(digits) == |digits|;
    assert digits[|digits|..] == "";
  }

  lemma IntLenExtends(s: string, rest: string)
    requires EndsNumber(rest)
    ensures IntLen(s + rest) == IntLen(s)
  {
    DigitRunStops(s, rest);
    if s == "" {
      assert s + rest == rest;
    }
  }

  lemma FracLenExtends(s: string, rest: string)
    requires EndsNumber(rest) && (s == "." ==> rest == "")
    ensures FracLen(s + rest) == FracLen(s)
  {
    if s == "" {
      assert s + rest == rest;
    } else {
      DigitRunStops(s[1..], rest);
      assert (s + rest)[1..] == s[1..] + rest;
    }
  }

  lemma ExpLenExtends(s: string, rest: string)
    requires EndsNumber(rest) && ExpLen(s) == |s|
    ensures ExpLen(s + rest) == ExpLen(s)
  {
    if s == "" {
      assert s + rest == rest;
    } else {
      var sign := if |s| >= 2 && (s[1] == '+' || s[1] == '-') then 2 else 1;
      assert |s| >= 2 && (s + rest)[1] == s[1];
      DigitRunStops(s[sign..], rest);
      assert (s + rest)[sign..] == s[sign..] + rest;
    }
  }

  lemma DropAppend(s: string, n: nat, rest: string)
    requires n <= |s|
    ensures (s + rest)[n..] == s[n..] + rest
  {
  }

  /** Text that cannot continue a number does not change how the number before it is split. */
  lemma NumberStops(s: string, rest: string)
    requires IsNumber(s) && EndsNumber(rest)
    ensures ScanNumber(s + rest) == ScanNumber(s)
  {
    var t := s[SignLen(s)..];
    var u := t[IntLen(t)..];
    var v := u[FracLen(u)..];
    assert ExpLen(v) == |v|;
    DropAppend(s, SignLen(s), rest);
    IntLenExtends(t, rest);
    DropAppend(t, IntLen(t), rest);
    FracLenExtends(u, rest);
    DropAppend(u, FracLen(u), rest);
    ExpLenExtends(v, rest);
  }
}
