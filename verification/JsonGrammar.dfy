/** What the parser accepts, beyond the text the program prints itself. */
module JsonGrammar {
  import opened Wrappers
  import opened Numbers
  import opened Host
  import opened JsonText
  import opened JsonProofs

  // ---------- White space ----------

  predicate IsSpace(c: char) {
    c as int == 0x20 || c as int == 0x09 || c as int == 0x0A || c as int == 0x0D
  }

  predicate AllSpace(s: string) {
    forall i :: 0 <= i < |s| ==> IsSpace(s[i])
  }

  lemma {:induction false} SkipsAllSpace(s: string, t: string)
    requires AllSpace(s)
    ensures SkipSpace(s + t) == SkipSpace(t)
  {
    if s == "" {
      assert s + t == t;
    } else {
      assert (s + t)[1..] == s[1..] + t;
      SkipsAllSpace(s[1..], t);
    }
  }

  lemma {:induction false} SkipsEverything(s: string)
    ensures SkipSpace(s) == "" <==> AllSpace(s)
  {
    if s != "" {
      SkipsEverything(s[1..]);
      assert AllSpace(s) <==> IsSpace(s[0]) && AllSpace(s[1..]) by {
        assert forall i :: 0 < i < |s| ==> s[i] == s[1..][i - 1];
      }
    }
  }

  /** Around a text there may be white space, and nothing else. */
  lemma OnlySpaceAround(st: Style, j: Json, before: string, after: string)
    requires Printable(SortKeys(j)) && AllSpace(before) && EndsNumber(after)
    ensures Loads(before + (Dumps(st, j) + after)) == if AllSpace(after) then Some(SortKeys(j)) else None
  {
    var text := Dumps(st, j);
    ParsePrinted(st, 0, SortKeys(j), after);
    PrintStarts(st, 0, SortKeys(j));
    StartsAppend(text, after);
    SkipsAllSpace(before, text + after);
    SkipsEverything(after);
  }

  // ---------- Strings ----------

  /** A character that stands for itself. */
  predicate IsPlain(c: char) {
    c as int >= 0x20 && c != '\"' && c != '\\'
  }

  /** Plain characters are read up to the closing quote; a control character among them is refused. */
  lemma {:induction false} PlainIsRead(s: string, c: char, rest: string)
    requires forall i :: 0 <= i < |s| ==> IsPlain(s[i])
    ensures ParseChars(s + ("\"" + rest)) == Some((s, rest))
    ensures c as int < 0x20 ==> ParseChars(s + ([c] + rest)) == None
  {
    if s == "" {
      assert s + ("\"" + rest) == "\"" + rest && s + ([c] + rest) == [c] + rest;
      Uncons('\"', rest);
      Uncons(c, rest);
    } else {
      PlainIsRead(s[1..], c, rest);
      assert (s + ("\"" + rest))[1..] == s[1..] + ("\"" + rest);
      assert (s + ([c] + rest))[1..] == s[1..] + ([c] + rest);
      assert [s[0]] + s[1..] == s;
    }
  }

  /** The letter after a backslash and the character it stands for. */
  const ESCAPES: map<char, int> :=
    map['\"' := 0x22, '\\' := 0x5C, '/' := 0x2F, 'b' := 0x08, 'f' := 0x0C, 'n' := 0x0A, 'r' := 0x0D, 't' := 0x09]

  /** One of these letters or a code follows a backslash. */
  lemma EscapesAreRead(c: char, rest: string)
    ensures c in ESCAPES ==> ParseEscape([c] + rest) == Some((ESCAPES[c] as char, rest))
    ensures c !in ESCAPES && c != 'u' ==> ParseEscape([c] + rest) == None
  {
    hide ReadHex4;
    Uncons(c, rest);
  }

  /** Letters in a code may be small or capital. */
  lemma HexLetters(d: nat)
    requires 10 <= d < 16
    ensures HexValue(('a' as int + d - 10) as char) == HexValue(('A' as int + d - 10) as char) == Some(d)
  {
  }

  /** The second half of a pair, after the first one. */
  predicate HasPartner(rest: string) {
    "\\u" <= rest && ReadHex4(rest[2..]).Some? && 0xDC00 <= ReadHex4(rest[2..]).value < 0xE000
  }

  /** A code of four digits stands for its character; half of a pair is refused without the other half. */
  lemma CodesAreRead(u: string, rest: string)
    requires |u| == 4 && ReadHex4(u).Some?
    ensures var n := ReadHex4(u).value;
      ParseEscape("u" + u + rest) ==
        if 0xD800 <= n < 0xDC00 then
          if HasPartner(rest) then
            Some(((0x10000 + 0x400 * (n - 0xD800) + (ReadHex4(rest[2..]).value - 0xDC00)) as char, rest[6..]))
          else None
        else if 0xDC00 <= n < 0xE000 then None
        else Some((n as char, rest))
  {
    hide HexValue;
    var s := "u" + u + rest;
    assert s[1..] == u + rest && s[5..] == rest;
    assert ReadHex4(u + rest) == ReadHex4(u);
    if HasPartner(rest) {
      assert s[5] == '\\' && s[6] == 'u' && s[7..] == rest[2..] && s[11..] == rest[6..];
    } else if |s| >= 11 && s[5] == '\\' && s[6] == 'u' {
      assert s[7..] == rest[2..] && "\\u" <= rest;
    }
  }

  // ---------- Numbers ----------

  predicate IsDigits(s: string) {
    s != "" && AllDigits(s)
  }

  predicate IsExponent(exp: string) {
    exp == "" || exists lead :: lead in {"e", "E", "e+", "E+", "e-", "E-"} && lead <= exp && IsDigits(exp[|lead|..])
  }

  /** A sign, digits without a leading zero, a fraction and an exponent. */
  predicate IsWritten(sign: string, whole: string, frac: string, exp: string) {
    && sign in {"", "-"}
    && IsDigits(whole) && (whole[0] == '0' ==> |whole| == 1)
    && (frac == "" || ("." <= frac && IsDigits(frac[1..])))
    && IsExponent(exp)
  }

  lemma DigitsRun(s: string, rest: string)
    requires IsDigits(s) && (rest == "" || !IsDigit(rest[0]))
    ensures DigitRun(s + rest) == |s|
  {
    DigitRunStops(s, rest);
    AllDigitsRun(s);
  }

  lemma WholeIsScanned(whole: string, rest: string)
    requires IsDigits(whole) && (whole[0] == '0' ==> |whole| == 1) && (rest == "" || !IsDigit(rest[0]))
    ensures IntLen(whole + rest) == |whole|
  {
    DigitsRun(whole, rest);
  }

  lemma FracIsScanned(frac: string, rest: string)
    requires frac == "" || ("." <= frac && IsDigits(frac[1..]))
    requires rest == "" || (!IsDigit(rest[0]) && rest[0] != '.')
    ensures FracLen(frac + rest) == |frac|
  {
    if frac == "" {
      assert frac + rest == rest;
    } else {
      assert (frac + rest)[1..] == frac[1..] + rest;
      DigitsRun(frac[1..], rest);
    }
  }

  lemma LeadIsScanned(lead: string, t: string)
    requires lead in {"e", "E", "e+", "E+", "e-", "E-"} && t != "" && IsDigit(t[0])
    ensures (lead + t)[|lead|..] == t && ExpLen(lead + t) == if DigitRun(t) == 0 then 0 else |lead| + DigitRun(t)
  {
    hide DigitRun;
    var s := lead + t;
    assert s[|lead|..] == t && s[0] == lead[0];
    assert s[1] == if |lead| == 2 then lead[1] else t[0];
  }

  lemma ExpIsScanned(exp: string, rest: string)
    requires IsExponent(exp) && EndsNumber(rest)
    ensures ExpLen(exp + rest) == |exp|
  {
    if exp == "" {
      assert exp + rest == rest;
    } else {
      var lead :| lead in {"e", "E", "e+", "E+", "e-", "E-"} && lead <= exp && IsDigits(exp[|lead|..]);
      var digits := exp[|lead|..];
      DigitsRun(digits, rest);
      assert IsDigit((digits + rest)[0]);
      hide IsExponent, IsDigits, IsDigit, EndsNumber, DigitRun, ExpLen;
      assert exp + rest == lead + (digits + rest);
      LeadIsScanned(lead, digits + rest);
    }
  }

  lemma SignIsScanned(sign: string, t: string)
    requires sign in {"", "-"} && t != "" && IsDigit(t[0])
    ensures SignLen(sign + t) == |sign| && (sign + t)[|sign|..] == t
  {
  }

  lemma After(a: string, b: string)
    ensures (a + b)[..|a|] == a && (a + b)[|a|..] == b
  {
  }

  lemma PartsBegin(whole: string, frac: string, exp: string, rest: string)
    requires IsWritten("", whole, frac, exp) && EndsNumber(rest)
    ensures whole != "" && IsDigit(whole[0])
    ensures var t := exp + rest; t == "" || (!IsDigit(t[0]) && t[0] != '.')
    ensures var t := frac + (exp + rest); t == "" || !IsDigit(t[0])
  {
  }

  lemma NumberIsScanned(sign: string, whole: string, frac: string, exp: string, rest: string)
    requires IsWritten(sign, whole, frac, exp) && EndsNumber(rest)
    ensures ScanNumber(sign + (whole + (frac + (exp + rest)))) == Scan(|sign|, |whole|, |frac|, |exp|)
  {
    var afterSign, afterWhole, afterFrac := whole + (frac + (exp + rest)), frac + (exp + rest), exp + rest;
    PartsBegin(whole, frac, exp, rest);
    hide IntLen, FracLen, ExpLen, SignLen, IsDigits, IsDigit, IsExponent, EndsNumber;
    SignIsScanned(sign, afterSign);
    WholeIsScanned(whole, afterWhole);
    FracIsScanned(frac, afterFrac);
    ExpIsScanned(exp, rest);
    After(whole, afterWhole);
    After(frac, afterFrac);
  }

  lemma Rejoin(sign: string, whole: string, frac: string, exp: string, rest: string)
    ensures sign + whole + frac + exp + rest == sign + (whole + (frac + (exp + rest)))
  {
  }

  lemma ScannedIsRead(text: string, n: Scan, rest: string)
    requires ScanNumber(text + rest) == n && n.Len() == |text| && n.whole > 0
    ensures ParseNumber(text + rest) ==
      Some((if n.frac + n.exp == 0 then JInt(IntOf(text)) else JFloat(Py.floatOf(text)), rest))
  {
    hide ScanNumber, IntOf;
    After(text, rest);
  }

  /** Numbers are read as integers, or as floats if they have a fraction or an exponent. */
  lemma NumbersAreRead(sign: string, whole: string, frac: string, exp: string, rest: string)
    requires IsWritten(sign, whole, frac, exp) && EndsNumber(rest)
    ensures var text := sign + whole + frac + exp;
      ParseNumber(text + rest) ==
        Some((if frac == "" && exp == "" then JInt(IntOf(text)) else JFloat(Py.floatOf(text)), rest))
  {
    PartsBegin(whole, frac, exp, rest);
    NumberIsScanned(sign, whole, frac, exp, rest);
    hide ScanNumber, ParseNumber, IntOf, EndsNumber, IsWritten, IsDigit;
    Rejoin(sign, whole, frac, exp, rest);
    ScannedIsRead(sign + whole + frac + exp, Scan(|sign|, |whole|, |frac|, |exp|), rest);
  }

  /** No digit follows a leading zero. */
  lemma LeadingZeroIsRefused(d: char, rest: string)
    requires IsDigit(d)
    ensures Loads("0" + ([d] + rest)) == None
  {
    var s := "0" + ([d] + rest);
    assert s[1..] == [d] + rest && s[0..] == s;
    assert FracLen(s[1..]) == 0 && ExpLen(s[1..]) == 0;
    assert ScanNumber(s) == Scan(0, 1, 0, 0);
    assert ParseValue(s) == Some((JInt(IntOf(s[..1])), s[1..]));
    assert SkipSpace(s) == s && SkipSpace(s[1..]) == s[1..];
  }

  // ---------- Words ----------

  /** The words, among them three that are no JSON but that Python reads. */
  lemma WordsAreRead(rest: string)
    ensures ParseValue("null" + rest) == Some((JNull, rest))
    ensures ParseValue("true" + rest) == Some((JBool(true), rest))
    ensures ParseValue("false" + rest) == Some((JBool(false), rest))
    ensures ParseValue("NaN" + rest) == Some((JFloat(Py.nan), rest))
    ensures ParseValue("Infinity" + rest) == Some((JFloat(Py.infinity), rest))
    ensures ParseValue("-Infinity" + rest) == Some((JFloat(Py.minusInfinity), rest))
  {
    WordIsRead("null", JNull, rest);
    WordIsRead("true", JBool(true), rest);
    WordIsRead("false", JBool(false), rest);
    WordIsRead("NaN", JFloat(Py.nan), rest);
    WordIsRead("Infinity", JFloat(Py.infinity), rest);
    WordIsRead("-Infinity", JFloat(Py.minusInfinity), rest);
  }

  lemma WordIsRead(word: string, j: Json, rest: string)
    requires word != ""
    ensures Literal(word, j, word + rest) == Some((j, rest))
    ensures (word + rest)[0] == word[0] && (|word| > 1 ==> |word + rest| > 1 && (word + rest)[1] == word[1])
  {
  }
}
