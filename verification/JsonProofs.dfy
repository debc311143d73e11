/** Parsing inverts every style of printing; hence each style of printing is injective. */
module JsonProofs {
  import opened Wrappers
  import opened Dicts
  import opened Numbers
  import opened Host
  import opened JsonText

  /** Trees that have JSON text: finite numbers, and unique keys in every object. */
  ghost predicate Printable(j: Json) {
    match j
    case JFloat(f) => Py.isFinite(f)
    case JArr(items) => forall i :: 0 <= i < |items| ==> Printable(items[i])
    case JObj(fields) => UniqueKeys(fields) && forall i :: 0 <= i < |fields| ==> Printable(fields[i].val)
    case _ => true
  }

  // ---------- Strings ----------

  lemma ReadsUnicodeEscape(n: nat, tail: string)
    requires n < 0xD800 || 0xE000 <= n < 0x10000
    ensures ParseEscape("u" + Hex4(n) + tail) == Some((n as char, tail))
  {
    var s := "u" + Hex4(n) + tail;
    assert s[1..] == Hex4(n) + tail;
    Hex4Reads(n, tail);
    assert s[5..] == tail;
  }

  lemma ReadsSurrogatePair(v: nat, tail: string)
    requires v < 0x100000
    ensures ParseEscape("u" + Hex4(0xD800 + v / 0x400) + "\\u" + Hex4(0xDC00 + v % 0x400) + tail)
         == Some(((0x10000 + v) as char, tail))
  {
    hide Hex4;
    var high, low := 0xD800 + v / 0x400, 0xDC00 + v % 0x400;
    var s := "u" + Hex4(high) + "\\u" + Hex4(low) + tail;
    assert s[1..] == Hex4(high) + ("\\u" + Hex4(low) + tail);
    Hex4Reads(high, "\\u" + Hex4(low) + tail);
    assert s[5] == '\\' && s[6] == 'u';
    assert s[7..] == Hex4(low) + tail;
    Hex4Reads(low, tail);
    assert s[11..] == tail;
  }

  lemma Assoc(a: string, b: string, c: string)
    ensures a + b + c == a + (b + c)
  {
  }

  lemma Regroup(a: string, b: string, c: string, d: string, e: string)
    ensures a + (b + c + d) + e == a + (b + (c + (d + e)))
  {
  }

  lemma Uncons(c: char, t: string)
    ensures ([c] + t)[0] == c && ([c] + t)[1..] == t
  {
  }

  lemma ReadsShortEscape(c: char, tail: string)
    requires ShortEscape(c).Some?
    ensures ParseEscape([ShortEscape(c).value] + tail) == Some((c, tail))
  {
    assert ([ShortEscape(c).value] + tail)[1..] == tail;
  }

  lemma ReadsEscape(ascii: bool, c: char, tail: string)
    requires Escape(ascii, c) != [c]
    ensures Escape(ascii, c)[0] == '\\'
    ensures ParseEscape(Escape(ascii, c)[1..] + tail) == Some((c, tail))
  {
    var e := Escape(ascii, c)[1..];
    if ShortEscape(c).Some? {
      assert e == [ShortEscape(c).value];
      ReadsShortEscape(c, tail);
    } else if c as int < 0x10000 {
      assert e == "u" + Hex4(c as int);
      ReadsUnicodeEscape(c as int, tail);
    } else {
      var v := c as int - 0x10000;
      assert e == "u" + Hex4(0xD800 + v / 0x400) + "\\u" + Hex4(0xDC00 + v % 0x400);
      ReadsSurrogatePair(v, tail);
    }
  }

  lemma ReadsChar(ascii: bool, c: char, tail: string)
    requires ParseChars(tail).Some?
    ensures ParseChars(Escape(ascii, c) + tail) == Some(([c] + ParseChars(tail).value.0, ParseChars(tail).value.1))
  {
    var s := Escape(ascii, c) + tail;
    if Escape(ascii, c) == [c] {
      assert s[0] == c && s[1..] == tail;
    } else {
      ReadsEscape(ascii, c, tail);
      assert s[1..] == Escape(ascii, c)[1..] + tail;
    }
  }

  lemma {:induction false} ReadsQuoted(ascii: bool, s: string, rest: string)
    ensures ParseChars(EscapeAll(ascii, s) + ("\"" + rest)) == Some((s, rest))
  {
    var close := "\"" + rest;
    if s == "" {
      assert EscapeAll(ascii, s) + close == close;
      assert close[1..] == rest;
    } else {
      var e, es := Escape(ascii, s[0]), EscapeAll(ascii, s[1..]);
      ReadsQuoted(ascii, s[1..], rest);
      ReadsChar(ascii, s[0], es + close);
      Assoc(e, es, close);
      assert [s[0]] + s[1..] == s;
    }
  }

  lemma QuoteOpens(ascii: bool, s: string, rest: string)
    ensures var t := Quote(ascii, s) + rest; t[0] == '\"' && ParseChars(t[1..]) == Some((s, rest))
  {
    hide EscapeAll, ParseChars;
    assert (Quote(ascii, s) + rest)[1..] == EscapeAll(ascii, s) + ("\"" + rest);
    ReadsQuoted(ascii, s, rest);
  }

  // ---------- White space ----------

  lemma {:induction false} SkipsSpaces(n: nat, t: string)
    ensures SkipSpace(Spaces(n) + t) == SkipSpace(t)
  {
    if n == 0 {
      assert Spaces(n) + t == t;
    } else {
      SkipsSpaces(n - 1, t);
      assert (Spaces(n) + t)[1..] == Spaces(n - 1) + t;
    }
  }

  lemma SkipsNewLine(st: Style, level: nat, t: string)
    ensures SkipSpace(NewLine(st, level) + t) == SkipSpace(t)
  {
    if st.pretty {
      assert (NewLine(st, level) + t)[1..] == Spaces(2 * level) + t;
      SkipsSpaces(2 * level, t);
    } else {
      assert NewLine(st, level) + t == t;
    }
  }

  predicate Starts(s: string) {
    s != "" && s[0] !in {' ', '\t', '\n', '\r', ']', '}', ','}
  }

  lemma NumberStarts(s: string)
    requires IsNumber(s)
    ensures s != "" && (IsDigit(s[0]) || (s[0] == '-' && |s| > 1 && IsDigit(s[1])))
  {
    assert IntLen(s[SignLen(s)..]) > 0;
  }

  lemma PrintStarts(st: Style, level: nat, j: Json)
    requires Printable(j)
    ensures Starts(Print(st, level, j))
  {
    match j
    case JInt(i) =>
      IntTextIsNumber(i);
      NumberStarts(IntText(i));
    case JFloat(f) =>
      NumberStarts(Py.floatText(f));
    case _ =>
  }

  lemma StartsAppend(s: string, rest: string)
    requires Starts(s)
    ensures Starts(s + rest) && SkipSpace(s + rest) == s + rest
  {
  }

  // ---------- Values ----------

  lemma ReadsNumber(s: string, rest: string)
    requires IsNumber(s) && EndsNumber(rest)
    ensures ParseValue(s + rest)
         == Some((if IsFloatLiteral(s) then JFloat(Py.floatOf(s)) else JInt(IntOf(s)), rest))
  {
    hide IsNumber, EndsNumber, ParseValue, ParseNumber, IsFloatLiteral;
    NumberStarts(s);
    DispatchesNumber(s + rest);
    ReadsNumberText(s, rest);
  }

  lemma DispatchesNumber(s: string)
    requires s != "" && (IsDigit(s[0]) || (s[0] == '-' && |s| > 1 && IsDigit(s[1])))
    ensures ParseValue(s) == ParseNumber(s)
  {
    hide ParseValue, ParseScalar, ParseNumber;
    DispatchesScalar(s);
    ScalarNumber(s);
  }

  lemma DispatchesScalar(s: string)
    requires s != "" && s[0] != '\"' && s[0] != '[' && s[0] != '{'
    ensures ParseValue(s) == ParseScalar(s)
  {
    hide ParseScalar;
  }

  lemma ScalarNumber(s: string)
    requires s != "" && (IsDigit(s[0]) || (s[0] == '-' && |s| > 1 && IsDigit(s[1])))
    ensures ParseScalar(s) == ParseNumber(s)
  {
    hide Literal, ParseNumber;
  }

  lemma ReadsNumberText(s: string, rest: string)
    requires IsNumber(s) && EndsNumber(rest)
    ensures ParseNumber(s + rest)
         == Some((if IsFloatLiteral(s) then JFloat(Py.floatOf(s)) else JInt(IntOf(s)), rest))
  {
    NumberStops(s, rest);
    assert (s + rest)[..|s|] == s && (s + rest)[|s|..] == rest;
  }

  lemma ReadsLiteral(j: Json, rest: string)
    requires j.JNull? || j.JBool?
    ensures ParseValue(Print(CANONICAL, 0, j) + rest) == Some((j, rest))
  {
    var s := Print(CANONICAL, 0, j);
    assert s <= s + rest && (s + rest)[|s|..] == rest;
  }

  ghost predicate Closes(tail: string, bracket: char, rest: string) {
    SkipSpace(tail) == [bracket] + rest && EndsNumber(tail)
  }

  lemma ClosingBracket(st: Style, level: nat, bracket: char, rest: string)
    requires bracket == ']' || bracket == '}'
    ensures Closes(NewLine(st, level) + ([bracket] + rest), bracket, rest)
  {
    SkipsNewLine(st, level, [bracket] + rest);
  }

  lemma {:induction false} PutAllAppends<T>(es: seq<Entry<T>>, other: seq<Entry<T>>)
    requires UniqueKeys(other) && AsMap(es).Keys !! AsMap(other).Keys
    ensures PutAll(es, other) == es + other
    decreases |other|
  {
    hide Put;
    if other != [] {
      AtIndex(other, 0);
      PutAppends(es, other[0].key, other[0].val);
      AppendMap(es, other[0]);
      PutAllAppends(es + [other[0]], other[1..]);
      assert es + [other[0]] + other[1..] == es + other;
    }
  }

  lemma {:induction false} PutAppends<T>(es: seq<Entry<T>>, k: string, v: T)
    requires k !in AsMap(es)
    ensures Put(es, k, v) == es + [Entry(k, v)]
  {
    if es != [] {
      PutAppends(es[1..], k, v);
    }
  }

  lemma {:induction false} AppendMap<T>(es: seq<Entry<T>>, e: Entry<T>)
    ensures AsMap(es + [e]).Keys == AsMap(es).Keys + {e.key}
  {
    if es != [] {
      AppendMap(es[1..], e);
      assert (es + [e])[1..] == es[1..] + [e];
    }
  }

  lemma ReadsArray(st: Style, level: nat, items: seq<Json>, rest: string)
    requires items != [] ==> Printable(items[0])
    requires items != [] ==>
      ParseItems(PrintItems(st, level + 1, items) + (NewLine(st, level) + ("]" + rest))) == Some((items, rest))
    ensures ParseValue(Print(st, level, JArr(items)) + rest) == Some((JArr(items), rest))
  {
    if items == [] {
      Assoc("[", "]", rest);
      Uncons('[', "]" + rest);
      Uncons(']', rest);
    } else {
      var body := PrintItems(st, level + 1, items);
      var tail := NewLine(st, level) + ("]" + rest);
      Bracketed("[", NewLine(st, level + 1), body, NewLine(st, level), "]", rest);
      Uncons('[', NewLine(st, level + 1) + (body + tail));
      SkipsNewLine(st, level + 1, body + tail);
      ItemsStart(st, level + 1, items, tail);
      ReadsOpenedArray(Print(st, level, JArr(items)) + rest, body + tail, items, rest);
    }
  }

  lemma Bracketed(open: string, line: string, body: string, end: string, close: string, rest: string)
    ensures open + line + body + end + close + rest == open + (line + (body + (end + (close + rest))))
  {
  }

  lemma ReadsOpenedArray(s: string, t: string, items: seq<Json>, rest: string)
    requires s != "" && s[0] == '[' && SkipSpace(s[1..]) == t && t != "" && t[0] != ']'
    requires ParseItems(t) == Some((items, rest))
    ensures ParseValue(s) == Some((JArr(items), rest))
  {
  }

  lemma ReadsOpenedObject(s: string, t: string, fields: seq<Entry<Json>>, rest: string)
    requires s != "" && s[0] == '{' && SkipSpace(s[1..]) == t && t != "" && t[0] != '}'
    requires ParseFields(t) == Some((fields, rest)) && PutAll([], fields) == fields
    ensures ParseValue(s) == Some((JObj(fields), rest))
  {
  }

  lemma ReadsObject(st: Style, level: nat, fields: seq<Entry<Json>>, rest: string)
    requires PutAll([], fields) == fields
    requires fields != [] ==> PrintFields(st, level + 1, fields) != "" && PrintFields(st, level + 1, fields)[0] == '\"'
    requires fields != [] ==>
      ParseFields(PrintFields(st, level + 1, fields) + (NewLine(st, level) + ("}" + rest))) == Some((fields, rest))
    ensures ParseValue(Print(st, level, JObj(fields)) + rest) == Some((JObj(fields), rest))
  {
    if fields == [] {
      Assoc("{", "}", rest);
      Uncons('{', "}" + rest);
      Uncons('}', rest);
    } else {
      var body := PrintFields(st, level + 1, fields);
      var tail := NewLine(st, level) + ("}" + rest);
      Bracketed("{", NewLine(st, level + 1), body, NewLine(st, level), "}", rest);
      Uncons('{', NewLine(st, level + 1) + (body + tail));
      SkipsNewLine(st, level + 1, body + tail);
      ReadsOpenedObject(Print(st, level, JObj(fields)) + rest, body + tail, fields, rest);
    }
  }

  /** Reading back any printed tree, in any style and at any depth, gives the tree and what followed it. */
  lemma {:induction false} ParsePrinted(st: Style, level: nat, j: Json, rest: string)
    requires Printable(j) && EndsNumber(rest)
    ensures ParseValue(Print(st, level, j) + rest) == Some((j, rest))
    decreases j, 1
  {
    match j
    case JNull => ReadsLiteral(j, rest);
    case JBool(_) => ReadsLiteral(j, rest);
    case JInt(i) =>
      IntTextIsNumber(i);
      ReadsNumber(IntText(i), rest);
    case JFloat(f) => ReadsNumber(Py.floatText(f), rest);
    case JStr(s) => QuoteOpens(st.ascii, s, rest);
    case JArr(items) =>
      if items != [] {
        ClosingBracket(st, level, ']', rest);
        ParseItemsPrinted(st, level + 1, items, NewLine(st, level) + ("]" + rest), rest);
      }
      ReadsArray(st, level, items, rest);
    case JObj(fields) =>
      if fields != [] {
        ClosingBracket(st, level, '}', rest);
        ParseFieldsPrinted(st, level + 1, fields, NewLine(st, level) + ("}" + rest), rest);
      }
      PutAllAppends([], fields);
      ReadsObject(st, level, fields, rest);
  }

  lemma ItemsStart(st: Style, level: nat, items: seq<Json>, tail: string)
    requires items != [] && Printable(items[0])
    ensures Starts(PrintItems(st, level, items) + tail)
    ensures SkipSpace(PrintItems(st, level, items) + tail) == PrintItems(st, level, items) + tail
  {
    PrintStarts(st, level, items[0]);
    StartsAppend(PrintItems(st, level, items), tail);
  }

  lemma {:induction false} ParseItemsPrinted(st: Style, level: nat, items: seq<Json>, tail: string, rest: string)
    requires items != [] && (forall i :: 0 <= i < |items| ==> Printable(items[i]))
    requires Closes(tail, ']', rest)
    ensures ParseItems(PrintItems(st, level, items) + tail) == Some((items, rest))
    decreases items, 0
  {
    if |items| == 1 {
      ParsePrinted(st, level, items[0], tail);
      assert items == [items[0]];
    } else {
      ParseItemsPrinted(st, level, items[1..], tail, rest);
      ItemsStart(st, level, items[1..], tail);
      var body := PrintItems(st, level, items[1..]) + tail;
      ParsePrinted(st, level, items[0], "," + (NewLine(st, level) + body));
      NextItem(st, level, Print(st, level, items[0]), PrintItems(st, level, items[1..]), tail, items, rest);
    }
  }

  lemma NextItem(
    st: Style, level: nat, first: string, others: string, tail: string, items: seq<Json>, rest: string)
    requires items != []
    requires ParseValue(first + ("," + (NewLine(st, level) + (others + tail))))
          == Some((items[0], "," + (NewLine(st, level) + (others + tail))))
    requires SkipSpace(others + tail) == others + tail
    requires ParseItems(others + tail) == Some((items[1..], rest))
    ensures ParseItems(first + ("," + NewLine(st, level) + others) + tail) == Some((items, rest))
  {
    var body := NewLine(st, level) + (others + tail);
    Regroup(first, ",", NewLine(st, level), others, tail);
    Uncons(',', body);
    SkipsNewLine(st, level, others + tail);
    StepItems(first + ("," + body), items[0], "," + body, items[1..], rest);
    assert items == [items[0]] + items[1..];
  }

  lemma StepItems(s: string, item: Json, t: string, others: seq<Json>, rest: string)
    requires ParseValue(s) == Some((item, t)) && t != "" && t[0] == ','
    requires ParseItems(SkipSpace(t[1..])) == Some((others, rest))
    ensures ParseItems(s) == Some(([item] + others, rest))
  {
    assert SkipSpace(t) == t;
  }

  lemma {:induction false} ParseFieldsPrinted(
    st: Style, level: nat, fields: seq<Entry<Json>>, tail: string, rest: string)
    requires fields != [] && (forall i :: 0 <= i < |fields| ==> Printable(fields[i].val))
    requires Closes(tail, '}', rest)
    ensures PrintFields(st, level, fields)[0] == '\"'
    ensures ParseFields(PrintFields(st, level, fields) + tail) == Some((fields, rest))
    decreases fields, 0
  {
    if |fields| == 1 {
      ReadsField(st, level, fields[0].key, fields[0].val, tail);
      assert fields == [fields[0]];
    } else {
      ParseFieldsPrinted(st, level, fields[1..], tail, rest);
      var body := PrintFields(st, level, fields[1..]) + tail;
      ReadsField(st, level, fields[0].key, fields[0].val, "," + (NewLine(st, level) + body));
      NextField(st, level, PrintFields(st, level, fields[1..]), tail, fields, rest);
    }
  }

  lemma NextField(
    st: Style, level: nat, others: string, tail: string, fields: seq<Entry<Json>>, rest: string)
    requires fields != [] && others != "" && others[0] == '\"'
    requires FieldRead(st, level, fields[0].key, fields[0].val, "," + (NewLine(st, level) + (others + tail)))
    requires ParseFields(others + tail) == Some((fields[1..], rest))
    ensures ParseFields(Quote(st.ascii, fields[0].key) + (Colon(st) + Print(st, level, fields[0].val))
                        + ("," + NewLine(st, level) + others) + tail) == Some((fields, rest))
  {
    hide ParseFields, Quote, Print, NewLine, Colon, FieldRead;
    var first := Quote(st.ascii, fields[0].key) + (Colon(st) + Print(st, level, fields[0].val));
    Regroup(first, ",", NewLine(st, level), others, tail);
    SkipsNewLine(st, level, others + tail);
    StartsField(others, tail);
    StepRead(st, level, fields[0], NewLine(st, level) + (others + tail), fields[1..], rest);
    assert fields == [fields[0]] + fields[1..];
  }

  lemma StartsField(others: string, tail: string)
    requires others != "" && others[0] == '\"'
    ensures SkipSpace(others + tail) == others + tail
  {
  }

  lemma StepRead(st: Style, level: nat, field: Entry<Json>, body: string, others: seq<Entry<Json>>, rest: string)
    requires FieldRead(st, level, field.key, field.val, "," + body)
    requires ParseFields(SkipSpace(body)) == Some((others, rest))
    ensures ParseFields(Quote(st.ascii, field.key) + (Colon(st) + Print(st, level, field.val)) + ("," + body))
         == Some(([field] + others, rest))
  {
    hide ParseFields, ParseValue, ParseChars, Quote, Print;
    var first := Quote(st.ascii, field.key) + (Colon(st) + Print(st, level, field.val));
    Uncons(',', body);
    StepFields(first + ("," + body), Colon(st) + Print(st, level, field.val) + ("," + body),
      field, "," + body, others, rest);
  }

  lemma StepFields(s: string, u: string, field: Entry<Json>, t: string, others: seq<Entry<Json>>, rest: string)
    requires s != "" && s[0] == '\"' && ParseChars(s[1..]) == Some((field.key, u))
    requires SkipSpace(u) == u && u != "" && u[0] == ':'
    requires ParseValue(SkipSpace(u[1..])) == Some((field.val, t)) && t != "" && t[0] == ','
    requires ParseFields(SkipSpace(t[1..])) == Some((others, rest))
    ensures ParseFields(s) == Some(([field] + others, rest))
  {
    assert SkipSpace(t) == t;
  }

  ghost predicate FieldRead(st: Style, level: nat, key: string, val: Json, rest: string) {
    var s := Quote(st.ascii, key) + (Colon(st) + Print(st, level, val)) + rest;
    && s[0] == '\"'
    && var u := Colon(st) + Print(st, level, val) + rest;
    && ParseChars(s[1..]) == Some((key, u))
    && SkipSpace(u) == u && u[0] == ':'
    && ParseValue(SkipSpace(u[1..])) == Some((val, rest))
  }

  /** The key, the colon and the value of one field are read in turn. */
  lemma {:induction false} ReadsField(st: Style, level: nat, key: string, val: Json, rest: string)
    requires Printable(val) && EndsNumber(rest)
    ensures FieldRead(st, level, key, val, rest)
    decreases val, 2
  {
    var text := Print(st, level, val);
    Assoc(Quote(st.ascii, key), Colon(st) + text, rest);
    QuoteOpens(st.ascii, key, Colon(st) + text + rest);
    PrintStarts(st, level, val);
    AfterColon(st, text, rest);
    ParsePrinted(st, level, val, rest);
  }

  lemma AfterColon(st: Style, text: string, rest: string)
    requires Starts(text)
    ensures var u := Colon(st) + text + rest;
      SkipSpace(u) == u && u[0] == ':' && SkipSpace(u[1..]) == text + rest
  {
    Assoc(Colon(st), text, rest);
    StartsAppend(text, rest);
    if st.pretty {
      assert (": " + (text + rest))[1..] == " " + (text + rest);
      Uncons(' ', text + rest);
    } else {
      Uncons(':', text + rest);
    }
  }

  /** `json.loads(json.dumps(j, sort_keys=True, ...) + "\n")` is `j` with its keys sorted. */
  lemma LoadsDumps(st: Style, j: Json)
    requires Printable(SortKeys(j))
    ensures Loads(Dumps(st, j) + "\n") == Some(SortKeys(j))
  {
    var text := Dumps(st, j);
    ParsePrinted(st, 0, SortKeys(j), "\n");
    PrintStarts(st, 0, SortKeys(j));
    StartsAppend(text, "\n");
    assert SkipSpace("\n") == SkipSpace("\n"[1..]);
  }

  /** No style of printing sends two key-sorted trees to one text. */
  lemma DumpsInjective(st: Style, j: Json, k: Json)
    requires Printable(SortKeys(j)) && Printable(SortKeys(k))
    requires Dumps(st, j) == Dumps(st, k)
    ensures SortKeys(j) == SortKeys(k)
  {
    LoadsDumps(st, j);
    LoadsDumps(st, k);
  }

  // ---------- The formats, spelled out ----------

  lemma Flatten(open: string, a: string, sep: string, b: string, close: string)
    ensures open + (a + (sep + b)) + close == open + a + sep + b + close
  {
  }

  /** Items on lines of their own, or without any white space. */
  lemma ArrayFormat(st: Style, level: nat, x: Json, y: Json)
    ensures Print(st, level, JArr([x, y])) ==
      ("[" + NewLine(st, level + 1)) + Print(st, level + 1, x) + ("," + NewLine(st, level + 1))
      + Print(st, level + 1, y) + (NewLine(st, level) + "]")
  {
    hide NewLine;
    var items := [x, y];
    assert items[1..] == [y];
    var line, a, b := NewLine(st, level + 1), Print(st, level + 1, x), Print(st, level + 1, y);
    assert PrintItems(st, level + 1, [y]) == b;
    assert PrintItems(st, level + 1, items) == a + ("," + line + b);
    Flatten("[" + line, a, "," + line, b, NewLine(st, level) + "]");
  }

  /** A field is a key, a colon and a value; fields are laid out like items. */
  lemma ObjectFormat(st: Style, level: nat, k: string, x: Json, l: string, y: Json)
    ensures Print(st, level, JObj([Entry(k, x), Entry(l, y)])) ==
      ("{" + NewLine(st, level + 1)) + PrintField(st, level + 1, k, x) + ("," + NewLine(st, level + 1))
      + PrintField(st, level + 1, l, y) + (NewLine(st, level) + "}")
  {
    hide NewLine, Quote;
    var fields := [Entry(k, x), Entry(l, y)];
    assert fields[1..] == [Entry(l, y)];
    var line, a, b := NewLine(st, level + 1), PrintField(st, level + 1, k, x), PrintField(st, level + 1, l, y);
    assert PrintFields(st, level + 1, [Entry(l, y)]) == b;
    assert PrintFields(st, level + 1, fields) == a + ("," + line + b);
    Flatten("{" + line, a, "," + line, b, NewLine(st, level) + "}");
  }

  function PrintField(st: Style, level: nat, k: string, x: Json): string {
    Quote(st.ascii, k) + ((if st.pretty then ": " else ":") + Print(st, level, x))
  }

  /** Two spaces for each level of a pretty text. */
  lemma IndentationIs(st: Style, level: nat)
    ensures NewLine(st, level) == if st.pretty then "\n" + seq(2 * level, i => ' ') else ""
  {
    SpacesAre(2 * level);
  }

  lemma {:induction false} SpacesAre(n: nat)
    ensures Spaces(n) == seq(n, i => ' ')
  {
    if n > 0 {
      SpacesAre(n - 1);
    }
  }

  /** How characters are escaped. */
  lemma EscapesAre(ascii: bool, c: char)
    ensures Escape(ascii, '\"') == "\\\"" && Escape(ascii, '\\') == "\\\\" && Escape(ascii, '\n') == "\\n"
    ensures 0x20 <= c as int < 0x7F && c != '\"' && c != '\\' ==> Escape(ascii, c) == [c]
    ensures c as int >= 0x80 ==> Escape(false, c) == [c]
  {
    hide Hex4;
  }

  /** Control characters, and in ASCII texts all others, are written by their code in hexadecimal. */
  lemma CodesAreEscaped(c: char)
    ensures c as int < 0x20 && ShortEscape(c).None? ==> Escape(false, c) == "\\u" + Hex4(c as int)
    ensures 0x7F < c as int < 0x10000 ==> Escape(true, c) == "\\u" + Hex4(c as int)
    ensures Hex4(0xE9) == "00e9"
  {
    hide ReadHex4;
  }

  /** The text that is hashed is compact, that of a file is indented. */
  lemma ProgramFormats(x: Json, y: Json)
    ensures Print(CANONICAL, 0, JArr([x, y])) == "[" + Print(CANONICAL, 1, x) + "," + Print(CANONICAL, 1, y) + "]"
    ensures Print(FILE, 0, JArr([x, y])) == "[\n  " + Print(FILE, 1, x) + ",\n  " + Print(FILE, 1, y) + "\n]"
  {
    hide Print;
    ArrayFormat(CANONICAL, 0, x, y);
    ArrayFormat(FILE, 0, x, y);
    FirstLines();
  }

  lemma FirstLines()
    ensures NewLine(CANONICAL, 0) == NewLine(CANONICAL, 1) == ""
    ensures NewLine(FILE, 0) == "\n" && NewLine(FILE, 1) == "\n  "
  {
    IndentationIs(FILE, 0);
    IndentationIs(FILE, 1);
    assert seq(2, i => ' ') == "  " && seq(0, i => ' ') == "";
  }

  /** Both leave other alphabets as they are; the text that sets are sorted by is ASCII. */
  lemma ProgramAlphabets(c: char)
    requires c as int >= 0x80
    ensures Escape(CANONICAL.ascii, c) == [c] && Escape(FILE.ascii, c) == [c] && |Escape(SORT_KEY.ascii, c)| >= 6
  {
    hide Escape;
    EscapesAre(false, c);
    AsciiIsEscaped(c);
  }

  lemma AsciiIsEscaped(c: char)
    requires c as int >= 0x80
    ensures |Escape(true, c)| >= 6
  {
  }
}
