/**
  JSON trees, the three ways the program prints them and the way it parses them.
  The grammar is the one of sections 4 to 7 of RFC 8259.
 */
module JsonText {
  import opened Wrappers
  import opened Dicts
  import opened Numbers
  import opened Host

  datatype Json =
    | JNull
    | JBool(b: bool)
    | JInt(i: int)
    | JFloat(f: int)
    | JStr(s: string)
    | JArr(items: seq<Json>)
    | JObj(fields: seq<Entry<Json>>)

  /** `ensure_ascii`, and `indent=2` against compact separators. */
  datatype Style = Style(ascii: bool, pretty: bool)

  /** The text of a database file. */
  const FILE := Style(false, true)
  /** The text that is hashed. */
  const CANONICAL := Style(false, false)
  /** The text set members are sorted by. */
  const SORT_KEY := Style(true, false)

  // ---------- Strings ----------

  function HexChar(d: nat): (c: char)
    requires d < 16
    ensures HexValue(c) == Some(d)
  {
    if d < 10 then (48 + d) as char else (87 + d) as char
  }

  function HexValue(c: char): (r: Option<nat>)
    ensures r.Some? ==> r.value < 16
  {
    if '0' <= c <= '9' then Some(c as int - 48)
    else if 'a' <= c <= 'f' then Some(c as int - 87)
    else if 'A' <= c <= 'F' then Some(c as int - 55)
    else None
  }

  function Hex4(n: nat): (s: string)
    requires n < 0x10000
    ensures |s| == 4
  {
    [HexChar(n / 16 / 16 / 16), HexChar(n / 16 / 16 % 16), HexChar(n / 16 % 16), HexChar(n % 16)]
  }

  function ReadHex4(s: string): (r: Option<nat>)
    ensures r.Some? ==> |s| >= 4 && r.value < 0x10000
  {
    if |s| < 4 then None
    else
      var a :- HexValue(s[0]);
      var b :- HexValue(s[1]);
      var c :- HexValue(s[2]);
      var d :- HexValue(s[3]);
      Some(0x1000 * a + 0x100 * b + 0x10 * c + d)
  }

  lemma Hex4Reads(n: nat, rest: string)
    requires n < 0x10000
    ensures ReadHex4(Hex4(n) + rest) == Some(n)
  {
    ReadsDigits(n / 16 / 16 / 16, n / 16 / 16 % 16, n / 16 % 16, n % 16, rest);
  }

  lemma ReadsDigits(a: nat, b: nat, c: nat, d: nat, rest: string)
    requires a < 16 && b < 16 && c < 16 && d < 16
    ensures ReadHex4([HexChar(a), HexChar(b), HexChar(c), HexChar(d)] + rest)
         == Some(0x1000 * a + 0x100 * b + 0x10 * c + d)
  {
  }

  /** The letter of a two-character escape. */
  function ShortEscape(c: char): Option<char> {
    if c == '\"' || c == '\\' then Some(c)
    else if c == '\n' then Some('n')
    else if c == '\r' then Some('r')
    else if c == '\t' then Some('t')
    else if c as int == 8 then Some('b')
    else if c as int == 12 then Some('f')
    else None
  }

  /** The text one character is printed as. */
  function Escape(ascii: bool, c: char): (s: string)
    ensures s != ""
  {
    if ShortEscape(c).Some? then ['\\', ShortEscape(c).value]
    else if c as int < 0x20 || (ascii && 0x7E < c as int < 0x10000) then "\\u" + Hex4(c as int)
    else if ascii && c as int >= 0x10000 then
      var v := c as int - 0x10000;
      "\\u" + Hex4(0xD800 + v / 0x400) + "\\u" + Hex4(0xDC00 + v % 0x400)
    else [c]
  }

  function EscapeAll(ascii: bool, s: string): string {
    if s == "" then "" else Escape(ascii, s[0]) + EscapeAll(ascii, s[1..])
  }

  function Quote(ascii: bool, s: string): string {
    "\"" + EscapeAll(ascii, s) + "\""
  }

  // ---------- Printing ----------

  function Spaces(n: nat): string {
    if n == 0 then "" else " " + Spaces(n - 1)
  }

  function NewLine(st: Style, level: nat): string {
    if st.pretty then "\n" + Spaces(2 * level) else ""
  }

  function Colon(st: Style): string {
    if st.pretty then ": " else ":"
  }

  /** `json.dumps` of a tree, printing object fields in the order they are given. */
  function Print(st: Style, level: nat, j: Json): string
    decreases j, 1
  {
    match j
    case JNull => "null"
    case JBool(b) => if b then "true" else "false"
    case JInt(i) => IntText(i)
    case JFloat(f) => Py.floatText(f)
    case JStr(s) => Quote(st.ascii, s)
    case JArr(items) =>
      if items == [] then "[]"
      else "[" + NewLine(st, level + 1) + PrintItems(st, level + 1, items) + NewLine(st, level) + "]"
    case JObj(fields) =>
      if fields == [] then "{}"
      else "{" + NewLine(st, level + 1) + PrintFields(st, level + 1, fields) + NewLine(st, level) + "}"
  }

  function PrintItems(st: Style, level: nat, items: seq<Json>): string
    requires items != []
    decreases items, 0
  {
    var first := Print(st, level, items[0]);
    if |items| == 1 then first
    else first + ("," + NewLine(st, level) + PrintItems(st, level, items[1..]))
  }

  function PrintFields(st: Style, level: nat, fields: seq<Entry<Json>>): string
    requires fields != []
    decreases fields, 0
  {
    var first := Quote(st.ascii, fields[0].key) + (Colon(st) + Print(st, level, fields[0].val));
    if |fields| == 1 then first
    else first + ("," + NewLine(st, level) + PrintFields(st, level, fields[1..]))
  }

  /** `sort_keys=True`: the same tree with every object's fields sorted by key. */
  function SortKeys(j: Json): Json {
    match j
    case JArr(items) => JArr(seq(|items|, i requires 0 <= i < |items| => SortKeys(items[i])))
    case JObj(fields) =>
      JObj(Sort(seq(|fields|, i requires 0 <= i < |fields| => Entry(fields[i].key, SortKeys(fields[i].val)))))
    case _ => j
  }

  function Dumps(st: Style, j: Json): string {
    Print(st, 0, SortKeys(j))
  }

  // ---------- Parsing ----------

  function SkipSpace(s: string): (r: string)
    ensures |r| <= |s|
  {
    if s != "" && s[0] in {' ', '\t', '\n', '\r'} then SkipSpace(s[1..]) else s
  }

  /** Reads the escape after a backslash. A surrogate without its partner is refused. */
  function ParseEscape(s: string): (r: Option<(char, string)>)
    ensures r.Some? ==> |r.value.1| < |s|
  {
    if s == "" then None
    else match s[0]
      case '\"' => Some(('\"', s[1..]))
      case '\\' => Some(('\\', s[1..]))
      case '/' => Some(('/', s[1..]))
      case 'b' => Some((8 as char, s[1..]))
      case 'f' => Some((12 as char, s[1..]))
      case 'n' => Some(('\n', s[1..]))
      case 'r' => Some(('\r', s[1..]))
      case 't' => Some(('\t', s[1..]))
      case 'u' =>
        var u :- ReadHex4(s[1..]);
        if 0xD800 <= u < 0xDC00 then
          if |s| >= 11 && s[5] == '\\' && s[6] == 'u' then
            var w :- ReadHex4(s[7..]);
            if 0xDC00 <= w < 0xE000 then
              Some(((0x10000 + 0x400 * (u - 0xD800) + (w - 0xDC00)) as char, s[11..]))
            else None
          else None
        else if 0xDC00 <= u < 0xE000 then None
        else Some((u as char, s[5..]))
      case _ => None
  }

  /** Reads the characters of a string up to and including its closing quote. */
  function ParseChars(s: string): (r: Option<(string, string)>)
    ensures r.Some? ==> |r.value.1| < |s|
    decreases |s|
  {
    if s == "" then None
    else if s[0] == '\"' then Some(("", s[1..]))
    else if s[0] == '\\' then
      var (c, rest) :- ParseEscape(s[1..]);
      var (cs, end) :- ParseChars(rest);
      Some(([c] + cs, end))
    else if s[0] < ' ' then None
    else
      var (cs, end) :- ParseChars(s[1..]);
      Some(([s[0]] + cs, end))
  }

  function ParseNumber(s: string): (r: Option<(Json, string)>)
    ensures r.Some? ==> |r.value.1| < |s|
  {
    var n := ScanNumber(s);
    var text, rest := s[..n.Len()], s[n.Len()..];
    if n.whole == 0 then None
    else if n.frac + n.exp == 0 then Some((JInt(IntOf(text)), rest))
    else Some((JFloat(Py.floatOf(text)), rest))
  }

  /** Python's scanner: one value, no leading white space. */
  function ParseValue(s: string): (r: Option<(Json, string)>)
    ensures r.Some? ==> |r.value.1| < |s|
    decreases |s|, 0
  {
    if s == "" then None
    else if s[0] == '\"' then
      var (cs, rest) :- ParseChars(s[1..]);
      Some((JStr(cs), rest))
    else if s[0] == '[' then
      var t := SkipSpace(s[1..]);
      if t != "" && t[0] == ']' then Some((JArr([]), t[1..]))
      else
        var (items, rest) :- ParseItems(t);
        Some((JArr(items), rest))
    else if s[0] == '{' then
      var t := SkipSpace(s[1..]);
      if t != "" && t[0] == '}' then Some((JObj([]), t[1..]))
      else
        var (fields, rest) :- ParseFields(t);
        Some((JObj(PutAll([], fields)), rest))
    else ParseScalar(s)
  }

  function ParseScalar(s: string): (r: Option<(Json, string)>)
    requires s != ""
    ensures r.Some? ==> |r.value.1| < |s|
  {
    if s[0] == 'n' then Literal("null", JNull, s)
    else if s[0] == 't' then Literal("true", JBool(true), s)
    else if s[0] == 'f' then Literal("false", JBool(false), s)
    else if s[0] == 'N' then Literal("NaN", JFloat(Py.nan), s)
    else if s[0] == 'I' then Literal("Infinity", JFloat(Py.infinity), s)
    else if s[0] == '-' && |s| > 1 && s[1] == 'I' then Literal("-Infinity", JFloat(Py.minusInfinity), s)
    else ParseNumber(s)
  }

  function Literal(word: string, j: Json, s: string): (r: Option<(Json, string)>)
    requires word != ""
    ensures r.Some? ==> |r.value.1| < |s|
  {
    if word <= s then Some((j, s[|word|..])) else None
  }

  function ParseItems(s: string): (r: Option<(seq<Json>, string)>)
    ensures r.Some? ==> |r.value.1| < |s|
    decreases |s|, 1
  {
    var (first, t) :- ParseValue(s);
    var u := SkipSpace(t);
    if u == "" then None
    else if u[0] == ']' then Some(([first], u[1..]))
    else if u[0] == ',' then
      var (others, rest) :- ParseItems(SkipSpace(u[1..]));
      Some(([first] + others, rest))
    else None
  }

  function ParseFields(s: string): (r: Option<(seq<Entry<Json>>, string)>)
    ensures r.Some? ==> |r.value.1| < |s|
    decreases |s|, 1
  {
    if s == "" || s[0] != '\"' then None
    else
      var (key, t) :- ParseChars(s[1..]);
      var u := SkipSpace(t);
      if u == "" || u[0] != ':' then None
      else
        var (val, v) :- ParseValue(SkipSpace(u[1..]));
        var w := SkipSpace(v);
        if w == "" then None
        else if w[0] == '}' then Some(([Entry(key, val)], w[1..]))
        else if w[0] == ',' then
          var (others, rest) :- ParseFields(SkipSpace(w[1..]));
          Some(([Entry(key, val)] + others, rest))
        else None
  }

  /** `json.loads`. Of repeated keys in one object the last value wins. */
  function Loads(text: string): Option<Json> {
    var (j, rest) :- ParseValue(SkipSpace(text));
    if SkipSpace(rest) == "" then Some(j) else None
  }
}
