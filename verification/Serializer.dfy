/** json_database/serializer.py: tagged encoding, decoding, and the canonical order of sets. */
module Serializer {
  import opened Wrappers
  import opened Dicts
  import opened Host
  import opened Values
  import opened JsonText

  function TagOf(kind: Kind): string {
    match kind
    case DateTime => "datetime"
    case Date => "date"
    case Decimal => "decimal"
    case Bytes => "bytes"
  }

  function KindOf(tag: string): Option<Kind> {
    if tag == "datetime" then Some(DateTime)
    else if tag == "date" then Some(Date)
    else if tag == "decimal" then Some(Decimal)
    else if tag == "bytes" then Some(Bytes)
    else None
  }

  function Tagged(tag: string, payload: Json): Json {
    JObj([Entry(TYPE_KEY, JStr(tag)), Entry("value", payload)])
  }

  /** The text the encoded members of a set are sorted by. */
  function SortText(j: Json): string {
    Dumps(SORT_KEY, j)
  }

  function Keyed(js: seq<Json>): seq<Entry<Json>> {
    seq(|js|, i requires 0 <= i < |js| => Entry(SortText(js[i]), js[i]))
  }

  function Vals(es: seq<Entry<Json>>): seq<Json> {
    seq(|es|, i requires 0 <= i < |es| => es[i].val)
  }

  function SortItems(js: seq<Json>): seq<Json> {
    Vals(Sort(Keyed(js)))
  }

  /** The values `_encode` accepts. */
  predicate Encodable(v: Value) {
    match v
    case Float(f) => Py.isFinite(f)
    case Scalar(k, c) => Py.storable(k, c)
    case Other => false
    case Set(ms) => forall i :: 0 <= i < |ms| ==> Encodable(ms[i])
    case Dict(es) => forall i :: 0 <= i < |es| ==> Encodable(es[i].val)
    case List(items) => forall i :: 0 <= i < |items| ==> Encodable(items[i])
    case Tuple(items) => forall i :: 0 <= i < |items| ==> Encodable(items[i])
    case _ => true
  }

  /** The tree `_encode` builds. */
  function Enc(v: Value): Json
    requires Encodable(v)
  {
    match v
    case Null => JNull
    case Bool(b) => JBool(b)
    case Int(i) => JInt(i)
    case Float(f) => JFloat(f)
    case Str(s) => JStr(s)
    case Scalar(k, c) => Tagged(TagOf(k), JStr(Py.text(k, c)))
    case Set(ms) => Tagged("set", JArr(SortItems(seq(|ms|, i requires 0 <= i < |ms| => Enc(ms[i])))))
    case Dict(es) => JObj(seq(|es|, i requires 0 <= i < |es| => Entry(es[i].key, Enc(es[i].val))))
    case List(items) => JArr(seq(|items|, i requires 0 <= i < |items| => Enc(items[i])))
    case Tuple(items) => JArr(seq(|items|, i requires 0 <= i < |items| => Enc(items[i])))
  }

  /** `_decode`; `None` is a SerializationError. */
  function Decode(j: Json): Option<Value>
    decreases j, 1
  {
    match j
    case JNull => Some(Null)
    case JBool(b) => Some(Bool(b))
    case JInt(i) => Some(Int(i))
    case JFloat(f) => Some(Float(f))
    case JStr(s) => Some(Str(s))
    case JArr(items) =>
      var vs :- DecodeAll(items);
      Some(List(vs))
    case JObj(fields) =>
      if Has(fields, TYPE_KEY) then
        var tag := Get(fields, TYPE_KEY);
        if tag.JStr? && Has(fields, "value") then DecodeTagged(tag.s, Inside(fields, "value")) else None
      else
        var es :- DecodeFields(fields);
        Some(Dict(es))
  }

  function DecodeAll(js: seq<Json>): Option<seq<Value>>
    decreases js, 0
  {
    if js == [] then Some([])
    else
      var v :- Decode(js[0]);
      var vs :- DecodeAll(js[1..]);
      Some([v] + vs)
  }

  function DecodeFields(fields: seq<Entry<Json>>): Option<seq<Entry<Value>>>
    decreases fields, 0
  {
    if fields == [] then Some([])
    else
      var v :- Decode(fields[0].val);
      var es :- DecodeFields(fields[1..]);
      Some([Entry(fields[0].key, v)] + es)
  }

  /** `_decode_tagged`. Fields other than the tag and the value are ignored; no tag accepts a missing value. */
  function DecodeTagged(tag: string, raw: Json): Option<Value>
    decreases raw, 2
  {
    if tag == "set" then
      if !raw.JArr? then None
      else
        var vs :- DecodeAll(raw.items);
        var ms :- CoerceAll(vs);
        Some(Set(Dedup(ms)))
    else
      var kind :- KindOf(tag);
      if !raw.JStr? then None
      else
        var code :- Py.parse(kind, raw.s);
        Some(Scalar(kind, code))
  }

  /** A field's value, known to be inside the object it is a field of. */
  function Inside(fields: seq<Entry<Json>>, k: string): (j: Json)
    requires Has(fields, k)
    ensures j == Get(fields, k)
    ensures j < JObj(fields)
    ensures exists i :: 0 <= i < |fields| && fields[i].val == j
  {
    if fields[0].key == k then fields[0].val
    else
      var j := Inside(fields[1..], k);
      assert exists i :: 0 <= i < |fields[1..]| && fields[1..][i].val == j;
      assert forall i :: 0 <= i < |fields[1..]| ==> fields[1..][i] == fields[i + 1];
      j
  }

  /** `_coerce_set_member`: lists become tuples; other unhashable values are refused. */
  function Coerce(v: Value): Option<Value>
    decreases v, 1
  {
    if v.List? then
      var ms :- CoerceAll(v.items);
      Some(Tuple(ms))
    else if Hashable(v) then Some(v)
    else None
  }

  function CoerceAll(vs: seq<Value>): Option<seq<Value>>
    decreases vs, 0
  {
    if vs == [] then Some([])
    else
      var m :- Coerce(vs[0]);
      var ms :- CoerceAll(vs[1..]);
      Some([m] + ms)
  }
}
