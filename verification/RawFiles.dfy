/** Which parsed files raw validation and the decoder refuse, told from the objects in them. */
module RawFiles {
  import opened Wrappers
  import opened Dicts
  import opened Host
  import opened Values
  import opened JsonText
  import opened Serializer
  import opened Canonical
  import opened Errors
  import Encoding
  import opened Storage

  // ---------- Raw validation ----------

  /** The trees raw validation looks at: what is inside an object with the envelope key is none of its business. */
  ghost function Visited(j: Json): set<Json>
    decreases j, 1
  {
    {j} +
    match j
    case JArr(items) => VisitedItems(items)
    case JObj(fs) => if TYPE_KEY in AsMap(fs) then {} else VisitedFields(fs)
    case _ => {}
  }

  ghost function VisitedItems(js: seq<Json>): set<Json>
    decreases js, 0
  {
    if js == [] then {} else Visited(js[0]) + VisitedItems(js[1..])
  }

  ghost function VisitedFields(fs: seq<Entry<Json>>): set<Json>
    decreases fs, 0
  {
    if fs == [] then {} else Visited(fs[0].val) + VisitedFields(fs[1..])
  }

  /** Objects with the envelope key have one other key, `value`. */
  ghost predicate Envelopes(s: set<Json>) {
    forall u :: u in s && u.JObj? && TYPE_KEY in AsMap(u.fields) ==> AsMap(u.fields).Keys == {TYPE_KEY, "value"}
  }

  lemma TwoKeys(s: set<string>, a: string, b: string)
    requires a in s && b in s && a != b && |s| == 2
    ensures s == {a, b}
  {
    var rest := s - {a};
    assert |rest| == 1 && b in rest;
    assert |rest - {b}| == 0;
  }

  lemma TwoApart(a: string, b: string)
    requires a != b
    ensures |{a, b}| == 2
  {
    assert {a, b} - {a} == {b};
  }

  lemma EnvelopeKeys(fs: seq<Entry<Json>>)
    requires UniqueKeys(fs) && TYPE_KEY in AsMap(fs)
    ensures (|fs| == 2 && Has(fs, "value")) <==> AsMap(fs).Keys == {TYPE_KEY, "value"}
  {
    hide AsMap, UniqueKeys, Has;
    KeysCount(fs);
    HasIsKey(fs, "value");
    assert TYPE_KEY[0] != "value"[0];
    TwoApart(TYPE_KEY, "value");
    if |fs| == 2 && Has(fs, "value") {
      TwoKeys(AsMap(fs).Keys, TYPE_KEY, "value");
    }
  }

  lemma {:induction false} RawValueMeans(j: Json)
    requires KeyedOnce(j)
    ensures RawValue(j) <==> Envelopes(Visited(j))
    decreases j, 1
  {
    match j
    case JArr(items) => RawItems(items);
    case JObj(fs) =>
      HasIsKey(fs, TYPE_KEY);
      if TYPE_KEY in AsMap(fs) {
        EnvelopeKeys(fs);
      } else {
        RawFields(fs);
      }
    case _ =>
  }

  lemma {:induction false} RawItems(js: seq<Json>)
    requires forall i :: 0 <= i < |js| ==> KeyedOnce(js[i])
    ensures (forall i :: 0 <= i < |js| ==> RawValue(js[i])) <==> Envelopes(VisitedItems(js))
    decreases js, 0
  {
    hide RawValue, Visited, KeyedOnce, AsMap;
    if js != [] {
      RawValueMeans(js[0]);
      RawItems(js[1..]);
      assert (forall i :: 0 <= i < |js| ==> RawValue(js[i])) <==>
        RawValue(js[0]) && forall i :: 0 <= i < |js[1..]| ==> RawValue(js[1..][i]) by {
        assert forall i :: 0 < i < |js| ==> js[i] == js[1..][i - 1];
      }
    }
  }

  lemma {:induction false} RawFields(fs: seq<Entry<Json>>)
    requires forall i :: 0 <= i < |fs| ==> KeyedOnce(fs[i].val)
    ensures (forall i :: 0 <= i < |fs| ==> RawValue(fs[i].val)) <==> Envelopes(VisitedFields(fs))
    decreases fs, 0
  {
    hide RawValue, Visited, KeyedOnce, AsMap;
    if fs != [] {
      RawValueMeans(fs[0].val);
      RawFields(fs[1..]);
      assert (forall i :: 0 <= i < |fs| ==> RawValue(fs[i].val)) <==>
        RawValue(fs[0].val) && forall i :: 0 <= i < |fs[1..]| ==> RawValue(fs[1..][i].val) by {
        assert forall i :: 0 < i < |fs| ==> fs[i] == fs[1..][i - 1];
      }
    }
  }

  // ---------- Documents and collections of a file ----------

  ghost function ObjectMap(j: Json): map<string, Json> {
    if j.JObj? then AsMap(j.fields) else map[]
  }

  /** A document the raw check lets pass: no envelope key of its own, no empty id, and only exact envelopes inside. */
  ghost predicate PlainDocument(document: Json) {
    document.JObj? ==>
      && TYPE_KEY !in AsMap(document.fields)
      && !("id" in AsMap(document.fields) && AsMap(document.fields)["id"] == JStr(""))
      && Envelopes(Visited(document))
  }

  ghost predicate PlainCollection(documents: Json) {
    forall id :: id in ObjectMap(documents) ==> id != "" && PlainDocument(ObjectMap(documents)[id])
  }

  ghost predicate PlainState(parsed: Json) {
    "collections" in ObjectMap(parsed) ==>
      var cs := ObjectMap(ObjectMap(parsed)["collections"]);
      forall name :: name in cs ==> ValidName(name) && PlainCollection(cs[name])
  }

  lemma RawDocumentMeans(id: string, document: Json)
    requires KeyedOnce(document)
    ensures RawDocument(id, document) <==> id != "" && PlainDocument(document)
  {
    if document.JObj? {
      var fs := document.fields;
      HasIsKey(fs, "id");
      HasIsKey(fs, TYPE_KEY);
      RawFields(fs);
      assert TYPE_KEY !in AsMap(fs) ==> Visited(document) == {document} + VisitedFields(fs);
    }
  }

  lemma RawCollectionMeans(name: string, documents: Json)
    requires KeyedOnce(documents)
    ensures RawCollection(name, documents) <==> ValidName(name) && PlainCollection(documents)
  {
    hide RawDocument, PlainDocument, AsMap, UniqueKeys;
    if documents.JObj? {
      var fs := documents.fields;
      forall i | 0 <= i < |fs|
        ensures fs[i].key in AsMap(fs) && AsMap(fs)[fs[i].key] == fs[i].val
        ensures RawDocument(fs[i].key, fs[i].val) <==> fs[i].key != "" && PlainDocument(fs[i].val)
      {
        AtIndex(fs, i);
        RawDocumentMeans(fs[i].key, fs[i].val);
      }
      forall id | id in AsMap(fs) ensures exists i :: 0 <= i < |fs| && fs[i].key == id && fs[i].val == AsMap(fs)[id] {
        var i := IndexOfKey(fs, id);
      }
      assert ObjectMap(documents) == AsMap(fs);
    }
  }

  /** Raw validation accepts exactly the files whose collections and documents are plain. */
  lemma RawStateMeans(parsed: Json)
    requires KeyedOnce(parsed)
    ensures RawState(parsed) <==> PlainState(parsed)
  {
    hide RawCollection, PlainCollection, AsMap, UniqueKeys;
    if parsed.JObj? {
      HasIsKey(parsed.fields, "collections");
      if "collections" in AsMap(parsed.fields) {
        CollectionsAreRaw(parsed.fields);
      }
    }
  }

  lemma CollectionsAreRaw(fs: seq<Entry<Json>>)
    requires KeyedOnce(JObj(fs)) && "collections" in AsMap(fs)
    ensures RawState(JObj(fs)) <==>
      var cs := ObjectMap(AsMap(fs)["collections"]);
      forall name :: name in cs ==> ValidName(name) && PlainCollection(cs[name])
  {
    hide RawCollection, PlainCollection, AsMap, UniqueKeys, ValidName;
    HasIsKey(fs, "collections");
    var k := IndexOfKey(fs, "collections");
    var c := Get(fs, "collections");
    assert KeyedOnce(fs[k].val);
    if c.JObj? {
      var cs := c.fields;
      forall i | 0 <= i < |cs|
        ensures cs[i].key in AsMap(cs) && AsMap(cs)[cs[i].key] == cs[i].val
        ensures RawCollection(cs[i].key, cs[i].val) <==> ValidName(cs[i].key) && PlainCollection(cs[i].val)
      {
        AtIndex(cs, i);
        RawCollectionMeans(cs[i].key, cs[i].val);
      }
      forall name | name in AsMap(cs) ensures exists i :: 0 <= i < |cs| && cs[i].key == name {
        var i := IndexOfKey(cs, name);
      }
    }
  }

  // ---------- Decoding ----------

  const SCALAR_TAGS := {"datetime", "date", "decimal", "bytes"}

  function KindNamed(tag: string): Kind
    requires tag in SCALAR_TAGS
  {
    if tag == "datetime" then DateTime else if tag == "date" then Date else if tag == "decimal" then Decimal else Bytes
  }

  lemma TagsApart()
    ensures "set" !in SCALAR_TAGS && |SCALAR_TAGS| == 4
  {
    assert "set"[0] == 's' && "datetime"[0] == 'd' && "date"[0] == 'd' && "decimal"[0] == 'd' && "bytes"[0] == 'b';
    assert |"datetime"| == 8 && |"date"| == 4 && |"decimal"| == 7;
  }

  /**
    An object with the envelope key decodes only as one of the five tags with a
    payload of the right type: a text the platform can parse, or a list whose
    items decode and can be members of a set.
   */
  lemma EnvelopeDecodesExactly(fs: seq<Entry<Json>>)
    requires TYPE_KEY in AsMap(fs)
    ensures Decode(JObj(fs)).Some? <==>
      && AsMap(fs)[TYPE_KEY].JStr? && "value" in AsMap(fs)
      && var tag, payload := AsMap(fs)[TYPE_KEY].s, AsMap(fs)["value"];
      || (tag in SCALAR_TAGS && payload.JStr? && Py.parse(KindNamed(tag), payload.s).Some?)
      || (tag == "set" && payload.JArr? && Encoding.Members(payload.items).Some?)
    ensures Decode(JObj(fs)).Some? ==>
      var tag, payload := AsMap(fs)[TYPE_KEY].s, AsMap(fs)["value"];
      Decode(JObj(fs)) ==
        if tag == "set" then Some(Set(Dedup(Encoding.Members(payload.items).value)))
        else if tag in SCALAR_TAGS then Some(Scalar(KindNamed(tag), Py.parse(KindNamed(tag), payload.s).value))
        else None
  {
    hide DecodeAll, CoerceAll, Dedup;
    HasIsKey(fs, TYPE_KEY);
    HasIsKey(fs, "value");
    TagsApart();
    if AsMap(fs)[TYPE_KEY].JStr? && "value" in AsMap(fs) {
      TagDecodes(AsMap(fs)[TYPE_KEY].s, AsMap(fs)["value"]);
    }
  }

  lemma TagDecodes(tag: string, payload: Json)
    ensures DecodeTagged(tag, payload) ==
      if tag == "set" then
        if !payload.JArr? || Encoding.Members(payload.items).None? then None
        else Some(Set(Dedup(Encoding.Members(payload.items).value)))
      else if tag in SCALAR_TAGS && payload.JStr? && Py.parse(KindNamed(tag), payload.s).Some? then
        Some(Scalar(KindNamed(tag), Py.parse(KindNamed(tag), payload.s).value))
      else None
  {
    hide DecodeAll, CoerceAll, Dedup;
    TagsApart();
  }

  /** Lists become tuples at every depth; nothing else is changed, and the rest must be hashable. */
  lemma CoerceMeans(v: Value)
    ensures v.List? ==> (Coerce(v).Some? <==> forall i :: 0 <= i < |v.items| ==> Coerce(v.items[i]).Some?)
    ensures v.List? && Coerce(v).Some? ==>
      && Coerce(v).value.Tuple? && |Coerce(v).value.items| == |v.items|
      && forall i :: 0 <= i < |v.items| ==> Coerce(v.items[i]) == Some(Coerce(v).value.items[i])
    ensures !v.List? ==> Coerce(v) == if Hashable(v) then Some(v) else None
  {
    if v.List? {
      CoercesItems(v.items);
    }
  }

  lemma {:induction false} CoercesItems(vs: seq<Value>)
    ensures CoerceAll(vs).Some? <==> forall i :: 0 <= i < |vs| ==> Coerce(vs[i]).Some?
    ensures CoerceAll(vs).Some? ==>
      |CoerceAll(vs).value| == |vs| && forall i :: 0 <= i < |vs| ==> Coerce(vs[i]) == Some(CoerceAll(vs).value[i])
  {
    if vs != [] {
      CoercesItems(vs[1..]);
      assert forall i :: 0 < i < |vs| ==> vs[i] == vs[1..][i - 1];
    }
  }

  /** Of equal members the first one stays, so every member has an equal one left. */
  lemma {:induction false} DedupKeeps(ms: seq<Value>, i: nat)
    requires i < |ms|
    ensures exists j :: 0 <= j < |Dedup(ms)| && (Dedup(ms)[j] == ms[i] || PyEq(Dedup(ms)[j], ms[i]))
  {
    hide PyEq;
    var init := ms[..|ms| - 1];
    var r := Dedup(init);
    if i < |ms| - 1 {
      DedupKeeps(init, i);
      var j :| 0 <= j < |r| && (r[j] == init[i] || PyEq(r[j], init[i]));
      assert Dedup(ms)[j] == r[j];
    } else if Dedup(ms) != r {
      assert Dedup(ms)[|r|] == ms[i];
    }
  }
}
