/** The canonical text of a value: it determines what the value denotes, and is determined by it. */
module Canonical {
  import opened Wrappers
  import opened Dicts
  import opened Values
  import opened JsonText
  import opened Serializer
  import opened SerializerProofs

  // ---------- Normalising changes nothing that matters ----------

  lemma SameMembersMean(ms: seq<Value>, ns: seq<Value>)
    requires forall m :: m in ms <==> m in ns
    ensures Mean(Set(ms)) == Mean(Set(ns))
  {
    var a, b := Mean(Set(ms)).members, Mean(Set(ns)).members;
    forall x | x in a ensures x in b {
      var i :| 0 <= i < |ms| && Mean(ms[i]) == x;
      assert ms[i] in ns;
      var j :| 0 <= j < |ns| && ns[j] == ms[i];
    }
    forall x | x in b ensures x in a {
      var i :| 0 <= i < |ns| && Mean(ns[i]) == x;
      assert ns[i] in ms;
      var j :| 0 <= j < |ms| && ms[j] == ns[i];
    }
  }

  lemma {:induction false} NormalisedKeeps(v: Value, w: Value)
    requires WellFormed(v) && Encodable(v) && Normalised(v, w)
    ensures WellFormed(w) && Encodable(w) && Listed(w) && Mean(w) == Mean(v)
    ensures Clean(v) ==> Clean(w)
  {
    match v
    case Set(ms) =>
      forall i | 0 <= i < |w.members|
        ensures Hashable(w.members[i]) && Encodable(w.members[i]) && (Clean(v) ==> Clean(w.members[i]))
      {
        assert w.members[i] in ms;
      }
      SameMembersMean(ms, w.members);
    case Dict(es) =>
      forall i | 0 <= i < |es|
        ensures var x, y := es[i].val, w.entries[i].val;
          WellFormed(y) && Encodable(y) && Listed(y) && Mean(y) == Mean(x) && (Clean(x) ==> Clean(y))
      {
        NormalisedKeeps(es[i].val, w.entries[i].val);
      }
      SameKeysMap(es, w.entries);
      HasIsKey(es, TYPE_KEY);
      HasIsKey(w.entries, TYPE_KEY);
      assert MeanEntries(w.entries) == MeanEntries(es);
    case List(items) => ItemsKeep(items, w.items);
    case Tuple(items) => ItemsKeep(items, w.items);
    case _ =>
  }

  lemma {:induction false} ItemsKeep(xs: seq<Value>, ys: seq<Value>)
    requires |xs| == |ys|
    requires forall i :: 0 <= i < |xs| ==> WellFormed(xs[i]) && Encodable(xs[i]) && Normalised(xs[i], ys[i])
    ensures WellFormed(List(ys)) && Encodable(List(ys)) && Listed(List(ys)) && Mean(List(ys)) == Mean(List(xs))
    ensures Clean(List(xs)) ==> Clean(List(ys))
    decreases xs, 1
  {
    forall i | 0 <= i < |xs|
      ensures WellFormed(ys[i]) && Encodable(ys[i]) && Listed(ys[i]) && Mean(ys[i]) == Mean(xs[i])
      ensures Clean(xs[i]) ==> Clean(ys[i])
    {
      NormalisedKeeps(xs[i], ys[i]);
    }
    assert Mean(List(ys)).items == Mean(List(xs)).items;
  }

  // ---------- Sorting keys, before and after decoding ----------

  /** `v` with the entries of every dict sorted by key. */
  function SortDicts(v: Value): Value {
    match v
    case Dict(es) =>
      Dict(Sort(seq(|es|, i requires 0 <= i < |es| => Entry(es[i].key, SortDicts(es[i].val)))))
    case List(items) => List(seq(|items|, i requires 0 <= i < |items| => SortDicts(items[i])))
    case _ => v
  }

  function SortedVals(es: seq<Entry<Value>>): seq<Entry<Value>> {
    seq(|es|, i requires 0 <= i < |es| => Entry(es[i].key, SortDicts(es[i].val)))
  }

  function SortedFields(fs: seq<Entry<Json>>): seq<Entry<Json>> {
    seq(|fs|, i requires 0 <= i < |fs| => Entry(fs[i].key, SortKeys(fs[i].val)))
  }

  /** Keys are unique in every object, as `json.loads` and `_encode` leave them. */
  ghost predicate KeyedOnce(j: Json) {
    match j
    case JArr(items) => forall i :: 0 <= i < |items| ==> KeyedOnce(items[i])
    case JObj(fields) => UniqueKeys(fields) && forall i :: 0 <= i < |fields| ==> KeyedOnce(fields[i].val)
    case _ => true
  }

  /** Coercing into a set member does not see the order of dict entries: a dict is refused either way. */
  lemma {:induction false} CoerceIgnoresOrder(v: Value)
    ensures Coerce(SortDicts(v)) == Coerce(v)
  {
    if v.List? {
      var ws := SortDicts(v).items;
      forall i | 0 <= i < |v.items| ensures Coerce(ws[i]) == Coerce(v.items[i]) {
        CoerceIgnoresOrder(v.items[i]);
      }
      CoerceAllEqual(v.items, ws);
    }
  }

  lemma {:induction false} CoerceAllEqual(vs: seq<Value>, ws: seq<Value>)
    requires |vs| == |ws| && forall i :: 0 <= i < |vs| ==> Coerce(vs[i]) == Coerce(ws[i])
    ensures CoerceAll(vs) == CoerceAll(ws)
  {
    if vs != [] {
      assert forall i :: 0 <= i < |vs[1..]| ==> vs[1..][i] == vs[i + 1] && ws[1..][i] == ws[i + 1];
      CoerceAllEqual(vs[1..], ws[1..]);
    }
  }

  function Resorted(v: Option<Value>): Option<Value> {
    if v.Some? then Some(SortDicts(v.value)) else None
  }

  /** The place two dicts with the same keys in the same order agree on holding `k`. */
  lemma {:induction false} SharedIndex<S, T>(a: seq<Entry<S>>, b: seq<Entry<T>>, k: string) returns (i: nat)
    requires SameKeys(a, b) && UniqueKeys(a) && k in AsMap(a)
    ensures i < |a| && a[i].key == b[i].key == k
    ensures k in AsMap(b) && AsMap(a)[k] == a[i].val && AsMap(b)[k] == b[i].val
  {
    SameKeysMap(a, b);
    i := IndexOfKey(a, k);
    AtIndex(b, i);
  }

  lemma {:induction false} SameKeysSorted<S, T>(a: seq<Entry<S>>, b: seq<Entry<T>>)
    requires SameKeys(a, b) && Sorted(a)
    ensures Sorted(b)
  {
    if a != [] {
      assert forall i :: 0 <= i < |a[1..]| ==> a[1..][i].key == a[i + 1].key == b[i + 1].key == b[1..][i].key;
      SameKeysSorted(a[1..], b[1..]);
      SameKeysMap(a[1..], b[1..]);
    }
  }

  /** Key by key, the fields of a key-sorted object are the key-sorted fields. */
  lemma SortedObject(fs: seq<Entry<Json>>, k: string)
    requires UniqueKeys(fs)
    ensures var s := Sort(SortedFields(fs));
      && UniqueKeys(s) && Sorted(s) && |s| == |fs|
      && (k in AsMap(s) <==> k in AsMap(fs))
      && (k in AsMap(fs) ==> AsMap(s)[k] == SortKeys(AsMap(fs)[k]))
  {
    SameKeysMap(fs, SortedFields(fs));
    SortKeeps(SortedFields(fs));
    if k in AsMap(fs) {
      var i := SharedIndex(fs, SortedFields(fs), k);
    }
  }

  lemma SortedDict(es: seq<Entry<Value>>, k: string)
    requires UniqueKeys(es)
    ensures var s := Sort(SortedVals(es));
      && UniqueKeys(s) && Sorted(s) && |s| == |es|
      && (k in AsMap(s) <==> k in AsMap(es))
      && (k in AsMap(es) ==> AsMap(s)[k] == SortDicts(AsMap(es)[k]))
  {
    SameKeysMap(es, SortedVals(es));
    SortKeeps(SortedVals(es));
    if k in AsMap(es) {
      var i := SharedIndex(es, SortedVals(es), k);
    }
  }

  /** Key by key, decoding the fields of an object. */
  lemma FieldsDecodeAt(fs: seq<Entry<Json>>, k: string)
    requires UniqueKeys(fs) && DecodeFields(fs).Some?
    ensures var ws := DecodeFields(fs).value;
      && SameKeys(fs, ws) && UniqueKeys(ws)
      && (k in AsMap(ws) <==> k in AsMap(fs))
      && (k in AsMap(fs) ==> Decode(AsMap(fs)[k]) == Some(AsMap(ws)[k]))
  {
    DecodesEachField(fs);
    SameKeysMap(fs, DecodeFields(fs).value);
    if k in AsMap(fs) {
      var i := SharedIndex(fs, DecodeFields(fs).value, k);
    }
  }

  lemma FieldsDecodeByKey(fs: seq<Entry<Json>>)
    requires UniqueKeys(fs)
    ensures DecodeFields(fs).Some? <==> forall k :: k in AsMap(fs) ==> Decode(AsMap(fs)[k]).Some?
  {
    DecodesEachField(fs);
    if DecodeFields(fs).Some? {
      forall k | k in AsMap(fs) ensures Decode(AsMap(fs)[k]).Some? {
        FieldsDecodeAt(fs, k);
      }
    } else {
      var i :| 0 <= i < |fs| && Decode(fs[i].val).None?;
      AtIndex(fs, i);
    }
  }

  ghost predicate SortedDecodes(j: Json) {
    Decode(SortKeys(j)) == Resorted(Decode(j))
  }

  lemma FieldSorts(fs: seq<Entry<Json>>, k: string)
    requires UniqueKeys(fs) && k in AsMap(fs)
    requires forall i :: 0 <= i < |fs| ==> SortedDecodes(fs[i].val)
    ensures k in AsMap(Sort(SortedFields(fs)))
    ensures Decode(AsMap(Sort(SortedFields(fs)))[k]) == Resorted(Decode(AsMap(fs)[k]))
  {
    SortedObject(fs, k);
    var i := IndexOfKey(fs, k);
  }

  lemma PlainObjectFails(fs: seq<Entry<Json>>)
    requires UniqueKeys(fs) && forall i :: 0 <= i < |fs| ==> SortedDecodes(fs[i].val)
    ensures DecodeFields(Sort(SortedFields(fs))).Some? == DecodeFields(fs).Some?
  {
    var s := Sort(SortedFields(fs));
    SortedObject(fs, "");
    FieldsDecodeByKey(fs);
    FieldsDecodeByKey(s);
    forall k | k in AsMap(s) || k in AsMap(fs)
      ensures k in AsMap(s) && k in AsMap(fs) && Decode(AsMap(s)[k]).Some? == Decode(AsMap(fs)[k]).Some?
    {
      SortedObject(fs, k);
      FieldSorts(fs, k);
    }
  }

  lemma SortedFieldDecodes(fs: seq<Entry<Json>>, k: string)
    requires UniqueKeys(fs) && forall i :: 0 <= i < |fs| ==> SortedDecodes(fs[i].val)
    requires DecodeFields(fs).Some? && DecodeFields(Sort(SortedFields(fs))).Some?
    ensures var us, vs := DecodeFields(Sort(SortedFields(fs))).value, Sort(SortedVals(DecodeFields(fs).value));
      && (k in AsMap(us) <==> k in AsMap(vs))
      && (k in AsMap(us) ==> AsMap(us)[k] == AsMap(vs)[k])
  {
    SortedObject(fs, k);
    FieldsDecodeAt(fs, k);
    FieldsDecodeAt(Sort(SortedFields(fs)), k);
    SortedDict(DecodeFields(fs).value, k);
    if k in AsMap(fs) {
      FieldSorts(fs, k);
    }
  }

  /** Decoding a key-sorted object without an envelope key. */
  lemma PlainObjectSorts(fs: seq<Entry<Json>>)
    requires UniqueKeys(fs) && forall i :: 0 <= i < |fs| ==> SortedDecodes(fs[i].val)
    requires DecodeFields(fs).Some? && DecodeFields(Sort(SortedFields(fs))).Some?
    ensures DecodeFields(Sort(SortedFields(fs))).value == Sort(SortedVals(DecodeFields(fs).value))
  {
    var us, vs := DecodeFields(Sort(SortedFields(fs))).value, Sort(SortedVals(DecodeFields(fs).value));
    SortedDecodeIsSorted(fs);
    forall k ensures (k in AsMap(us) <==> k in AsMap(vs)) && (k in AsMap(us) ==> AsMap(us)[k] == AsMap(vs)[k]) {
      SortedFieldDecodes(fs, k);
    }
    SortedAgree(us, vs);
  }

  lemma SortedDecodeIsSorted(fs: seq<Entry<Json>>)
    requires UniqueKeys(fs) && DecodeFields(fs).Some? && DecodeFields(Sort(SortedFields(fs))).Some?
    ensures var us := DecodeFields(Sort(SortedFields(fs))).value; Sorted(us) && UniqueKeys(us)
    ensures var vs := Sort(SortedVals(DecodeFields(fs).value)); Sorted(vs) && UniqueKeys(vs)
  {
    var s := Sort(SortedFields(fs));
    SortedObject(fs, "");
    FieldsDecodeAt(s, "");
    SameKeysSorted(s, DecodeFields(s).value);
    FieldsDecodeAt(fs, "");
    SortedDict(DecodeFields(fs).value, "");
  }

  lemma SortedAgree<T>(a: seq<Entry<T>>, b: seq<Entry<T>>)
    requires Sorted(a) && UniqueKeys(a) && Sorted(b) && UniqueKeys(b)
    requires forall k :: (k in AsMap(a) <==> k in AsMap(b)) && (k in AsMap(a) ==> AsMap(a)[k] == AsMap(b)[k])
    ensures a == b
  {
    assert AsMap(a) == AsMap(b);
    SortedIsUnique(a, b);
  }

  lemma SetItemsSort(items: seq<Json>)
    requires forall i :: 0 <= i < |items| ==> SortedDecodes(items[i])
    ensures DecodeTagged("set", SortKeys(JArr(items))) == DecodeTagged("set", JArr(items))
  {
    var js := SortKeys(JArr(items)).items;
    DecodesEach(items);
    DecodesEach(js);
    assert forall i :: 0 <= i < |items| ==> js[i] == SortKeys(items[i]) && SortedDecodes(items[i]);
    if DecodeAll(items).Some? {
      var vs, ws := DecodeAll(items).value, DecodeAll(js).value;
      forall i | 0 <= i < |vs| ensures Coerce(vs[i]) == Coerce(ws[i]) {
        CoerceIgnoresOrder(vs[i]);
      }
      CoerceAllEqual(vs, ws);
    }
  }

  lemma ArraySorts(items: seq<Json>)
    requires forall i :: 0 <= i < |items| ==> SortedDecodes(items[i])
    ensures SortedDecodes(JArr(items))
  {
    var js := SortKeys(JArr(items)).items;
    DecodesEach(items);
    DecodesEach(js);
    assert forall i :: 0 <= i < |items| ==> js[i] == SortKeys(items[i]) && SortedDecodes(items[i]);
    if DecodeAll(items).Some? {
      assert SortDicts(List(DecodeAll(items).value)).items == DecodeAll(js).value;
    }
  }

  /** Decoding a key-sorted tree gives the decoded value with its dicts sorted; it fails on the same trees. */
  lemma {:induction false} DecodeSorted(j: Json)
    requires KeyedOnce(j)
    ensures SortedDecodes(j)
  {
    match j
    case JArr(items) =>
      forall i | 0 <= i < |items| ensures SortedDecodes(items[i]) {
        DecodeSorted(items[i]);
      }
      ArraySorts(items);
    case JObj(fs) =>
      forall i | 0 <= i < |fs| ensures SortedDecodes(fs[i].val) {
        DecodeSorted(fs[i].val);
      }
      if Has(fs, TYPE_KEY) {
        if Has(fs, "value") && Get(fs, "value").JArr? {
          var items := Inside(fs, "value").items;
          forall i | 0 <= i < |items| ensures SortedDecodes(items[i]) {
            var f :| 0 <= f < |fs| && fs[f].val == JArr(items);
            DecodeSorted(items[i]);
          }
          SetItemsSort(items);
        }
        EnvelopeSorts(fs);
      } else {
        PlainObjectFails(fs);
        if DecodeFields(fs).Some? {
          PlainObjectSorts(fs);
        }
        PlainSorts(fs);
      }
    case _ =>
  }

  lemma EnvelopeSorts(fs: seq<Entry<Json>>)
    requires UniqueKeys(fs) && Has(fs, TYPE_KEY)
    requires Has(fs, "value") && Get(fs, "value").JArr? ==>
      DecodeTagged("set", SortKeys(Get(fs, "value"))) == DecodeTagged("set", Get(fs, "value"))
    ensures SortedDecodes(JObj(fs))
  {
    hide AsMap, UniqueKeys;
    var s := Sort(SortedFields(fs));
    forall k | k == TYPE_KEY || k == "value"
      ensures Has(s, k) == Has(fs, k) && (Has(fs, k) ==> Get(s, k) == SortKeys(Get(fs, k)))
    {
      HasIsKey(fs, k);
      HasIsKey(s, k);
      SortedObject(fs, k);
    }
    EnvelopeDecodes(fs);
    EnvelopeDecodes(s);
  }

  lemma EnvelopeDecodes(fs: seq<Entry<Json>>)
    requires Has(fs, TYPE_KEY)
    ensures Decode(JObj(fs)) ==
      if Get(fs, TYPE_KEY).JStr? && Has(fs, "value") then DecodeTagged(Get(fs, TYPE_KEY).s, Get(fs, "value")) else None
    ensures Decode(JObj(fs)).Some? ==> Decode(JObj(fs)).value.Set? || Decode(JObj(fs)).value.Scalar?
  {
  }

  lemma PlainSorts(fs: seq<Entry<Json>>)
    requires UniqueKeys(fs) && !Has(fs, TYPE_KEY)
    requires DecodeFields(Sort(SortedFields(fs))).Some? == DecodeFields(fs).Some?
    requires DecodeFields(fs).Some? ==>
      DecodeFields(Sort(SortedFields(fs))).value == Sort(SortedVals(DecodeFields(fs).value))
    ensures SortedDecodes(JObj(fs))
  {
    var s := Sort(SortedFields(fs));
    HasIsKey(fs, TYPE_KEY);
    HasIsKey(s, TYPE_KEY);
    SortedObject(fs, TYPE_KEY);
    assert SortKeys(JObj(fs)) == JObj(s);
    if DecodeFields(fs).Some? {
      PlainDecodes(fs);
      PlainDecodes(s);
    }
  }
}
