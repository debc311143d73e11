/** The tagged round trip: what is encoded decodes to the same value, with tuples turned into lists. */
module SerializerProofs {
  import opened Wrappers
  import opened Dicts
  import opened Host
  import opened Values
  import opened JsonText
  import opened JsonProofs
  import opened Serializer

  // ---------- Element by element ----------

  lemma {:induction false} DecodesEach(js: seq<Json>)
    ensures DecodeAll(js).Some? <==> forall i :: 0 <= i < |js| ==> Decode(js[i]).Some?
    ensures DecodeAll(js).Some? ==>
      && |DecodeAll(js).value| == |js|
      && forall i :: 0 <= i < |js| ==> Decode(js[i]) == Some(DecodeAll(js).value[i])
  {
    if js != [] {
      DecodesEach(js[1..]);
    }
  }

  lemma {:induction false} CoercesEach(vs: seq<Value>)
    ensures CoerceAll(vs).Some? <==> forall i :: 0 <= i < |vs| ==> Coerce(vs[i]).Some?
    ensures CoerceAll(vs).Some? ==>
      && |CoerceAll(vs).value| == |vs|
      && forall i :: 0 <= i < |vs| ==> Coerce(vs[i]) == Some(CoerceAll(vs).value[i])
  {
    if vs != [] {
      CoercesEach(vs[1..]);
    }
  }

  lemma {:induction false} DecodesEachField(fs: seq<Entry<Json>>)
    ensures DecodeFields(fs).Some? <==> forall i :: 0 <= i < |fs| ==> Decode(fs[i].val).Some?
    ensures DecodeFields(fs).Some? ==>
      && |DecodeFields(fs).value| == |fs|
      && forall i :: 0 <= i < |fs| ==>
        DecodeFields(fs).value[i].key == fs[i].key && Decode(fs[i].val) == Some(DecodeFields(fs).value[i].val)
  {
    if fs != [] {
      DecodesEachField(fs[1..]);
    }
  }

  /** Two dicts with the same keys in the same order. */
  ghost predicate SameKeys<S, T>(a: seq<Entry<S>>, b: seq<Entry<T>>) {
    |a| == |b| && forall i :: 0 <= i < |a| ==> a[i].key == b[i].key
  }

  lemma {:induction false} SameKeysMap<S, T>(a: seq<Entry<S>>, b: seq<Entry<T>>)
    requires SameKeys(a, b)
    ensures AsMap(a).Keys == AsMap(b).Keys && UniqueKeys(a) == UniqueKeys(b)
  {
    if a != [] {
      assert SameKeys(a[1..], b[1..]) by {
        forall i | 0 <= i < |a[1..]| ensures a[1..][i].key == b[1..][i].key {
          assert a[i + 1].key == b[i + 1].key;
        }
      }
      SameKeysMap(a[1..], b[1..]);
    }
  }

  // ---------- Envelopes ----------

  lemma TaggedLookup(tag: string, payload: Json)
    ensures var fs := Tagged(tag, payload).fields;
      && UniqueKeys(fs) && Has(fs, TYPE_KEY) && Get(fs, TYPE_KEY) == JStr(tag)
      && Has(fs, "value") && Get(fs, "value") == payload
  {
    var fs := Tagged(tag, payload).fields;
    assert "value"[0] != TYPE_KEY[0];
    assert fs[1..] == [Entry("value", payload)];
    assert fs[1..][1..] == [];
  }

  lemma TaggedIsSorted(tag: string, payload: Json)
    ensures SortKeys(Tagged(tag, payload)) == Tagged(tag, SortKeys(payload))
  {
    var fs := Tagged(tag, payload).fields;
    var gs := seq(|fs|, i requires 0 <= i < |fs| => Entry(fs[i].key, SortKeys(fs[i].val)));
    assert gs == [Entry(TYPE_KEY, JStr(tag)), Entry("value", SortKeys(payload))];
    assert TYPE_KEY[0] == '_' < 'v' == "value"[0];
    assert gs[1..] == [Entry("value", SortKeys(payload))] && gs[1..][1..] == [];
    assert Sort(gs[1..]) == gs[1..];
    assert Sort(gs) == gs;
  }

  // ---------- Members of sets ----------

  /** An encoded set member has sorted keys, has JSON text, and decodes to a value that coerces back to the member. */
  lemma {:induction false} MemberRoundTrip(m: Value)
    requires Hashable(m) && Encodable(m)
    ensures SortKeys(Enc(m)) == Enc(m) && Printable(Enc(m))
    ensures Decode(Enc(m)).Some? && Coerce(Decode(Enc(m)).value) == Some(m)
  {
    match m
    case Scalar(k, c) => ScalarRoundTrip(k, c);
    case Tuple(items) =>
      forall i | 0 <= i < |items| ensures MemberTrips(Enc(items[i]), items[i]) {
        MemberRoundTrip(items[i]);
      }
      TupleTrips(EncAll(items), items);
    case _ =>
  }

  ghost predicate MemberTrips(j: Json, m: Value) {
    && SortKeys(j) == j && Printable(j)
    && Decode(j).Some? && Coerce(Decode(j).value) == Some(m)
  }

  lemma TupleTrips(js: seq<Json>, items: seq<Value>)
    requires |js| == |items| && forall i :: 0 <= i < |js| ==> MemberTrips(js[i], items[i])
    ensures MemberTrips(JArr(js), Tuple(items))
  {
    DecodesEach(js);
    var vs := DecodeAll(js).value;
    CoercesEach(vs);
    assert CoerceAll(vs).value == items;
    assert SortKeys(JArr(js)).items == js;
  }

  lemma TaggedDecodes(tag: string, payload: Json)
    ensures Decode(Tagged(tag, payload)) == DecodeTagged(tag, payload)
  {
    TaggedLookup(tag, payload);
  }

  lemma TaggedPrintable(tag: string, payload: Json)
    requires Printable(payload)
    ensures Printable(Tagged(tag, payload))
  {
    TaggedLookup(tag, payload);
    assert forall i :: 0 <= i < |Tagged(tag, payload).fields| ==> Printable(Tagged(tag, payload).fields[i].val);
  }

  lemma ScalarDecodes(k: Kind, c: int)
    requires Py.storable(k, c)
    ensures Decode(Enc(Scalar(k, c))) == Some(Scalar(k, c))
  {
    DecodesTag(k);
    TaggedDecodes(TagOf(k), JStr(Py.text(k, c)));
    assert DecodeTagged(TagOf(k), JStr(Py.text(k, c))) == Some(Scalar(k, c));
  }

  lemma ScalarRoundTrip(k: Kind, c: int)
    requires Py.storable(k, c)
    ensures MemberTrips(Enc(Scalar(k, c)), Scalar(k, c))
  {
    var payload := JStr(Py.text(k, c));
    assert SortKeys(payload) == payload;
    TaggedIsSorted(TagOf(k), payload);
    TaggedPrintable(TagOf(k), payload);
    ScalarDecodes(k, c);
    assert Py.hashable(k, c);
  }

  lemma DecodesTag(k: Kind)
    ensures KindOf(TagOf(k)) == Some(k) && TagOf(k) != "set"
  {
    assert "datetime"[0] != "set"[0] && "date"[0] != "set"[0] && "decimal"[0] != "set"[0] && "bytes"[0] != "set"[0];
    assert |"datetime"| != |"date"| && "date"[1] != "decimal"[1] && "datetime"[1] != "decimal"[1];
  }

  /** Different members have different encodings and are sorted by different texts. */
  lemma MembersApart(m: Value, n: Value)
    requires Hashable(m) && Encodable(m) && Hashable(n) && Encodable(n)
    requires SortText(Enc(m)) == SortText(Enc(n))
    ensures m == n
  {
    MemberRoundTrip(m);
    MemberRoundTrip(n);
    DumpsInjective(SORT_KEY, Enc(m), Enc(n));
  }

  lemma {:induction false} PyEqReflexive(m: Value)
    requires Hashable(m) && Encodable(m)
    ensures PyEq(m, m)
  {
    if m.Tuple? {
      forall i | 0 <= i < |m.items| ensures PyEq(m.items[i], m.items[i]) {
        PyEqReflexive(m.items[i]);
      }
    }
  }

  function EncAll(ms: seq<Value>): seq<Json>
    requires forall i :: 0 <= i < |ms| ==> Encodable(ms[i])
  {
    seq(|ms|, i requires 0 <= i < |ms| => Enc(ms[i]))
  }

  ghost predicate Members(ms: seq<Value>) {
    Distinct(ms) && forall i :: 0 <= i < |ms| ==> Hashable(ms[i]) && Encodable(ms[i])
  }

  lemma {:induction false} UniqueByIndex<T>(es: seq<Entry<T>>)
    requires forall i, j :: 0 <= i < j < |es| ==> es[i].key != es[j].key
    ensures UniqueKeys(es)
  {
    if es != [] {
      UniqueByIndex(es[1..]);
      assert forall i :: 0 <= i < |es[1..]| ==> es[1..][i] == es[i + 1];
      NotAKey(es[1..], es[0].key);
    }
  }

  lemma {:induction false} NotAKey<T>(es: seq<Entry<T>>, k: string)
    requires forall i :: 0 <= i < |es| ==> es[i].key != k
    ensures k !in AsMap(es)
  {
    if es != [] {
      NotAKey(es[1..], k);
    }
  }

  lemma MembersHaveUniqueTexts(ms: seq<Value>)
    requires Members(ms)
    ensures UniqueKeys(Keyed(EncAll(ms)))
  {
    var es := Keyed(EncAll(ms));
    forall i, j | 0 <= i < j < |es| ensures es[i].key != es[j].key {
      if es[i].key == es[j].key {
        MembersApart(ms[i], ms[j]);
        PyEqReflexive(ms[i]);
      }
    }
    UniqueByIndex(es);
  }

  /** Sorting the encoded members only changes their order. */
  lemma SortedMembers(ms: seq<Value>, i: nat) returns (j: nat)
    requires Members(ms) && i < |ms|
    ensures |SortItems(EncAll(ms))| == |ms|
    ensures j < |ms| && SortItems(EncAll(ms))[i] == Enc(ms[j])
    ensures Sort(Keyed(EncAll(ms)))[i].key == SortText(Enc(ms[j]))
  {
    var es := Keyed(EncAll(ms));
    MembersHaveUniqueTexts(ms);
    SortKeeps(es);
    AtIndex(Sort(es), i);
    j := IndexOfKey(es, Sort(es)[i].key);
  }

  /** Every member appears in the sorted encoding. */
  lemma SortedHasMember(ms: seq<Value>, j: nat) returns (i: nat)
    requires Members(ms) && j < |ms|
    ensures |SortItems(EncAll(ms))| == |ms|
    ensures i < |ms| && SortItems(EncAll(ms))[i] == Enc(ms[j])
  {
    var es := Keyed(EncAll(ms));
    MembersHaveUniqueTexts(ms);
    SortKeeps(es);
    AtIndex(es, j);
    i := IndexOfKey(Sort(es), es[j].key);
  }

  lemma {:induction false} UniqueAtIndices<T>(es: seq<Entry<T>>, i: nat, j: nat)
    requires UniqueKeys(es) && i < j < |es|
    ensures es[i].key != es[j].key
  {
    if i == 0 {
      AtIndex(es[1..], j - 1);
    } else {
      UniqueAtIndices(es[1..], i - 1, j - 1);
    }
  }

  // ---------- The round trip ----------

  /** `w` is `v` with tuples outside sets turned into lists and the members of sets listed in any order. */
  ghost predicate Normalised(v: Value, w: Value) {
    match v
    case Set(ms) => w.Set? && Distinct(w.members) && forall m :: m in ms <==> m in w.members
    case Dict(es) =>
      w.Dict? && SameKeys(es, w.entries) && forall i :: 0 <= i < |es| ==> Normalised(es[i].val, w.entries[i].val)
    case List(items) =>
      w.List? && |items| == |w.items| && forall i :: 0 <= i < |items| ==> Normalised(items[i], w.items[i])
    case Tuple(items) =>
      w.List? && |items| == |w.items| && forall i :: 0 <= i < |items| ==> Normalised(items[i], w.items[i])
    case _ => w == v
  }

  /** What `decode` makes of the sorted members of a set. */
  lemma SetDecodes(ms: seq<Value>) returns (ns: seq<Value>)
    requires Members(ms)
    ensures DecodeTagged("set", JArr(SortItems(EncAll(ms)))) == Some(Set(ns))
    ensures Distinct(ns) && forall m :: m in ms <==> m in ns
  {
    var js := SortItems(EncAll(ms));
    ns := CoercedMembers(ms);
    DedupOfDistinct(ns);
  }

  /** The tree decodes and coerces to some member. */
  ghost predicate TripsToSome(j: Json, ms: seq<Value>) {
    exists k :: 0 <= k < |ms| && MemberTrips(j, ms[k])
  }

  lemma EachTrips(ms: seq<Value>)
    requires Members(ms)
    ensures var js := SortItems(EncAll(ms));
      |js| == |ms| && forall i :: 0 <= i < |js| ==> TripsToSome(js[i], ms)
  {
    var js := SortItems(EncAll(ms));
    MembersHaveUniqueTexts(ms);
    SortKeeps(Keyed(EncAll(ms)));
    forall i | 0 <= i < |js| ensures TripsToSome(js[i], ms) {
      var j := SortedMembers(ms, i);
      MemberRoundTrip(ms[j]);
    }
  }

  lemma DecodedMembers(ms: seq<Value>) returns (ns: seq<Value>)
    requires Members(ms)
    ensures DecodeAll(SortItems(EncAll(ms))).Some?
    ensures CoerceAll(DecodeAll(SortItems(EncAll(ms))).value) == Some(ns)
    ensures |SortItems(EncAll(ms))| == |ms| == |ns|
    ensures forall i :: 0 <= i < |ns| ==>
      var j := SortItems(EncAll(ms))[i]; TripsToSome(j, ms) && MemberTrips(j, ns[i])
  {
    EachTrips(ms);
    var js := SortItems(EncAll(ms));
    hide SortItems, Printable, SortKeys;
    DecodesEach(js);
    var vs := DecodeAll(js).value;
    CoercesEach(vs);
    ns := CoerceAll(vs).value;
  }

  lemma CoercedMembers(ms: seq<Value>) returns (ns: seq<Value>)
    requires Members(ms)
    ensures DecodeAll(SortItems(EncAll(ms))).Some?
    ensures CoerceAll(DecodeAll(SortItems(EncAll(ms))).value) == Some(ns)
    ensures Distinct(ns) && forall m :: m in ms <==> m in ns
  {
    hide PyEq, SortItems, Printable, SortKeys, CoerceAll, DecodeAll;
    ns := DecodedMembers(ms);
    forall i, k | 0 <= i < |ns| && 0 <= k < |ns| && i != k ensures !PyEq(ns[i], ns[k]) {
      CoercedApart(ms, ns, i, k);
    }
    forall m | m in ms ensures m in ns {
      var j :| 0 <= j < |ms| && ms[j] == m;
      var i := SortedHasMember(ms, j);
      MemberRoundTrip(m);
    }
  }

  lemma CoercedApart(ms: seq<Value>, ns: seq<Value>, i: nat, k: nat)
    requires Members(ms) && i < |ms| && k < |ms| == |ns| && i != k
    requires |SortItems(EncAll(ms))| == |ms|
    requires forall x :: x == i || x == k ==>
      var j := SortItems(EncAll(ms))[x]; Decode(j).Some? && Coerce(Decode(j).value) == Some(ns[x])
    ensures !PyEq(ns[i], ns[k])
  {
    var a := SortedMembers(ms, i);
    var b := SortedMembers(ms, k);
    MemberRoundTrip(ms[a]);
    MemberRoundTrip(ms[b]);
    MembersHaveUniqueTexts(ms);
    SortKeeps(Keyed(EncAll(ms)));
    UniqueAtIndices(Sort(Keyed(EncAll(ms))), if i < k then i else k, if i < k then k else i);
    assert a != b;
  }

  lemma ItemsDecode(items: seq<Value>)
    requires forall i :: 0 <= i < |items| ==> Encodable(items[i]) && DecodesTo(items[i])
    ensures DecodesTo(List(items)) && DecodesTo(Tuple(items))
  {
    DecodesEach(EncAll(items));
  }

  lemma DictDecodesTo(es: seq<Entry<Value>>)
    requires !Has(es, TYPE_KEY) && forall i :: 0 <= i < |es| ==> Encodable(es[i].val) && DecodesTo(es[i].val)
    ensures Encodable(Dict(es)) && DecodesTo(Dict(es))
  {
    var ws := FieldsDecode(es);
    DictDecodes(es, ws);
    assert Enc(Dict(es)) == JObj(EncFields(es));
  }

  lemma SetDecodesTo(ms: seq<Value>)
    requires Members(ms)
    ensures DecodesTo(Set(ms))
  {
    var ns := SetDecodes(ms);
    TaggedDecodes("set", JArr(SortItems(EncAll(ms))));
  }

  lemma ScalarDecodesTo(k: Kind, c: int)
    requires Py.storable(k, c)
    ensures DecodesTo(Scalar(k, c))
  {
    ScalarDecodes(k, c);
  }

  lemma {:induction false} RoundTripTo(v: Value)
    requires WellFormed(v) && Clean(v) && Encodable(v)
    ensures DecodesTo(v)
  {
    hide Normalised, SortItems, PyEq;
    match v
    case Scalar(k, c) => ScalarDecodesTo(k, c);
    case Set(ms) => SetDecodesTo(ms);
    case Dict(es) =>
      forall i | 0 <= i < |es| ensures Encodable(es[i].val) && DecodesTo(es[i].val) {
        RoundTripTo(es[i].val);
      }
      DictDecodesTo(es);
    case List(items) =>
      forall i | 0 <= i < |items| ensures DecodesTo(items[i]) {
        RoundTripTo(items[i]);
      }
      ItemsDecode(items);
    case Tuple(items) =>
      forall i | 0 <= i < |items| ensures DecodesTo(items[i]) {
        RoundTripTo(items[i]);
      }
      ItemsDecode(items);
    case _ => AtomDecodesTo(v);
  }

  lemma AtomDecodesTo(v: Value)
    requires Encodable(v) && !v.Scalar? && !v.Set? && !v.Dict? && !v.List? && !v.Tuple?
    ensures DecodesTo(v)
  {
    hide DecodeAll, DecodeFields, SortItems, PyEq, Distinct, Has, Get, Tagged;
  }

  /** `decode(encode(v))` is `v`, up to tuples outside sets and the order of set members. */
  lemma RoundTrip(v: Value)
    requires WellFormed(v) && Clean(v) && Encodable(v)
    ensures Decode(Enc(v)).Some? && Normalised(v, Decode(Enc(v)).value)
  {
    RoundTripTo(v);
  }

  ghost predicate DecodesTo(v: Value)
    requires Encodable(v)
  {
    Decode(Enc(v)).Some? && Normalised(v, Decode(Enc(v)).value)
  }

  lemma FieldsDecode(es: seq<Entry<Value>>) returns (ws: seq<Entry<Value>>)
    requires forall i :: 0 <= i < |es| ==> Encodable(es[i].val) && DecodesTo(es[i].val)
    ensures DecodeFields(EncFields(es)) == Some(ws)
    ensures Normalised(Dict(es), Dict(ws))
  {
    var fs := EncFields(es);
    forall i | 0 <= i < |fs| ensures Decode(fs[i].val).Some? && Normalised(es[i].val, Decode(fs[i].val).value) {
      assert DecodesTo(es[i].val);
    }
    DecodesEachField(fs);
    ws := DecodeFields(fs).value;
  }

  lemma DictDecodes(es: seq<Entry<Value>>, ws: seq<Entry<Value>>)
    requires !Has(es, TYPE_KEY) && forall i :: 0 <= i < |es| ==> Encodable(es[i].val)
    requires DecodeFields(EncFields(es)) == Some(ws)
    ensures Decode(JObj(EncFields(es))) == Some(Dict(ws))
  {
    hide Decode, DecodeFields, Enc, Encodable, Has, AsMap;
    SameKeysMap(es, EncFields(es));
    HasIsKey(es, TYPE_KEY);
    HasIsKey(EncFields(es), TYPE_KEY);
    PlainDecodes(EncFields(es));
  }

  function EncFields(es: seq<Entry<Value>>): seq<Entry<Json>>
    requires forall i :: 0 <= i < |es| ==> Encodable(es[i].val)
  {
    seq(|es|, i requires 0 <= i < |es| => Entry(es[i].key, Enc(es[i].val)))
  }

  lemma PlainDecodes(fs: seq<Entry<Json>>)
    requires !Has(fs, TYPE_KEY) && DecodeFields(fs).Some?
    ensures Decode(JObj(fs)) == Some(Dict(DecodeFields(fs).value))
  {
  }
}
