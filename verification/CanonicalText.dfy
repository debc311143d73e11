/** The canonical text and the file text of a value. */
module CanonicalText {
  import opened Wrappers
  import opened Dicts
  import opened Host
  import opened Values
  import opened JsonText
  import opened JsonProofs
  import opened Serializer
  import opened SerializerProofs
  import opened Canonical

  // ---------- Sorting the dicts of a value ----------

  lemma {:induction false} SortDictsKeeps(v: Value)
    requires WellFormed(v)
    ensures WellFormed(SortDicts(v)) && Mean(SortDicts(v)) == Mean(v)
    ensures Encodable(v) ==> Encodable(SortDicts(v))
    ensures Listed(v) ==> Listed(SortDicts(v))
    ensures Clean(v) ==> Clean(SortDicts(v))
  {
    match v
    case Dict(es) =>
      forall i | 0 <= i < |es| ensures SortKept(es[i].val, SortDicts(es[i].val)) {
        SortDictsKeeps(es[i].val);
      }
      SortedDictKeeps(es);
    case List(items) =>
      var ws := SortDicts(v).items;
      forall i | 0 <= i < |items| ensures SortKept(items[i], ws[i]) {
        SortDictsKeeps(items[i]);
      }
      assert Mean(SortDicts(v)).items == Mean(v).items;
    case _ =>
  }

  ghost predicate SortKept(v: Value, w: Value) {
    && WellFormed(w) && Mean(w) == Mean(v)
    && (Encodable(v) ==> Encodable(w)) && (Listed(v) ==> Listed(w)) && (Clean(v) ==> Clean(w))
  }

  lemma SortedEntryKept(es: seq<Entry<Value>>, i: nat)
    requires UniqueKeys(es) && forall i :: 0 <= i < |es| ==> SortKept(es[i].val, SortDicts(es[i].val))
    requires i < |Sort(SortedVals(es))|
    ensures var w := Sort(SortedVals(es))[i].val;
      && WellFormed(w)
      && (Encodable(Dict(es)) ==> Encodable(w)) && (Listed(Dict(es)) ==> Listed(w)) && (Clean(Dict(es)) ==> Clean(w))
  {
    var j := SortedFrom(es, i);
    assert SortKept(es[j].val, SortDicts(es[j].val));
  }

  lemma SortedDictKeeps(es: seq<Entry<Value>>)
    requires UniqueKeys(es) && forall i :: 0 <= i < |es| ==> SortKept(es[i].val, SortDicts(es[i].val))
    ensures SortKept(Dict(es), Dict(Sort(SortedVals(es))))
  {
    var s := Sort(SortedVals(es));
    forall i | 0 <= i < |s|
      ensures WellFormed(s[i].val)
      ensures Encodable(Dict(es)) ==> Encodable(s[i].val)
      ensures Listed(Dict(es)) ==> Listed(s[i].val)
      ensures Clean(Dict(es)) ==> Clean(s[i].val)
    {
      SortedEntryKept(es, i);
    }
    SortedKeysKept(es);
    MeanOfSorted(es);
    EntriesKept(es, s);
  }

  lemma SortedKeysKept(es: seq<Entry<Value>>)
    requires UniqueKeys(es)
    ensures UniqueKeys(Sort(SortedVals(es))) && (Has(es, TYPE_KEY) <==> Has(Sort(SortedVals(es)), TYPE_KEY))
  {
    SortedDict(es, TYPE_KEY);
    HasIsKey(es, TYPE_KEY);
    HasIsKey(Sort(SortedVals(es)), TYPE_KEY);
  }

  lemma EntriesKept(es: seq<Entry<Value>>, s: seq<Entry<Value>>)
    requires UniqueKeys(s) && (Has(es, TYPE_KEY) <==> Has(s, TYPE_KEY)) && Mean(Dict(s)) == Mean(Dict(es))
    requires forall i :: 0 <= i < |s| ==> WellFormed(s[i].val)
    requires Encodable(Dict(es)) ==> forall i :: 0 <= i < |s| ==> Encodable(s[i].val)
    requires Listed(Dict(es)) ==> forall i :: 0 <= i < |s| ==> Listed(s[i].val)
    requires Clean(Dict(es)) ==> forall i :: 0 <= i < |s| ==> Clean(s[i].val)
    ensures SortKept(Dict(es), Dict(s))
  {
    hide Mean, WellFormed, Encodable, Clean, Listed, Has, UniqueKeys;
    WellFormedDict(s);
    EncodableKept(es, s);
    ListedKept(es, s);
    CleanKept(es, s);
  }

  lemma WellFormedDict(s: seq<Entry<Value>>)
    requires UniqueKeys(s) && forall i :: 0 <= i < |s| ==> WellFormed(s[i].val)
    ensures WellFormed(Dict(s))
  {
  }

  lemma EncodableKept(es: seq<Entry<Value>>, s: seq<Entry<Value>>)
    requires Encodable(Dict(es)) ==> forall i :: 0 <= i < |s| ==> Encodable(s[i].val)
    ensures Encodable(Dict(es)) ==> Encodable(Dict(s))
  {
  }

  lemma ListedKept(es: seq<Entry<Value>>, s: seq<Entry<Value>>)
    requires Listed(Dict(es)) ==> forall i :: 0 <= i < |s| ==> Listed(s[i].val)
    ensures Listed(Dict(es)) ==> Listed(Dict(s))
  {
  }

  lemma CleanKept(es: seq<Entry<Value>>, s: seq<Entry<Value>>)
    requires Has(es, TYPE_KEY) <==> Has(s, TYPE_KEY)
    requires Clean(Dict(es)) ==> forall i :: 0 <= i < |s| ==> Clean(s[i].val)
    ensures Clean(Dict(es)) ==> Clean(Dict(s))
  {
  }

  /** The entry of the unsorted dict an entry of the sorted one came from. */
  lemma SortedFrom(es: seq<Entry<Value>>, i: nat) returns (j: nat)
    requires UniqueKeys(es) && i < |Sort(SortedVals(es))|
    ensures j < |es| && Sort(SortedVals(es))[i] == Entry(es[j].key, SortDicts(es[j].val))
  {
    var s := Sort(SortedVals(es));
    AtIndex(s, i);
    SortedDict(es, s[i].key);
    j := IndexOfKey(es, s[i].key);
  }

  /** Key by key, what the entries of a dict denote. */
  lemma MeanAt(es: seq<Entry<Value>>, k: string)
    requires UniqueKeys(es)
    ensures k in AsMap(MeanEntries(es)) <==> k in AsMap(es)
    ensures k in AsMap(es) ==> AsMap(MeanEntries(es))[k] == Mean(AsMap(es)[k])
  {
    SameKeysMap(es, MeanEntries(es));
    if k in AsMap(es) {
      var i := SharedIndex(es, MeanEntries(es), k);
    }
  }

  lemma MeanOfSortedAt(es: seq<Entry<Value>>, k: string)
    requires UniqueKeys(es) && forall i :: 0 <= i < |es| ==> SortKept(es[i].val, SortDicts(es[i].val))
    ensures var a, b := AsMap(MeanEntries(Sort(SortedVals(es)))), AsMap(MeanEntries(es));
      (k in a <==> k in b) && (k in b ==> a[k] == b[k])
  {
    SortedDict(es, k);
    MeanAt(es, k);
    MeanAt(Sort(SortedVals(es)), k);
    if k in AsMap(es) {
      var i := IndexOfKey(es, k);
    }
  }

  lemma MeanOfSorted(es: seq<Entry<Value>>)
    requires UniqueKeys(es) && forall i :: 0 <= i < |es| ==> SortKept(es[i].val, SortDicts(es[i].val))
    ensures Mean(Dict(Sort(SortedVals(es)))) == Mean(Dict(es))
  {
    var a, b := AsMap(MeanEntries(Sort(SortedVals(es)))), AsMap(MeanEntries(es));
    forall k ensures (k in a <==> k in b) && (k in b ==> a[k] == b[k]) {
      MeanOfSortedAt(es, k);
    }
    MapsAgree(a, b);
    SameFieldsMean(Sort(SortedVals(es)), es);
  }

  lemma SameFieldsMean(es: seq<Entry<Value>>, fs: seq<Entry<Value>>)
    requires AsMap(MeanEntries(es)) == AsMap(MeanEntries(fs))
    ensures Mean(Dict(es)) == Mean(Dict(fs))
  {
  }

  lemma MapsAgree<T>(a: map<string, T>, b: map<string, T>)
    requires forall k :: (k in a <==> k in b) && (k in b ==> a[k] == b[k])
    ensures a == b
  {
  }

  // ---------- Encoded trees have JSON text ----------

  ghost predicate HasText(j: Json) {
    KeyedOnce(j) && Printable(SortKeys(j))
  }

  lemma AtomHasText(v: Value)
    requires Encodable(v) && !v.Set? && !v.Dict? && !v.List? && !v.Tuple? && !v.Scalar?
    ensures HasText(Enc(v))
  {
  }

  lemma ScalarHasText(k: Kind, c: int)
    requires Encodable(Scalar(k, c))
    ensures HasText(Enc(Scalar(k, c)))
  {
    ScalarRoundTrip(k, c);
    TaggedLookup(TagOf(k), JStr(Py.text(k, c)));
  }

  lemma ArrayHasText(js: seq<Json>)
    requires forall i :: 0 <= i < |js| ==> HasText(js[i])
    ensures HasText(JArr(js))
  {
  }

  lemma {:induction false} EncIsPrintable(v: Value)
    requires WellFormed(v) && Encodable(v)
    ensures HasText(Enc(v))
  {
    hide HasText, UniqueKeys, AsMap;
    match v
    case Scalar(k, c) => ScalarHasText(k, c);
    case Set(ms) => SetIsPrintable(ms);
    case Dict(es) =>
      forall i | 0 <= i < |es| ensures HasText(Enc(es[i].val)) {
        EncIsPrintable(es[i].val);
      }
      SameKeysMap(es, EncFields(es));
      ObjectIsPrintable(EncFields(es));
    case List(items) =>
      forall i | 0 <= i < |items| ensures HasText(Enc(items[i])) {
        EncIsPrintable(items[i]);
      }
      ArrayHasText(Enc(v).items);
    case Tuple(items) =>
      forall i | 0 <= i < |items| ensures HasText(Enc(items[i])) {
        EncIsPrintable(items[i]);
      }
      ArrayHasText(Enc(v).items);
    case _ => AtomHasText(v);
  }

  lemma SortKeysIs(fs: seq<Entry<Json>>)
    ensures SortKeys(JObj(fs)) == JObj(Sort(SortedFields(fs)))
  {
  }

  lemma SortedFieldIsPrintable(fs: seq<Entry<Json>>, i: nat)
    requires UniqueKeys(fs) && forall i :: 0 <= i < |fs| ==> HasText(fs[i].val)
    requires i < |Sort(SortedFields(fs))|
    ensures Printable(Sort(SortedFields(fs))[i].val)
  {
    var s := Sort(SortedFields(fs));
    SortedObject(fs, "");
    AtIndex(s, i);
    SortedObject(fs, s[i].key);
    var j := IndexOfKey(fs, s[i].key);
    assert HasText(fs[j].val);
  }

  lemma ObjectIsPrintable(fs: seq<Entry<Json>>)
    requires UniqueKeys(fs) && forall i :: 0 <= i < |fs| ==> HasText(fs[i].val)
    ensures HasText(JObj(fs))
  {
    hide Sort, SortedFields, SortKeys, AsMap;
    SortedObject(fs, "");
    SortKeysIs(fs);
    var s := Sort(SortedFields(fs));
    forall i | 0 <= i < |s| ensures Printable(s[i].val) {
      SortedFieldIsPrintable(fs, i);
    }
  }

  lemma {:induction false} MemberKeyedOnce(m: Value)
    requires Hashable(m) && Encodable(m)
    ensures KeyedOnce(Enc(m))
  {
    match m
    case Scalar(k, c) => TaggedLookup(TagOf(k), JStr(Py.text(k, c)));
    case Tuple(items) =>
      forall i | 0 <= i < |items| ensures KeyedOnce(Enc(items[i])) {
        MemberKeyedOnce(items[i]);
      }
    case _ =>
  }

  lemma SortedMembersPrintable(ms: seq<Value>)
    requires Members(ms)
    ensures var a := JArr(SortItems(EncAll(ms))); SortKeys(a) == a && Printable(a) && KeyedOnce(a)
  {
    var js := SortItems(EncAll(ms));
    MembersHaveUniqueTexts(ms);
    SortKeeps(Keyed(EncAll(ms)));
    forall i | 0 <= i < |js| ensures SortKeys(js[i]) == js[i] && Printable(js[i]) && KeyedOnce(js[i]) {
      var j := SortedMembers(ms, i);
      MemberRoundTrip(ms[j]);
      MemberKeyedOnce(ms[j]);
    }
    assert SortKeys(JArr(js)).items == js;
  }

  lemma SetIsPrintable(ms: seq<Value>)
    requires Members(ms)
    ensures HasText(Enc(Set(ms)))
    ensures SortKeys(Enc(Set(ms))) == Enc(Set(ms))
  {
    var a := JArr(SortItems(EncAll(ms)));
    SortedMembersPrintable(ms);
    TaggedIsSorted("set", a);
    TaggedPrintable("set", a);
    TaggedKeyedOnce("set", a);
    assert Enc(Set(ms)) == Tagged("set", a);
  }

  lemma TaggedKeyedOnce(tag: string, payload: Json)
    requires KeyedOnce(payload)
    ensures KeyedOnce(Tagged(tag, payload))
  {
    TaggedLookup(tag, payload);
  }

  // ---------- Through the text ----------

  /**
    In every style of printing, the text of a value parses and decodes to what
    the value denotes, without tuples outside sets.
   */
  lemma TextRoundTrip(st: Style, v: Value)
    requires WellFormed(v) && Clean(v) && Encodable(v)
    ensures Loads(Dumps(st, Enc(v)) + "\n") == Some(SortKeys(Enc(v)))
    ensures Decode(SortKeys(Enc(v))).Some?
    ensures var w := Decode(SortKeys(Enc(v))).value;
      Mean(w) == Mean(v) && Listed(w) && Clean(w) && WellFormed(w) && Encodable(w)
  {
    EncIsPrintable(v);
    LoadsDumps(st, Enc(v));
    RoundTrip(v);
    NormalisedKeeps(v, Decode(Enc(v)).value);
    DecodeSorted(Enc(v));
    SortDictsKeeps(Decode(Enc(v)).value);
  }

  // ---------- One meaning, one canonical text ----------

  lemma SameMembersSort(ms: seq<Value>, ns: seq<Value>)
    requires Members(ms) && Members(ns) && forall m :: m in ms <==> m in ns
    ensures SortItems(EncAll(ms)) == SortItems(EncAll(ns))
  {
    hide AsMap, Sort, Keyed, Enc, PyEq;
    MembersHaveUniqueTexts(ms);
    MembersHaveUniqueTexts(ns);
    var a, b := Keyed(EncAll(ms)), Keyed(EncAll(ns));
    forall k
      ensures k in AsMap(a) <==> k in AsMap(b)
      ensures k in AsMap(a) ==> AsMap(a)[k] == AsMap(b)[k]
    {
      if k in AsMap(a) {
        KeyedIn(ms, ns, k);
      }
      if k in AsMap(b) {
        KeyedIn(ns, ms, k);
      }
    }
    assert AsMap(a) == AsMap(b);
    SortForgetsOrder(a, b);
  }

  lemma KeyedIn(ms: seq<Value>, ns: seq<Value>, k: string)
    requires Members(ms) && Members(ns) && (forall m :: m in ms ==> m in ns)
    requires UniqueKeys(Keyed(EncAll(ns))) && k in AsMap(Keyed(EncAll(ms)))
    ensures k in AsMap(Keyed(EncAll(ns))) && AsMap(Keyed(EncAll(ns)))[k] == AsMap(Keyed(EncAll(ms)))[k]
  {
    var i := IndexOfKey(Keyed(EncAll(ms)), k);
    assert ms[i] in ns;
    var j :| 0 <= j < |ns| && ns[j] == ms[i];
    AtIndex(Keyed(EncAll(ns)), j);
  }

  lemma SameBag(ms: seq<Value>, ns: seq<Value>)
    requires Members(ms) && Members(ns) && Mean(Set(ms)) == Mean(Set(ns))
    ensures forall m :: m in ms <==> m in ns
  {
    forall m | m in ms ensures m in ns {
      MemberOfBag(ms, ns, m);
    }
    forall m | m in ns ensures m in ms {
      MemberOfBag(ns, ms, m);
    }
  }

  lemma MemberOfBag(ms: seq<Value>, ns: seq<Value>, m: Value)
    requires Members(ms) && Members(ns) && Mean(Set(ms)) == Mean(Set(ns)) && m in ms
    ensures m in ns
  {
    assert Mean(m) in Mean(Set(ns)).members;
    var j :| 0 <= j < |ns| && Mean(ns[j]) == Mean(m);
    MeanOfHashable(ns[j], m);
  }

  /** Values that denote the same thing have the same key-sorted encoding. */
  lemma {:induction false} SameMeaningSameTree(v: Value, w: Value)
    requires WellFormed(v) && Encodable(v) && WellFormed(w) && Encodable(w)
    requires Mean(v) == Mean(w)
    ensures SortKeys(Enc(v)) == SortKeys(Enc(w))
    decreases v, 1
  {
    match v
    case Set(ms) =>
      SameBag(ms, w.members);
      SameMembersSort(ms, w.members);
    case Dict(es) =>
      forall i, j | 0 <= i < |es| && 0 <= j < |w.entries| && Mean(es[i].val) == Mean(w.entries[j].val)
        ensures SortKeys(Enc(es[i].val)) == SortKeys(Enc(w.entries[j].val))
      {
        SameMeaningSameTree(es[i].val, w.entries[j].val);
      }
      SameMapping(es, w.entries);
    case List(items) => SameItems(items, w.items);
    case Tuple(items) => SameItems(items, w.items);
    case _ =>
  }

  lemma {:induction false} SameItems(xs: seq<Value>, ys: seq<Value>)
    requires Mean(List(xs)) == Mean(List(ys))
    requires forall i :: 0 <= i < |xs| ==> WellFormed(xs[i]) && Encodable(xs[i])
    requires forall i :: 0 <= i < |ys| ==> WellFormed(ys[i]) && Encodable(ys[i])
    ensures SortKeys(JArr(EncAll(xs))) == SortKeys(JArr(EncAll(ys)))
    decreases xs, 0
  {
    assert Mean(List(xs)).items == Mean(List(ys)).items;
    forall i | 0 <= i < |xs| ensures SortKeys(Enc(xs[i])) == SortKeys(Enc(ys[i])) {
      assert Mean(List(xs)).items[i] == Mean(List(ys)).items[i];
      SameMeaningSameTree(xs[i], ys[i]);
    }
    assert SortKeys(JArr(EncAll(xs))).items == SortKeys(JArr(EncAll(ys))).items;
  }

  lemma EncodedKeys(es: seq<Entry<Value>>, k: string)
    requires UniqueKeys(es) && forall i :: 0 <= i < |es| ==> Encodable(es[i].val)
    ensures UniqueKeys(EncFields(es)) && (k in AsMap(EncFields(es)) <==> k in AsMap(es))
  {
    EncSameKeys(es);
    SameKeysAt(es, EncFields(es), k);
  }

  lemma EncSameKeys(es: seq<Entry<Value>>)
    requires forall i :: 0 <= i < |es| ==> Encodable(es[i].val)
    ensures SameKeys(es, EncFields(es))
  {
  }

  lemma SameKeysAt<S, T>(a: seq<Entry<S>>, b: seq<Entry<T>>, k: string)
    requires SameKeys(a, b) && UniqueKeys(a)
    ensures UniqueKeys(b) && (k in AsMap(b) <==> k in AsMap(a))
  {
    SameKeysMap(a, b);
  }

  lemma EncodedAt(es: seq<Entry<Value>>, k: string) returns (i: nat)
    requires UniqueKeys(es) && (forall i :: 0 <= i < |es| ==> Encodable(es[i].val)) && k in AsMap(es)
    ensures i < |es| && es[i].key == k && es[i].val == AsMap(es)[k]
    ensures k in AsMap(EncFields(es)) && AsMap(EncFields(es))[k] == Enc(es[i].val)
  {
    i := SharedIndex(es, EncFields(es), k);
  }

  /** Fields that denote the same have the same sorted trees. */
  ghost predicate SameTrees(es: seq<Entry<Value>>, fs: seq<Entry<Value>>) {
    && UniqueKeys(es) && (forall i :: 0 <= i < |es| ==> Encodable(es[i].val))
    && UniqueKeys(fs) && (forall i :: 0 <= i < |fs| ==> Encodable(fs[i].val))
    && forall i, j :: 0 <= i < |es| && 0 <= j < |fs| && Mean(es[i].val) == Mean(fs[j].val) ==>
      SortKeys(Enc(es[i].val)) == SortKeys(Enc(fs[j].val))
  }

  /** The sorted fields of two objects agree at one key. */
  ghost predicate AgreeAt(a: seq<Entry<Json>>, b: seq<Entry<Json>>, k: string) {
    (k in AsMap(a) <==> k in AsMap(b)) && (k in AsMap(a) ==> AsMap(a)[k] == AsMap(b)[k])
  }

  lemma SameField(es: seq<Entry<Value>>, fs: seq<Entry<Value>>, k: string)
    requires SameTrees(es, fs) && Mean(Dict(es)) == Mean(Dict(fs))
    ensures AgreeAt(Sort(SortedFields(EncFields(es))), Sort(SortedFields(EncFields(fs))), k)
  {
    EncodedKeys(es, k);
    EncodedKeys(fs, k);
    SortedObject(EncFields(es), k);
    SortedObject(EncFields(fs), k);
    MeanAt(es, k);
    MeanAt(fs, k);
    if k in AsMap(es) {
      var i := EncodedAt(es, k);
      var j := EncodedAt(fs, k);
      assert Mean(es[i].val) == Mean(fs[j].val);
    }
  }

  lemma SortedAgreeAt(a: seq<Entry<Json>>, b: seq<Entry<Json>>)
    requires Sorted(a) && UniqueKeys(a) && Sorted(b) && UniqueKeys(b) && forall k :: AgreeAt(a, b, k)
    ensures a == b
  {
    forall k ensures (k in AsMap(a) <==> k in AsMap(b)) && (k in AsMap(a) ==> AsMap(a)[k] == AsMap(b)[k]) {
      assert AgreeAt(a, b, k);
    }
    SortedAgree(a, b);
  }

  lemma SortedEncoded(es: seq<Entry<Value>>, fs: seq<Entry<Value>>)
    requires SameTrees(es, fs)
    ensures var a, b := Sort(SortedFields(EncFields(es))), Sort(SortedFields(EncFields(fs)));
      Sorted(a) && UniqueKeys(a) && Sorted(b) && UniqueKeys(b)
  {
    EncodedKeys(es, "");
    EncodedKeys(fs, "");
    SortedObject(EncFields(es), "");
    SortedObject(EncFields(fs), "");
  }

  lemma SameMapping(es: seq<Entry<Value>>, fs: seq<Entry<Value>>)
    requires SameTrees(es, fs) && Mean(Dict(es)) == Mean(Dict(fs))
    ensures SortKeys(JObj(EncFields(es))) == SortKeys(JObj(EncFields(fs)))
  {
    var a, b := Sort(SortedFields(EncFields(es))), Sort(SortedFields(EncFields(fs)));
    SortedEncoded(es, fs);
    assert SortKeys(JObj(EncFields(es))) == JObj(a) && SortKeys(JObj(EncFields(fs))) == JObj(b);
    hide SortKeys, SameTrees, EncFields, Mean, AgreeAt, Sort, SortedFields, AsMap, Enc, Encodable, UniqueKeys, Sorted;
    forall k ensures AgreeAt(a, b, k) {
      SameField(es, fs, k);
    }
    SortedAgreeAt(a, b);
  }

  /** The text that is hashed. */
  function CanonicalDump(v: Value): string
    requires Encodable(v)
  {
    Dumps(CANONICAL, Enc(v)) + "\n"
  }

  /** It reads back as the sorted tree and ends its line. */
  lemma CanonicalTextIsALine(v: Value)
    requires WellFormed(v) && Encodable(v)
    ensures var t := CanonicalDump(v); t != "" && t[|t| - 1] == '\n' && Loads(t) == Some(SortKeys(Enc(v)))
  {
    hide Loads, Dumps, SortKeys, Enc;
    EncIsPrintable(v);
    LoadsDumps(CANONICAL, Enc(v));
  }

  /**
    Two storable values have the same canonical text exactly when they denote
    the same thing: the text does not depend on dict order or set order, and
    nothing else is lost in it but the difference between a list and a tuple.
   */
  lemma CanonicalDumpIsMeaning(v: Value, w: Value)
    requires WellFormed(v) && Clean(v) && Encodable(v)
    requires WellFormed(w) && Clean(w) && Encodable(w)
    ensures CanonicalDump(v) == CanonicalDump(w) <==> Mean(v) == Mean(w)
  {
    hide Mean, WellFormed, Clean, Encodable, Enc, SortKeys, Decode, Loads;
    if Mean(v) == Mean(w) {
      SameMeaningSameTree(v, w);
    }
    if CanonicalDump(v) == CanonicalDump(w) {
      TextRoundTrip(CANONICAL, v);
      TextRoundTrip(CANONICAL, w);
    }
  }

  // ---------- Encoding again ----------

  lemma SameSetEncodes(ms: seq<Value>, ns: seq<Value>)
    requires Members(ms) && Distinct(ns) && forall m :: m in ms <==> m in ns
    ensures Members(ns) && Enc(Set(ns)) == Enc(Set(ms))
  {
    forall i | 0 <= i < |ns| ensures Hashable(ns[i]) && Encodable(ns[i]) {
      assert ns[i] in ms;
    }
    SameMembersSort(ms, ns);
    assert Enc(Set(ns)) == Tagged("set", JArr(SortItems(EncAll(ns))));
    assert Enc(Set(ms)) == Tagged("set", JArr(SortItems(EncAll(ms))));
  }

  lemma {:induction false} NormalisedEncodesSame(v: Value, w: Value)
    requires WellFormed(v) && Encodable(v) && Normalised(v, w)
    ensures Encodable(w) && Enc(w) == Enc(v)
  {
    match v
    case Set(ms) => SameSetEncodes(ms, w.members);
    case Dict(es) =>
      forall i | 0 <= i < |es| ensures Encodable(w.entries[i].val) && Enc(w.entries[i].val) == Enc(es[i].val) {
        NormalisedEncodesSame(es[i].val, w.entries[i].val);
      }
      assert EncFields(w.entries) == EncFields(es);
      assert Enc(w) == JObj(EncFields(w.entries)) && Enc(v) == JObj(EncFields(es));
    case List(items) =>
      forall i | 0 <= i < |items| ensures Encodable(w.items[i]) && Enc(w.items[i]) == Enc(items[i]) {
        NormalisedEncodesSame(items[i], w.items[i]);
      }
    case Tuple(items) =>
      forall i | 0 <= i < |items| ensures Encodable(w.items[i]) && Enc(w.items[i]) == Enc(items[i]) {
        NormalisedEncodesSame(items[i], w.items[i]);
      }
    case _ =>
  }

  /** `encode(decode(encode(v)))` is `encode(v)`: decoding normalises once and for all, and no encoding can tell. */
  lemma EncodeIsStable(v: Value)
    requires WellFormed(v) && Clean(v) && Encodable(v)
    ensures var w := Decode(Enc(v));
      w.Some? && Encodable(w.value) && Enc(w.value) == Enc(v) && Decode(Enc(w.value)) == w
  {
    RoundTrip(v);
    NormalisedEncodesSame(v, Decode(Enc(v)).value);
  }

  // ---------- What decoding can produce ----------

  /** No non-finite float or Decimal inside. */
  predicate FiniteNumbers(v: Value) {
    match v
    case Float(f) => Py.isFinite(f)
    case Scalar(k, c) => k == Decimal ==> Py.storable(k, c)
    case Set(ms) => forall i :: 0 <= i < |ms| ==> FiniteNumbers(ms[i])
    case Dict(es) => forall i :: 0 <= i < |es| ==> FiniteNumbers(es[i].val)
    case List(items) => forall i :: 0 <= i < |items| ==> FiniteNumbers(items[i])
    case Tuple(items) => forall i :: 0 <= i < |items| ==> FiniteNumbers(items[i])
    case _ => true
  }

  /** Every decoded value could have been built by a caller, and encodes exactly when its numbers are finite. */
  ghost predicate Decoded(v: Value) {
    WellFormed(v) && Clean(v) && Listed(v) && (Encodable(v) <==> FiniteNumbers(v))
  }

  lemma {:induction false} CoercesClean(v: Value)
    requires Clean(v) && Coerce(v).Some?
    ensures Hashable(Coerce(v).value) && Clean(Coerce(v).value)
  {
    if v.List? {
      CoercesEach(v.items);
      forall i | 0 <= i < |v.items|
        ensures Hashable(CoerceAll(v.items).value[i]) && Clean(CoerceAll(v.items).value[i])
      {
        CoercesClean(v.items[i]);
      }
    }
  }

  lemma {:induction false} CoercesFinite(v: Value)
    requires Coerce(v).Some?
    ensures Encodable(Coerce(v).value) == Encodable(v) && FiniteNumbers(Coerce(v).value) == FiniteNumbers(v)
  {
    if v.List? {
      CoercesEach(v.items);
      forall i | 0 <= i < |v.items|
        ensures Encodable(CoerceAll(v.items).value[i]) == Encodable(v.items[i])
        ensures FiniteNumbers(CoerceAll(v.items).value[i]) == FiniteNumbers(v.items[i])
      {
        CoercesFinite(v.items[i]);
      }
    }
  }

  /** No tag other than "set" yields more than a scalar, and only a Decimal can fail to encode. */
  lemma ScalarDecoded(tag: string, raw: Json)
    requires tag != "set" && DecodeTagged(tag, raw).Some?
    ensures Decoded(DecodeTagged(tag, raw).value)
  {
    var v := DecodeTagged(tag, raw).value;
    assert v.Scalar? && raw.JStr?;
  }

  lemma SetDecoded(items: seq<Json>)
    requires DecodeTagged("set", JArr(items)).Some?
    requires forall i :: 0 <= i < |items| && Decode(items[i]).Some? ==> Decoded(Decode(items[i]).value)
    ensures Decoded(DecodeTagged("set", JArr(items)).value)
  {
    DecodesEach(items);
    var vs := DecodeAll(items).value;
    CoercesEach(vs);
    var ms := CoerceAll(vs).value;
    forall i | 0 <= i < |ms| ensures Hashable(ms[i]) && Clean(ms[i]) && Encodable(ms[i]) == FiniteNumbers(ms[i]) {
      assert Decoded(vs[i]);
      CoercesClean(vs[i]);
      CoercesFinite(vs[i]);
    }
    DedupIsDistinct(ms);
  }

  lemma FieldsDecoded(fs: seq<Entry<Json>>)
    requires UniqueKeys(fs) && !Has(fs, TYPE_KEY) && DecodeFields(fs).Some?
    requires forall i :: 0 <= i < |fs| && Decode(fs[i].val).Some? ==> Decoded(Decode(fs[i].val).value)
    ensures Decoded(Dict(DecodeFields(fs).value))
  {
    var ws := DecodeFields(fs).value;
    forall i | 0 <= i < |ws| ensures Decoded(ws[i].val) {
      DecodesEachField(fs);
    }
    assert UniqueKeys(ws) && !Has(ws, TYPE_KEY) by {
      FieldsDecodeAt(fs, TYPE_KEY);
      HasIsKey(fs, TYPE_KEY);
      HasIsKey(ws, TYPE_KEY);
    }
    EntriesDecoded(ws);
  }

  lemma EntriesDecoded(ws: seq<Entry<Value>>)
    requires UniqueKeys(ws) && !Has(ws, TYPE_KEY) && forall i :: 0 <= i < |ws| ==> Decoded(ws[i].val)
    ensures Decoded(Dict(ws))
  {
    EntriesShaped(ws);
    EncodableEntries(ws);
  }

  lemma EntriesShaped(ws: seq<Entry<Value>>)
    requires UniqueKeys(ws) && !Has(ws, TYPE_KEY)
    requires forall i :: 0 <= i < |ws| ==> WellFormed(ws[i].val)
    requires forall i :: 0 <= i < |ws| ==> Clean(ws[i].val)
    requires forall i :: 0 <= i < |ws| ==> Listed(ws[i].val)
    ensures WellFormed(Dict(ws)) && Clean(Dict(ws)) && Listed(Dict(ws))
  {
  }

  lemma EncodableEntries(ws: seq<Entry<Value>>)
    requires forall i :: 0 <= i < |ws| ==> Encodable(ws[i].val) == FiniteNumbers(ws[i].val)
    ensures Encodable(Dict(ws)) == FiniteNumbers(Dict(ws))
  {
  }

  /**
    Whatever a file holds, the decoder never lets the envelope key, a bad set
    member or a tuple outside a set through; only a non-finite number can make
    the result impossible to store again.
   */
  lemma {:induction false} DecodeImage(j: Json)
    requires KeyedOnce(j) && Decode(j).Some?
    ensures Decoded(Decode(j).value)
  {
    match j
    case JArr(items) =>
      DecodesEach(items);
      forall i | 0 <= i < |items| ensures Decoded(DecodeAll(items).value[i]) {
        DecodeImage(items[i]);
      }
    case JObj(fs) =>
      if Has(fs, TYPE_KEY) {
        EnvelopeDecodes(fs);
        var tag, raw := Get(fs, TYPE_KEY).s, Inside(fs, "value");
        if tag == "set" {
          var f :| 0 <= f < |fs| && fs[f].val == raw;
          forall i | 0 <= i < |raw.items| && Decode(raw.items[i]).Some? ensures Decoded(Decode(raw.items[i]).value) {
            assert KeyedOnce(fs[f].val);
            DecodeImage(raw.items[i]);
          }
          SetDecoded(raw.items);
        } else {
          ScalarDecoded(tag, raw);
        }
      } else {
        forall i | 0 <= i < |fs| && Decode(fs[i].val).Some? ensures Decoded(Decode(fs[i].val).value) {
          DecodeImage(fs[i].val);
        }
        DecodesEachField(fs);
        FieldsDecoded(fs);
      }
    case _ =>
  }

  // ---------- Everything parsed has unique keys ----------

  lemma {:induction false} PutKeepsKeyedOnce(es: seq<Entry<Json>>, other: seq<Entry<Json>>)
    requires KeyedOnce(JObj(es)) && forall i :: 0 <= i < |other| ==> KeyedOnce(other[i].val)
    ensures KeyedOnce(JObj(PutAll(es, other)))
    decreases |other|
  {
    if other != [] {
      PutIsUpdate(es, other[0].key, other[0].val);
      PutFrom(es, other[0].key, other[0].val);
      PutKeepsKeyedOnce(Put(es, other[0].key, other[0].val), other[1..]);
    }
  }

  lemma {:induction false} PutFrom<T>(es: seq<Entry<T>>, k: string, v: T)
    ensures forall i :: 0 <= i < |Put(es, k, v)| ==> Put(es, k, v)[i] == Entry(k, v) || Put(es, k, v)[i] in es
  {
    if es != [] {
      PutFrom(es[1..], k, v);
    }
  }

  lemma ParsedNumber(s: string)
    requires ParseNumber(s).Some?
    ensures var j := ParseNumber(s).value.0; j.JInt? || j.JFloat?
  {
  }

  lemma ParsedScalar(s: string)
    requires s != "" && ParseScalar(s).Some?
    ensures KeyedOnce(ParseScalar(s).value.0)
  {
    hide ParseNumber;
    if ParseNumber(s).Some? {
      ParsedNumber(s);
    }
  }

  lemma {:induction false} ParsedValue(s: string)
    requires ParseValue(s).Some?
    ensures KeyedOnce(ParseValue(s).value.0)
    decreases |s|, 0
  {
    hide ParseItems, ParseFields, ParseScalar, ParseChars, PutAll;
    if s[0] == '\"' {
    } else if s[0] == '[' {
      var t := SkipSpace(s[1..]);
      if t != "" && t[0] != ']' {
        ParsedItems(t);
      }
    } else if s[0] == '{' {
      var t := SkipSpace(s[1..]);
      if t != "" && t[0] != '}' {
        ParsedFields(t);
        PutKeepsKeyedOnce([], ParseFields(t).value.0);
      }
    } else {
      ParsedScalar(s);
    }
  }

  lemma {:induction false} ParsedItems(s: string)
    requires ParseItems(s).Some?
    ensures forall i :: 0 <= i < |ParseItems(s).value.0| ==> KeyedOnce(ParseItems(s).value.0[i])
    decreases |s|, 1
  {
    ParsedValue(s);
    var u := SkipSpace(ParseValue(s).value.1);
    if u[0] == ',' {
      ParsedItems(SkipSpace(u[1..]));
    }
  }

  lemma {:induction false} ParsedFields(s: string)
    requires ParseFields(s).Some?
    ensures forall i :: 0 <= i < |ParseFields(s).value.0| ==> KeyedOnce(ParseFields(s).value.0[i].val)
    decreases |s|, 1
  {
    var u := SkipSpace(ParseChars(s[1..]).value.1);
    ParsedValue(SkipSpace(u[1..]));
    var w := SkipSpace(ParseValue(SkipSpace(u[1..])).value.1);
    if w[0] == ',' {
      ParsedFields(SkipSpace(w[1..]));
    }
  }

  lemma LoadsKeyedOnce(text: string)
    requires Loads(text).Some?
    ensures KeyedOnce(Loads(text).value)
  {
    ParsedValue(SkipSpace(text));
  }
}
