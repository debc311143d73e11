/** What a commit writes, `load` accepts; what `load` accepts can be committed again; edits do not go unnoticed. */
module StorageProofs {
  import opened Wrappers
  import opened Dicts
  import opened Host
  import opened Values
  import opened JsonText
  import opened Serializer
  import opened SerializerProofs
  import opened Canonical
  import opened CanonicalText
  import opened Errors
  import opened Storage

  // ---------- Reading a state through its meaning ----------

  ghost function At(m: Meaning, k: string): Meaning {
    if m.Mapping? && k in m.fields then m.fields[k] else Atom(Null)
  }

  lemma MeanGet(es: seq<Entry<Value>>, k: string)
    requires UniqueKeys(es)
    ensures Mean(GetOrNull(es, k)) == At(Mean(Dict(es)), k)
  {
    MeanAt(es, k);
    HasIsKey(es, k);
  }

  lemma GetWellFormed(es: seq<Entry<Value>>, k: string)
    requires forall i :: 0 <= i < |es| ==> WellFormed(es[i].val)
    ensures WellFormed(GetOrNull(es, k))
  {
    HasIsKey(es, k);
    if Has(es, k) {
      var i := IndexOfKey(es, k);
    }
  }

  lemma MeanPut(es: seq<Entry<Value>>, k: string, v: Value)
    requires UniqueKeys(es)
    ensures UniqueKeys(Put(es, k, v))
    ensures Mean(Dict(Put(es, k, v))) == Mapping(Mean(Dict(es)).fields[k := Mean(v)])
  {
    PutIsUpdate(es, k, v);
    var a, b := AsMap(MeanEntries(Put(es, k, v))), AsMap(MeanEntries(es))[k := Mean(v)];
    forall q ensures (q in a <==> q in b) && (q in b ==> a[q] == b[q]) {
      MeanAt(es, q);
      MeanAt(Put(es, k, v), q);
    }
    MapsAgree(a, b);
  }

  ghost predicate MetaMeans(meta: Meaning, requireChecksum: bool) {
    && meta.Mapping?
    && At(meta, "format") == Atom(Str(FORMAT))
    && At(meta, "version").Atom? && PyEq(At(meta, "version").v, Int(VERSION))
    && (requireChecksum ==> At(meta, "content_sha256").Atom? && At(meta, "content_sha256").v.Str?)
  }

  ghost predicate DocumentMeans(id: string, d: Meaning) {
    id != "" && d.Mapping? && At(d, "id") == Atom(Str(id))
  }

  ghost predicate CollectionMeans(name: string, c: Meaning) {
    ValidName(name) && c.Mapping? && forall id :: id in c.fields ==> DocumentMeans(id, c.fields[id])
  }

  ghost predicate CollectionsMean(cs: Meaning) {
    cs.Mapping? && forall name :: name in cs.fields ==> CollectionMeans(name, cs.fields[name])
  }

  /** The shape check, as a property of what the state denotes. */
  ghost predicate ShapeMeans(m: Meaning, requireChecksum: bool) {
    && m.Mapping?
    && MetaMeans(At(m, "meta"), requireChecksum)
    && CollectionsMean(At(m, "collections"))
  }

  lemma MetaByMeaning(meta: Value, requireChecksum: bool)
    requires WellFormed(meta)
    ensures GoodMeta(meta, requireChecksum) <==> MetaMeans(Mean(meta), requireChecksum)
  {
    if meta.Dict? {
      MeanGet(meta.entries, "format");
      MeanGet(meta.entries, "version");
      MeanGet(meta.entries, "content_sha256");
    }
  }

  lemma DocumentByMeaning(id: string, d: Value)
    requires WellFormed(d)
    ensures GoodDocument(id, d) <==> DocumentMeans(id, Mean(d))
  {
    if d.Dict? {
      MeanGet(d.entries, "id");
    }
  }

  /** Entry by entry against key by key. */
  lemma EntryMeans(es: seq<Entry<Value>>, i: nat)
    requires UniqueKeys(es) && i < |es|
    ensures es[i].key in AsMap(MeanEntries(es)) && AsMap(MeanEntries(es))[es[i].key] == Mean(es[i].val)
  {
    AtIndex(es, i);
    MeanAt(es, es[i].key);
  }

  lemma KeyMeans(es: seq<Entry<Value>>, k: string) returns (i: nat)
    requires UniqueKeys(es) && k in AsMap(MeanEntries(es))
    ensures i < |es| && es[i].key == k && AsMap(MeanEntries(es))[k] == Mean(es[i].val)
  {
    MeanAt(es, k);
    i := IndexOfKey(es, k);
  }

  lemma CollectionByMeaning(name: string, c: Value)
    requires WellFormed(c)
    ensures GoodCollection(name, c) <==> CollectionMeans(name, Mean(c))
  {
    if c.Dict? {
      var es := c.entries;
      if GoodCollection(name, c) {
        forall id | id in AsMap(MeanEntries(es)) ensures DocumentMeans(id, AsMap(MeanEntries(es))[id]) {
          var i := KeyMeans(es, id);
          DocumentByMeaning(id, es[i].val);
        }
      }
      if CollectionMeans(name, Mean(c)) {
        forall i | 0 <= i < |es| ensures GoodDocument(es[i].key, es[i].val) {
          EntryMeans(es, i);
          DocumentByMeaning(es[i].key, es[i].val);
        }
      }
    }
  }

  lemma CollectionsByMeaning(cs: Value)
    requires WellFormed(cs)
    ensures GoodCollections(cs) <==> CollectionsMean(Mean(cs))
  {
    if cs.Dict? {
      var es := cs.entries;
      if GoodCollections(cs) {
        forall name | name in AsMap(MeanEntries(es)) ensures CollectionMeans(name, AsMap(MeanEntries(es))[name]) {
          var i := KeyMeans(es, name);
          CollectionByMeaning(name, es[i].val);
        }
      }
      if CollectionsMean(Mean(cs)) {
        forall i | 0 <= i < |es| ensures GoodCollection(es[i].key, es[i].val) {
          EntryMeans(es, i);
          CollectionByMeaning(es[i].key, es[i].val);
        }
      }
    }
  }

  /** The shape check accepts a state exactly when what the state denotes has the shape. */
  lemma ShapeByMeaning(state: Value, requireChecksum: bool)
    requires WellFormed(state)
    ensures Shaped(state, requireChecksum) <==> ShapeMeans(Mean(state), requireChecksum)
  {
    if state.Dict? {
      var es := state.entries;
      GetWellFormed(es, "meta");
      GetWellFormed(es, "collections");
      MeanGet(es, "meta");
      MeanGet(es, "collections");
      MetaByMeaning(GetOrNull(es, "meta"), requireChecksum);
      CollectionsByMeaning(GetOrNull(es, "collections"));
    }
  }

  // ---------- The checksum field ----------

  ghost function SealMeaning(m: Meaning, checksum: Meaning): Meaning
    requires m.Mapping? && At(m, "meta").Mapping?
  {
    Mapping(m.fields["meta" := Mapping(At(m, "meta").fields["content_sha256" := checksum])])
  }

  lemma PutKeeps(es: seq<Entry<Value>>, k: string, v: Value)
    ensures (forall i :: 0 <= i < |es| ==> WellFormed(es[i].val)) && WellFormed(v) ==>
      forall i :: 0 <= i < |Put(es, k, v)| ==> WellFormed(Put(es, k, v)[i].val)
    ensures (forall i :: 0 <= i < |es| ==> Clean(es[i].val)) && Clean(v) ==>
      forall i :: 0 <= i < |Put(es, k, v)| ==> Clean(Put(es, k, v)[i].val)
    ensures (forall i :: 0 <= i < |es| ==> Encodable(es[i].val)) && Encodable(v) ==>
      forall i :: 0 <= i < |Put(es, k, v)| ==> Encodable(Put(es, k, v)[i].val)
  {
    PutFrom(es, k, v);
  }

  lemma DictPutKeeps(es: seq<Entry<Value>>, k: string, v: Value)
    requires WellFormed(Dict(es)) && WellFormed(v)
    ensures WellFormed(Dict(Put(es, k, v)))
    ensures Clean(Dict(es)) && Clean(v) && k != TYPE_KEY ==> Clean(Dict(Put(es, k, v)))
    ensures Encodable(Dict(es)) && Encodable(v) ==> Encodable(Dict(Put(es, k, v)))
    ensures Mean(Dict(Put(es, k, v))) == Mapping(Mean(Dict(es)).fields[k := Mean(v)])
  {
    MeanPut(es, k, v);
    PutKeeps(es, k, v);
    PutIsUpdate(es, k, v);
    HasIsKey(es, TYPE_KEY);
    HasIsKey(Put(es, k, v), TYPE_KEY);
  }

  lemma {:induction false} GetPutOther<T>(es: seq<Entry<T>>, k: string, v: T, q: string)
    requires q != k
    ensures Has(Put(es, k, v), q) == Has(es, q)
    ensures Has(es, q) ==> Get(Put(es, k, v), q) == Get(es, q)
  {
    if es != [] {
      GetPutOther(es[1..], k, v, q);
    }
  }

  lemma {:induction false} PutSame<T>(es: seq<Entry<T>>, k: string)
    requires Has(es, k)
    ensures Put(es, k, Get(es, k)) == es
  {
    if es[0].key != k {
      PutSame(es[1..], k);
    }
  }

  lemma {:induction false} PutTwice<T>(es: seq<Entry<T>>, k: string, v: T, w: T)
    ensures Put(Put(es, k, v), k, w) == Put(es, k, w)
  {
    if es != [] && es[0].key != k {
      PutTwice(es[1..], k, v, w);
    }
  }

  lemma GetEncodable(es: seq<Entry<Value>>, k: string)
    requires Encodable(Dict(es)) && Has(es, k)
    ensures Encodable(Get(es, k))
  {
    HasIsKey(es, k);
    var i := IndexOfKey(es, k);
  }

  /** Putting another checksum in keeps the state encodable. */
  lemma SealEncodable(state: Value, c: Value, d: Value)
    requires WellFormed(state) && state.Dict? && GetOrNull(state.entries, "meta").Dict?
    requires WellFormed(c) && WellFormed(d) && Encodable(d) && Encodable(WithChecksum(state, c))
    ensures Encodable(WithChecksum(state, d))
  {
    var es, meta := state.entries, GetOrNull(state.entries, "meta").entries;
    var a, b := Dict(Put(meta, "content_sha256", c)), Dict(Put(meta, "content_sha256", d));
    GetWellFormed(es, "meta");
    DictPutKeeps(meta, "content_sha256", c);
    DictPutKeeps(es, "meta", a);
    GetEncodable(Put(es, "meta", a), "meta");
    DictPutKeeps(a.entries, "content_sha256", d);
    PutTwice(meta, "content_sha256", c, d);
    DictPutKeeps(Put(es, "meta", a), "meta", b);
    PutTwice(es, "meta", a, b);
  }

  lemma SealedWithItsOwn(state: Value)
    requires state.Dict? && GetOrNull(state.entries, "meta").Dict?
    requires Has(GetOrNull(state.entries, "meta").entries, "content_sha256")
    ensures WithChecksum(state, Get(GetOrNull(state.entries, "meta").entries, "content_sha256")) == state
  {
    PutSame(GetOrNull(state.entries, "meta").entries, "content_sha256");
    PutSame(state.entries, "meta");
  }

  lemma SealMeans(state: Value, c: Value)
    requires WellFormed(state) && state.Dict? && GetOrNull(state.entries, "meta").Dict? && WellFormed(c)
    ensures At(Mean(state), "meta").Mapping?
    ensures WellFormed(WithChecksum(state, c))
    ensures Mean(WithChecksum(state, c)) == SealMeaning(Mean(state), Mean(c))
    ensures Clean(state) && Clean(c) ==> Clean(WithChecksum(state, c))
    ensures Encodable(state) && Encodable(c) ==> Encodable(WithChecksum(state, c))
  {
    var es := state.entries;
    var meta := GetOrNull(es, "meta");
    GetWellFormed(es, "meta");
    MeanGet(es, "meta");
    if Clean(state) {
      GetClean(es, "meta");
    }
    if Encodable(state) {
      GetEncodable(es, "meta");
    }
    DictPutKeeps(meta.entries, "content_sha256", c);
    DictPutKeeps(es, "meta", Dict(Put(meta.entries, "content_sha256", c)));
  }

  lemma GetClean(es: seq<Entry<Value>>, k: string)
    requires Clean(Dict(es)) && Has(es, k)
    ensures Clean(Get(es, k))
  {
    HasIsKey(es, k);
    var i := IndexOfKey(es, k);
  }

  // ---------- Preparing a commit ----------

  /** `setdefault` has nothing to do for the two fields the shape check demands. */
  lemma MetaIsStamped(meta: seq<Entry<Value>>, now: Value)
    requires GoodMeta(Dict(meta), false)
    ensures PreparedMeta(meta, now)
         == Put(Put(SetDefault(meta, "created_at", now), "updated_at", now), "content_sha256", Null)
  {
  }

  lemma StampedField(meta: seq<Entry<Value>>, now: Value, k: string)
    requires k == "format" || k == "version"
    ensures GetOrNull(Put(Put(SetDefault(meta, "created_at", now), "updated_at", now), "content_sha256", Null), k)
         == GetOrNull(meta, k)
  {
    var a := SetDefault(meta, "created_at", now);
    assert k[0] != 'c' && k[0] != 'u';
    GetPutOther(meta, "created_at", now, k);
    GetPutOther(a, "updated_at", now, k);
    GetPutOther(Put(a, "updated_at", now), "content_sha256", Null, k);
  }

  lemma StampedMeta(meta: Value, now: Value)
    requires WellFormed(meta) && GoodMeta(meta, false) && now.Scalar?
    ensures var m := Dict(PreparedMeta(meta.entries, now));
      && WellFormed(m) && GoodMeta(m, false)
      && (Clean(meta) ==> Clean(m)) && (Encodable(meta) && Encodable(now) ==> Encodable(m))
  {
    MetaIsStamped(meta.entries, now);
    var a := SetDefault(meta.entries, "created_at", now);
    DictPutKeeps(meta.entries, "created_at", now);
    DictPutKeeps(a, "updated_at", now);
    DictPutKeeps(Put(a, "updated_at", now), "content_sha256", Null);
    StampedField(meta.entries, now, "format");
    StampedField(meta.entries, now, "version");
  }

  lemma UnsealedKeeps(state: Value, now: Value)
    requires WellFormed(state) && Shaped(state, false) && now.Scalar?
    ensures var u := Unsealed(state, now);
      && WellFormed(u) && Shaped(u, false)
      && GetOrNull(u.entries, "collections") == GetOrNull(state.entries, "collections")
      && (Clean(state) ==> Clean(u)) && (Encodable(state) && Encodable(now) ==> Encodable(u))
  {
    var es := state.entries;
    var meta := GetOrNull(es, "meta");
    GetWellFormed(es, "meta");
    if Clean(state) {
      GetClean(es, "meta");
    }
    if Encodable(state) {
      GetEncodable(es, "meta");
    }
    StampedMeta(meta, now);
    DictPutKeeps(es, "meta", Dict(PreparedMeta(meta.entries, now)));
    assert "collections"[0] != "meta"[0];
    GetPutOther(es, "meta", Dict(PreparedMeta(meta.entries, now)), "collections");
  }

  /** A state with a checksum put in keeps its shape, and now has one. */
  lemma SealedShape(state: Value, sum: string)
    requires WellFormed(state) && Shaped(state, false)
    ensures Shaped(WithChecksum(state, Str(sum)), true)
    ensures GetOrNull(WithChecksum(state, Str(sum)).entries, "collections") == GetOrNull(state.entries, "collections")
    ensures StoredChecksum(WithChecksum(state, Str(sum))) == sum
  {
    var es := state.entries;
    var meta := GetOrNull(es, "meta").entries;
    var sealed := Dict(Put(meta, "content_sha256", Str(sum)));
    assert "collections"[0] != "meta"[0] && "format"[0] != 'c' && "version"[0] != 'c';
    GetPutOther(meta, "content_sha256", Str(sum), "format");
    GetPutOther(meta, "content_sha256", Str(sum), "version");
    GetPutOther(es, "meta", sealed, "collections");
  }

  /** The shape check on the prepared state never fails: a storable, well-shaped state can always be committed. */
  lemma CommitSucceeds(state: Value, now: Value)
    requires WellFormed(state) && Shaped(state, false) && Encodable(state)
    requires now.Scalar? && Encodable(now)
    ensures Commit(state, now).Ok?
  {
    UnsealedKeeps(state, now);
    hide WithChecksum, Unsealed, Shaped, WellFormed, Mean, Encodable, CanonicalDump, ShapeError;
    ShapeErrorIs(state, false);
    var u := Unsealed(state, now);
    SealMeans(u, Null);
    var sum := Checksum(u).value;
    SealMeans(u, Str(sum));
    SealedShape(u, sum);
    ShapeErrorIs(WithChecksum(u, Str(sum)), true);
  }

  /** What is sealed with the checksum of itself nulled carries its own checksum. */
  lemma SealedWithItsChecksum(u: Value, sum: string)
    requires WellFormed(u) && Shaped(u, false) && Checksum(u) == Ok(sum)
    ensures var p := WithChecksum(u, Str(sum));
      && WellFormed(p) && Shaped(p, true) && Encodable(p) && (Clean(u) ==> Clean(p))
      && GetOrNull(p.entries, "collections") == GetOrNull(u.entries, "collections")
      && Checksum(p) == Ok(StoredChecksum(p))
  {
    hide Mean, GoodCollections, CanonicalDump, Put;
    SealMeans(u, Str(sum));
    SealedShape(u, sum);
    SealMeans(u, Null);
    SealEncodable(u, Null, Str(sum));
    SealTwice(u, Str(sum), Null);
  }

  lemma PrepareIs(state: Value, now: Value)
    requires Prepare(state, now).Ok?
    ensures Shaped(state, false) && Checksum(Unsealed(state, now)).Ok?
    ensures Prepare(state, now).value == WithChecksum(Unsealed(state, now), Str(Checksum(Unsealed(state, now)).value))
  {
    hide ShapeError, Shaped, Checksum, WithChecksum, Unsealed;
    ShapeErrorIs(state, false);
  }

  /** What `_prepare_for_commit` returns, when it returns. */
  lemma PreparedFacts(state: Value, now: Value)
    requires WellFormed(state) && now.Scalar? && Prepare(state, now).Ok?
    ensures var p := Prepare(state, now).value;
      && WellFormed(p) && Shaped(p, true) && Encodable(p)
      && GetOrNull(p.entries, "collections") == GetOrNull(state.entries, "collections")
      && (Clean(state) ==> Clean(p))
      && Checksum(p) == Ok(StoredChecksum(p))
  {
    hide Prepare, Shaped, WellFormed, Encodable, Clean, Checksum, WithChecksum, Unsealed;
    PrepareIs(state, now);
    UnsealedKeeps(state, now);
    SealedWithItsChecksum(Unsealed(state, now), Checksum(Unsealed(state, now)).value);
  }

  ghost function MetaMap(state: Value): map<string, Value> {
    if state.Dict? && GetOrNull(state.entries, "meta").Dict? then AsMap(GetOrNull(state.entries, "meta").entries)
    else map[]
  }

  lemma SetDefaultIs(es: seq<Entry<Value>>, k: string, v: Value)
    requires UniqueKeys(es)
    ensures UniqueKeys(SetDefault(es, k, v))
    ensures AsMap(SetDefault(es, k, v)) == if k in AsMap(es) then AsMap(es) else AsMap(es)[k := v]
  {
    HasIsKey(es, k);
    PutIsUpdate(es, k, v);
  }

  lemma StampedMap(meta: seq<Entry<Value>>, now: Value, sum: Value)
    requires UniqueKeys(meta) && GoodMeta(Dict(meta), false)
    ensures var m := AsMap(meta);
      AsMap(Put(PreparedMeta(meta, now), "content_sha256", sum)) ==
        (if "created_at" in m then m else m["created_at" := now])["updated_at" := now]["content_sha256" := sum]
  {
    MetaIsStamped(meta, now);
    hide GoodMeta, PreparedMeta, Put, SetDefault, AsMap, UniqueKeys, Has;
    SetDefaultIs(meta, "created_at", now);
    var a := SetDefault(meta, "created_at", now);
    PutIsUpdate(a, "updated_at", now);
    PutIsUpdate(Put(a, "updated_at", now), "content_sha256", Null);
    PutIsUpdate(PreparedMeta(meta, now), "content_sha256", sum);
  }

  /**
    A prepared state differs from the one it was made of in the meta block
    only, and there in the time of the update, the checksum, and the time of
    creation if there was none.
   */
  lemma PreparedMetaIs(state: Value, now: Value)
    requires WellFormed(state) && now.Scalar? && Prepare(state, now).Ok?
    ensures var p := Prepare(state, now).value; var m := MetaMap(state);
      && p.Dict? && AsMap(p.entries) - {"meta"} == AsMap(state.entries) - {"meta"} && "meta" in AsMap(p.entries)
      && Shaped(p, true)
      && MetaMap(p) ==
        (if "created_at" in m then m else m["created_at" := now])
          ["updated_at" := now]["content_sha256" := Str(StoredChecksum(p))]
  {
    hide Prepare, Shaped, WellFormed, Encodable, Clean, Checksum, PreparedMeta;
    PrepareIs(state, now);
    PreparedFacts(state, now);
    ShapeParts(state);
    var es := state.entries;
    var meta := GetOrNull(es, "meta").entries;
    var u, sum := Unsealed(state, now), Checksum(Unsealed(state, now)).value;
    UnsealedKeeps(state, now);
    SealedShape(u, sum);
    StampedMap(meta, now, Str(sum));
    PutIsUpdate(es, "meta", Dict(PreparedMeta(meta, now)));
    PutIsUpdate(u.entries, "meta", GetOrNull(Prepare(state, now).value.entries, "meta"));
  }

  lemma ShapeParts(state: Value)
    requires WellFormed(state) && Shaped(state, false)
    ensures state.Dict? && UniqueKeys(state.entries) && GoodMeta(GetOrNull(state.entries, "meta"), false)
    ensures WellFormed(GetOrNull(state.entries, "meta")) && UniqueKeys(GetOrNull(state.entries, "meta").entries)
  {
    GetWellFormed(state.entries, "meta");
  }

  lemma SealTwice(state: Value, c: Value, d: Value)
    requires state.Dict? && GetOrNull(state.entries, "meta").Dict?
    ensures WithChecksum(WithChecksum(state, c), d) == WithChecksum(state, d)
  {
    var meta := GetOrNull(state.entries, "meta").entries;
    PutTwice(meta, "content_sha256", c, d);
    PutTwice(state.entries, "meta", Dict(Put(meta, "content_sha256", c)), Dict(Put(meta, "content_sha256", d)));
  }

  // ---------- Loading what was committed ----------

  /** The fields of the key-sorted encoding of a dict. */
  function SortedEnc(es: seq<Entry<Value>>): seq<Entry<Json>>
    requires Encodable(Dict(es))
  {
    Sort(SortedFields(EncFields(es)))
  }

  lemma SortedEncFields(es: seq<Entry<Value>>)
    requires Encodable(Dict(es))
    ensures SortKeys(Enc(Dict(es))) == JObj(SortedEnc(es))
  {
    assert Enc(Dict(es)) == JObj(EncFields(es));
  }

  lemma SortedEncFrom(es: seq<Entry<Value>>, i: nat) returns (j: nat)
    requires UniqueKeys(es) && Encodable(Dict(es)) && i < |SortedEnc(es)|
    ensures j < |es| && SortedEnc(es)[i] == Entry(es[j].key, SortKeys(Enc(es[j].val)))
  {
    var s := SortedEnc(es);
    EncodedKeys(es, s[i].key);
    SortedObject(EncFields(es), s[i].key);
    AtIndex(s, i);
    j := EncodedAt(es, s[i].key);
  }

  lemma SortedEncGet(es: seq<Entry<Value>>, k: string)
    requires UniqueKeys(es) && Encodable(Dict(es))
    ensures Has(SortedEnc(es), k) == Has(es, k)
    ensures Has(es, k) ==> Encodable(Get(es, k)) && Get(SortedEnc(es), k) == SortKeys(Enc(Get(es, k)))
  {
    EncodedKeys(es, k);
    SortedObject(EncFields(es), k);
    HasIsKey(es, k);
    HasIsKey(SortedEnc(es), k);
    if Has(es, k) {
      var i := EncodedAt(es, k);
    }
  }

  lemma SortedTagged(tag: string, payload: Json)
    ensures RawValue(SortKeys(Tagged(tag, payload)))
  {
    TaggedIsSorted(tag, payload);
    TaggedLookup(tag, SortKeys(payload));
  }

  /** Raw validation accepts the encoding of every value that holds no reserved key. */
  lemma {:induction false} EncodedIsRaw(v: Value)
    requires WellFormed(v) && Clean(v) && Encodable(v)
    ensures RawValue(SortKeys(Enc(v)))
  {
    match v
    case Scalar(k, c) => SortedTagged(TagOf(k), JStr(Py.text(k, c)));
    case Set(ms) => SortedTagged("set", JArr(SortItems(EncAll(ms))));
    case Dict(es) =>
      forall i | 0 <= i < |es| ensures RawValue(SortKeys(Enc(es[i].val))) {
        EncodedIsRaw(es[i].val);
      }
      DictIsRaw(es);
    case List(items) =>
      forall i | 0 <= i < |items| ensures RawValue(SortKeys(Enc(items[i]))) {
        EncodedIsRaw(items[i]);
      }
    case Tuple(items) =>
      forall i | 0 <= i < |items| ensures RawValue(SortKeys(Enc(items[i]))) {
        EncodedIsRaw(items[i]);
      }
    case _ =>
  }

  lemma DictIsRaw(es: seq<Entry<Value>>)
    requires UniqueKeys(es) && Encodable(Dict(es)) && !Has(es, TYPE_KEY)
    requires forall i :: 0 <= i < |es| ==> RawValue(SortKeys(Enc(es[i].val)))
    ensures RawValue(SortKeys(Enc(Dict(es))))
    ensures forall i :: 0 <= i < |SortedEnc(es)| ==> RawValue(SortedEnc(es)[i].val)
  {
    SortedEncFields(es);
    SortedEncGet(es, TYPE_KEY);
    forall i | 0 <= i < |SortedEnc(es)| ensures RawValue(SortedEnc(es)[i].val) {
      var j := SortedEncFrom(es, i);
    }
  }

  lemma DocumentIsRaw(id: string, d: Value)
    requires WellFormed(d) && Clean(d) && Encodable(d) && GoodDocument(id, d)
    ensures RawDocument(id, SortKeys(Enc(d)))
  {
    SortedEncFields(d.entries);
    SortedEncGet(d.entries, "id");
    SortedEncGet(d.entries, TYPE_KEY);
    forall i | 0 <= i < |d.entries| ensures RawValue(SortKeys(Enc(d.entries[i].val))) {
      EncodedIsRaw(d.entries[i].val);
    }
    DictIsRaw(d.entries);
  }

  lemma CollectionIsRaw(name: string, c: Value)
    requires WellFormed(c) && Clean(c) && Encodable(c) && GoodCollection(name, c)
    ensures RawCollection(name, SortKeys(Enc(c)))
  {
    SortedEncFields(c.entries);
    forall i | 0 <= i < |SortedEnc(c.entries)|
      ensures RawDocument(SortedEnc(c.entries)[i].key, SortedEnc(c.entries)[i].val)
    {
      var j := SortedEncFrom(c.entries, i);
      DocumentIsRaw(c.entries[j].key, c.entries[j].val);
    }
  }

  lemma StateIsRaw(state: Value)
    requires WellFormed(state) && Clean(state) && Encodable(state) && Shaped(state, true)
    ensures RawState(SortKeys(Enc(state)))
  {
    var es := state.entries;
    SortedEncFields(es);
    SortedEncGet(es, "collections");
    var cs := GetOrNull(es, "collections");
    GetWellFormed(es, "collections");
    GetClean(es, "collections");
    SortedEncFields(cs.entries);
    forall i | 0 <= i < |SortedEnc(cs.entries)|
      ensures RawCollection(SortedEnc(cs.entries)[i].key, SortedEnc(cs.entries)[i].val)
    {
      var j := SortedEncFrom(cs.entries, i);
      CollectionIsRaw(cs.entries[j].key, cs.entries[j].val);
    }
  }

  function FileText(state: Value): string
    requires Encodable(state)
  {
    Dumps(FILE, Enc(state)) + "\n"
  }

  /** The value that comes back passes the shape check and denotes what was written. */
  lemma TextIsAdmitted(p: Value)
    requires WellFormed(p) && Clean(p) && Encodable(p) && Shaped(p, true)
    ensures Admit(Text(FileText(p))).Ok?
    ensures var w := Admit(Text(FileText(p))).value;
      Mean(w) == Mean(p) && Listed(w) && Clean(w) && WellFormed(w) && Encodable(w)
  {
    hide Shaped, ShapeError, RawState, ShapeMeans, Mean, WellFormed, Clean, Encodable, Listed, Loads, Dumps, Decode,
      SortKeys, Enc;
    TextRoundTrip(FILE, p);
    StateIsRaw(p);
    ShapeByMeaning(p, true);
    ShapeByMeaning(Decode(SortKeys(Enc(p))).value, true);
    ShapeErrorIs(Decode(SortKeys(Enc(p))).value, true);
  }

  /** The checksum depends on what the state denotes outside the checksum field, and on nothing else. */
  lemma ChecksumByMeaning(p: Value, w: Value)
    requires WellFormed(p) && Clean(p) && Encodable(p) && Shaped(p, true)
    requires WellFormed(w) && Clean(w) && Encodable(w) && Shaped(w, true)
    requires Mean(p) == Mean(w)
    ensures Checksum(p).Ok? && Checksum(w) == Checksum(p) && StoredChecksum(w) == StoredChecksum(p)
  {
    SealMeans(p, Null);
    SealMeans(w, Null);
    CanonicalDumpIsMeaning(WithChecksum(p, Null), WithChecksum(w, Null));
    StoredByMeaning(p);
    StoredByMeaning(w);
  }

  lemma StoredByMeaning(p: Value)
    requires WellFormed(p) && Shaped(p, true)
    ensures At(At(Mean(p), "meta"), "content_sha256") == Atom(Str(StoredChecksum(p)))
  {
    GetWellFormed(p.entries, "meta");
    MeanGet(p.entries, "meta");
    MeanGet(GetOrNull(p.entries, "meta").entries, "content_sha256");
  }

  /**
    Whatever a commit writes, `load` accepts and returns, up to the order of
    dicts and sets and to tuples outside sets, provided no reserved key is in
    the state.
   */
  lemma CommitThenLoadClean(state: Value, now: Value, later: Value)
    requires WellFormed(state) && Clean(state) && now.Scalar? && Commit(state, now).Ok?
    ensures Load(Text(Commit(state, now).value), later).Ok?
    ensures var w := Load(Text(Commit(state, now).value), later).value;
      Mean(w) == Mean(Prepare(state, now).value) && Listed(w) && Clean(w) && WellFormed(w) && Encodable(w)
  {
    PreparedFacts(state, now);
    var p := Prepare(state, now).value;
    TextIsAdmitted(p);
    ChecksumByMeaning(p, Admit(Text(FileText(p))).value);
  }
}
