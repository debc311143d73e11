/** The document operations keep the state sound and act as operations on a map of maps. */
module DocumentProofs {
  import opened Dicts
  import opened Values
  import opened Serializer
  import opened CanonicalText
  import opened Errors
  import opened Storage
  import opened StorageProofs
  import opened LoadTheorems
  import opened Documents

  // ---------- The invariant ----------

  /** What every operation keeps: enough for the next commit to succeed. */
  ghost predicate Committable(state: Value) {
    WellFormed(state) && Encodable(state) && Shaped(state, false) && CleanButIds(state)
  }

  ghost predicate GoodDocuments(docs: seq<Entry<Value>>) {
    && UniqueKeys(docs)
    && forall i :: 0 <= i < |docs| ==> GoodEntry(docs[i].key, docs[i].val)
  }

  ghost predicate GoodEntry(id: string, d: Value) {
    GoodDocument(id, d) && WellFormed(d) && Clean(d) && Encodable(d)
  }

  lemma SoundIsCommittable(state: Value)
    requires Sound(state)
    ensures Committable(state) && !ReservedId(state)
  {
    var cs := Collections(state);
    GetClean(state.entries, "collections");
    forall i | 0 <= i < |cs| ensures CleanDocuments(cs[i].val) && !Has(cs[i].val.entries, TYPE_KEY) {
      assert GoodCollection(cs[i].key, cs[i].val);
    }
  }

  lemma GoodCollectionEntries(name: string, c: Value)
    requires GoodCollection(name, c) && WellFormed(c) && Encodable(c) && CleanDocuments(c)
    ensures GoodDocuments(c.entries)
  {
    forall i | 0 <= i < |c.entries| ensures GoodEntry(c.entries[i].key, c.entries[i].val) {
    }
  }

  /** The documents of any collection of a committable state are good. */
  lemma DocumentsAreGood(state: Value, name: string)
    requires Committable(state)
    ensures GoodDocuments(DocumentsIn(state, name))
  {
    var cs := Collections(state);
    HasIsKey(cs, name);
    if Has(cs, name) {
      GetWellFormed(state.entries, "collections");
      GetEncodable(state.entries, "collections");
      var i := IndexOfKey(cs, name);
      assert GoodCollection(cs[i].key, cs[i].val) && CleanDocuments(cs[i].val);
      GoodCollectionEntries(cs[i].key, cs[i].val);
    }
  }

  lemma CollectionFromDocuments(name: string, docs: seq<Entry<Value>>)
    requires ValidName(name) && GoodDocuments(docs)
    ensures var c := Dict(docs); WellFormed(c) && Encodable(c) && CleanDocuments(c) && GoodCollection(name, c)
  {
    forall i | 0 <= i < |docs|
      ensures WellFormed(docs[i].val) && Encodable(docs[i].val) && Clean(docs[i].val)
      ensures GoodDocument(docs[i].key, docs[i].val)
    {
      assert GoodEntry(docs[i].key, docs[i].val);
    }
  }

  /** Putting good documents into a validly named collection keeps a state committable. */
  lemma WithDocumentsKeeps(state: Value, name: string, docs: seq<Entry<Value>>)
    requires Committable(state) && ValidName(name) && GoodDocuments(docs)
    ensures Committable(WithDocuments(state, name, docs))
    ensures Collections(WithDocuments(state, name, docs)) == Put(Collections(state), name, Dict(docs))
  {
    var es, cs, c := state.entries, Collections(state), Dict(docs);
    var cs' := Put(cs, name, c);
    CollectionFromDocuments(name, docs);
    GetWellFormed(es, "collections");
    GetEncodable(es, "collections");
    DictPutKeeps(cs, name, c);
    DictPutKeeps(es, "collections", Dict(cs'));
    CollectionsKeep(cs, name, c);
    CollectionsReplaced(state, Dict(cs'));
  }

  lemma CollectionsKeep(cs: seq<Entry<Value>>, name: string, c: Value)
    requires GoodCollections(Dict(cs)) && forall i :: 0 <= i < |cs| ==> CleanDocuments(cs[i].val)
    requires GoodCollection(name, c) && CleanDocuments(c)
    ensures var cs' := Put(cs, name, c);
      GoodCollections(Dict(cs')) && forall i :: 0 <= i < |cs'| ==> CleanDocuments(cs'[i].val)
  {
    var cs' := Put(cs, name, c);
    PutFrom(cs, name, c);
    forall i | 0 <= i < |cs'| ensures GoodCollection(cs'[i].key, cs'[i].val) && CleanDocuments(cs'[i].val) {
      if cs'[i] in cs {
        var j :| 0 <= j < |cs| && cs[j] == cs'[i];
        assert GoodCollection(cs[j].key, cs[j].val) && CleanDocuments(cs[j].val);
      }
    }
  }

  lemma CollectionsReplaced(state: Value, cs: Value)
    requires WellFormed(state) && Shaped(state, false) && CleanButIds(state)
    requires GoodCollections(cs) && forall i :: 0 <= i < |cs.entries| ==> CleanDocuments(cs.entries[i].val)
    ensures var s := Dict(Put(state.entries, "collections", cs));
      Shaped(s, false) && CleanButIds(s) && Collections(s) == cs.entries
  {
    var es := state.entries;
    var es' := Put(es, "collections", cs);
    assert "collections"[0] != "meta"[0] && "collections"[0] != TYPE_KEY[0];
    GetPutOther(es, "collections", cs, "meta");
    GetPutOther(es, "collections", cs, TYPE_KEY);
    PutFrom(es, "collections", cs);
    forall i | 0 <= i < |es'| && es'[i].key != "collections" ensures Clean(es'[i].val) {
      assert es'[i] in es;
    }
  }

  // ---------- Each operation on the documents of one collection ----------

  lemma PutKeepsGood(docs: seq<Entry<Value>>, id: string, d: Value)
    requires GoodDocuments(docs) && GoodEntry(id, d)
    ensures GoodDocuments(Put(docs, id, d))
  {
    PutIsUpdate(docs, id, d);
    PutFrom(docs, id, d);
    forall i | 0 <= i < |Put(docs, id, d)| ensures GoodEntry(Put(docs, id, d)[i].key, Put(docs, id, d)[i].val) {
      if Put(docs, id, d)[i] in docs {
        var j :| 0 <= j < |docs| && docs[j] == Put(docs, id, d)[i];
        assert GoodEntry(docs[j].key, docs[j].val);
      }
    }
  }

  lemma {:induction false} RemoveFrom<T>(es: seq<Entry<T>>, k: string)
    ensures forall i :: 0 <= i < |Remove(es, k)| ==> Remove(es, k)[i] in es
  {
    if es != [] {
      RemoveFrom(es[1..], k);
    }
  }

  lemma RemoveKeepsGood(docs: seq<Entry<Value>>, id: string)
    requires GoodDocuments(docs)
    ensures GoodDocuments(Remove(docs, id))
  {
    RemoveIsSubtraction(docs, id);
    RemoveFrom(docs, id);
    forall i | 0 <= i < |Remove(docs, id)| ensures GoodEntry(Remove(docs, id)[i].key, Remove(docs, id)[i].val) {
      var j :| 0 <= j < |docs| && docs[j] == Remove(docs, id)[i];
      assert GoodEntry(docs[j].key, docs[j].val);
    }
  }

  lemma WithIdIsGood(d: Value, id: string)
    requires WellFormed(d) && ValidDocument(d) && id != ""
    ensures GoodEntry(id, WithId(d, id))
    ensures Mean(WithId(d, id)) == Mapping(Mean(d).fields["id" := Atom(Str(id))])
  {
    assert "id"[0] != TYPE_KEY[0];
    DictPutKeeps(d.entries, "id", Str(id));
  }

  lemma {:induction false} PutAllKeeps(es: seq<Entry<Value>>, other: seq<Entry<Value>>)
    requires WellFormed(Dict(es)) && Clean(Dict(es)) && Encodable(Dict(es))
    requires WellFormed(Dict(other)) && Clean(Dict(other)) && Encodable(Dict(other))
    ensures var r := Dict(PutAll(es, other)); WellFormed(r) && Clean(r) && Encodable(r)
    decreases |other|
  {
    if other != [] {
      TailKeeps(other);
      DictPutKeeps(es, other[0].key, other[0].val);
      PutAllKeeps(Put(es, other[0].key, other[0].val), other[1..]);
    }
  }

  lemma PutAllMeansAt(es: seq<Entry<Value>>, other: seq<Entry<Value>>, k: string)
    requires UniqueKeys(es) && UniqueKeys(other)
    ensures var a, b := AsMap(MeanEntries(PutAll(es, other))), AsMap(MeanEntries(es)) + AsMap(MeanEntries(other));
      (k in a <==> k in b) && (k in b ==> a[k] == b[k])
  {
    PutAllIsMerge(es, other);
    MeanAt(es, k);
    MeanAt(other, k);
    MeanAt(PutAll(es, other), k);
  }

  lemma PutAllMeans(es: seq<Entry<Value>>, other: seq<Entry<Value>>)
    requires UniqueKeys(es) && UniqueKeys(other)
    ensures Mean(Dict(PutAll(es, other))) == Mapping(Mean(Dict(es)).fields + Mean(Dict(other)).fields)
  {
    var a, b := AsMap(MeanEntries(PutAll(es, other))), AsMap(MeanEntries(es)) + AsMap(MeanEntries(other));
    forall k ensures (k in a <==> k in b) && (k in b ==> a[k] == b[k]) {
      PutAllMeansAt(es, other, k);
    }
    MapsAgree(a, b);
  }

  lemma TailKeeps(es: seq<Entry<Value>>)
    requires es != [] && WellFormed(Dict(es)) && Clean(Dict(es)) && Encodable(Dict(es))
    ensures var t := Dict(es[1..]); WellFormed(t) && Clean(t) && Encodable(t)
    ensures WellFormed(es[0].val) && Clean(es[0].val) && Encodable(es[0].val) && es[0].key != TYPE_KEY
  {
    assert forall i :: 0 <= i < |es[1..]| ==> es[1..][i] == es[i + 1];
  }

  lemma MergeIsGood(id: string, d: Value, updates: Value)
    requires GoodEntry(id, d) && WellFormed(updates) && NewDocument(updates)
    ensures GoodEntry(id, Merge(d, updates))
    ensures Mean(Merge(d, updates)) == Mapping(Mean(d).fields + Mean(updates).fields)
  {
    PutAllKeeps(d.entries, updates.entries);
    PutAllMeans(d.entries, updates.entries);
    var r := Merge(d, updates);
    MeanGet(r.entries, "id");
    MeanGet(d.entries, "id");
    HasIsKey(updates.entries, "id");
    MeanAt(updates.entries, "id");
  }
}
