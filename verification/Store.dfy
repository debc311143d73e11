/** The database as a map of maps, and the proof that the nested dicts the program mutates behave like it. */
module Store {
  import opened Wrappers
  import opened Dicts
  import opened Values
  import opened CanonicalText
  import opened Errors
  import opened Storage
  import opened StorageProofs
  import opened LoadTheorems
  import opened Documents
  import opened DocumentProofs

  /** Document bodies by id, and collections by name. */
  type Docs = map<string, Meaning>
  type Collected = map<string, Docs>

  ghost function DocMap(docs: seq<Entry<Value>>): Docs {
    AsMap(MeanEntries(docs))
  }

  /** What the collections of a state hold. */
  ghost function Content(state: Value): Collected {
    var cs := AsMap(Collections(state));
    map name | name in cs :: DocMap(EntriesOf(cs[name]))
  }

  // ---------- The operations on maps ----------

  ghost function DocsOf(db: Collected, name: string): Docs {
    if name in db then db[name] else map[]
  }

  ghost function Stamped(document: Value, id: string): Meaning
    requires document.Dict?
  {
    Mapping(Mean(document).fields["id" := Atom(Str(id))])
  }

  ghost function Merged(document: Meaning, updates: Value): Meaning
    requires updates.Dict?
  {
    Mapping((if document.Mapping? then document.fields else map[]) + Mean(updates).fields)
  }

  ghost function Missing(db: Collected, name: string, id: Value): Option<DbError> {
    if !ValidId(id) || !ValidName(name) then Some(ValidationError)
    else if name !in db || id.s !in db[name] then Some(NotFoundError)
    else None
  }

  ghost function PutStamped(docs: Docs, news: seq<Value>, uuids: seq<string>): Docs
    requires |news| == |uuids| && forall i :: 0 <= i < |news| ==> news[i].Dict?
    decreases |news|
  {
    if news == [] then docs else PutStamped(docs[uuids[0] := Stamped(news[0], uuids[0])], news[1..], uuids[1..])
  }

  ghost function MergePairs(docs: Docs, items: seq<Value>): Docs
    requires forall i :: 0 <= i < |items| ==> GoodPair(items[i])
    decreases |items|
  {
    if items == [] then docs
    else
      assert GoodPair(items[0]);
      var id := items[0].items[0].s;
      var was := if id in docs then docs[id] else Atom(Null);
      MergePairs(docs[id := Merged(was, items[0].items[1])], items[1..])
  }

  /** The error of the first pair that has one. */
  ghost function PairsError(docs: Docs, items: seq<Value>): Option<DbError> {
    if items == [] then None
    else if !IsPair(items[0]) || !ValidId(items[0].items[0]) then Some(ValidationError)
    else if items[0].items[0].s !in docs then Some(NotFoundError)
    else if !NewDocument(items[0].items[1]) then Some(ValidationError)
    else PairsError(docs, items[1..])
  }

  lemma {:induction false} PairsGood(docs: Docs, items: seq<Value>)
    requires PairsError(docs, items).None?
    ensures forall i :: 0 <= i < |items| ==> GoodPair(items[i])
  {
    if items != [] {
      PairsGood(docs, items[1..]);
      assert forall i :: 0 < i < |items| ==> items[i] == items[1..][i - 1];
    }
  }

  ghost function ActUpdate(db: Collected, name: string, id: Value, updates: Value): Result<Collected, DbError> {
    if !NewDocument(updates) then Err(ValidationError)
    else match Missing(db, name, id)
      case Some(e) => Err(e)
      case None => Ok(db[name := db[name][id.s := Merged(db[name][id.s], updates)]])
  }

  ghost function ActReplace(db: Collected, name: string, id: Value, d: Value): Result<Collected, DbError> {
    if !ValidDocument(d) then Err(ValidationError)
    else if BodyIdRaises(d, id) then Err(InvalidOperation)
    else if !BodyIdMatches(d, id) then Err(ValidationError)
    else match Missing(db, name, id)
      case Some(e) => Err(e)
      case None => Ok(db[name := db[name][id.s := Stamped(d, id.s)]])
  }

  ghost function ActDelete(db: Collected, name: string, id: Value): Result<Collected, DbError> {
    match Missing(db, name, id)
    case Some(e) => Err(e)
    case None => Ok(db[name := db[name] - {id.s}])
  }

  ghost function ActBulkInsert(db: Collected, name: string, ds: Value, draw: nat -> string)
    : Result<Collected, DbError>
  {
    if !ds.List? || (exists i :: 0 <= i < |ds.items| && !NewDocument(ds.items[i])) || !ValidName(name) then
      Err(ValidationError)
    else Ok(db[name := PutStamped(DocsOf(db, name), ds.items, Drawn(draw, |ds.items|))])
  }

  ghost function ActBulkUpdate(db: Collected, name: string, pairs: Value): Result<Collected, DbError> {
    if !pairs.List? || !ValidName(name) then Err(ValidationError)
    else if name !in db then Err(NotFoundError)
    else match PairsError(db[name], pairs.items)
      case Some(e) => Err(e)
      case None =>
        PairsGood(db[name], pairs.items);
        Ok(db[name := MergePairs(db[name], pairs.items)])
  }

  ghost function ActInsert(db: Collected, name: string, d: Value, uuid: string): Result<Collected, DbError> {
    if !NewDocument(d) || !ValidName(name) then Err(ValidationError)
    else Ok(db[name := DocsOf(db, name)[uuid := Stamped(d, uuid)]])
  }

  ghost function ActUpsert(db: Collected, name: string, id: Value, d: Value): Result<Collected, DbError> {
    if !ValidId(id) || !ValidDocument(d) || !BodyIdMatches(d, id) || !ValidName(name) then Err(ValidationError)
    else Ok(db[name := DocsOf(db, name)[id.s := Stamped(d, id.s)]])
  }

  /** What a request does to a map of maps. */
  ghost function Act(db: Collected, r: Request): Result<Collected, DbError> {
    match r
    case Insert(name, d, uuid) => ActInsert(db, name, d, uuid)
    case Update(name, id, updates) => ActUpdate(db, name, id, updates)
    case Replace(name, id, d) => ActReplace(db, name, id, d)
    case Delete(name, id) => ActDelete(db, name, id)
    case Upsert(name, id, d) => ActUpsert(db, name, id, d)
    case BulkInsert(name, ds, draw) => ActBulkInsert(db, name, ds, draw)
    case BulkUpdate(name, pairs) => ActBulkUpdate(db, name, pairs)
  }

  // ---------- Relating the two ----------

  /** Python values a caller can pass, and non-empty drawn ids. */
  ghost predicate GoodRequest(r: Request) {
    match r
    case Insert(_, d, uuid) => WellFormed(d) && uuid != ""
    case Update(_, _, u) => WellFormed(u)
    case Replace(_, _, d) => WellFormed(d)
    case Delete(_, _) => true
    case Upsert(_, _, d) => WellFormed(d)
    case BulkInsert(_, ds, draw) => WellFormed(ds) && forall i: nat :: draw(i) != ""
    case BulkUpdate(_, pairs) => WellFormed(pairs)
  }

  lemma DocumentsMean(state: Value, name: string)
    ensures name in Content(state) <==> Has(Collections(state), name)
    ensures DocMap(DocumentsIn(state, name)) == DocsOf(Content(state), name)
  {
    HasIsKey(Collections(state), name);
  }

  lemma DocMapAt(docs: seq<Entry<Value>>, id: string)
    requires UniqueKeys(docs)
    ensures id in DocMap(docs) <==> Has(docs, id)
    ensures Has(docs, id) ==> DocMap(docs)[id] == Mean(Get(docs, id))
  {
    HasIsKey(docs, id);
    MeanAt(docs, id);
  }

  lemma PutContent(docs: seq<Entry<Value>>, id: string, d: Value)
    requires UniqueKeys(docs)
    ensures DocMap(Put(docs, id, d)) == DocMap(docs)[id := Mean(d)]
  {
    MeanPut(docs, id, d);
  }

  lemma RemoveContent(docs: seq<Entry<Value>>, id: string)
    requires UniqueKeys(docs)
    ensures DocMap(Remove(docs, id)) == DocMap(docs) - {id}
  {
    RemoveIsSubtraction(docs, id);
    var a, b := DocMap(Remove(docs, id)), DocMap(docs) - {id};
    forall k ensures (k in a <==> k in b) && (k in b ==> a[k] == b[k]) {
      MeanAt(docs, k);
      MeanAt(Remove(docs, id), k);
    }
    MapsAgree(a, b);
  }

  lemma CollectionsAreUnique(state: Value)
    requires Committable(state)
    ensures UniqueKeys(Collections(state))
  {
    GetWellFormed(state.entries, "collections");
  }

  /** Replacing the documents of one collection is one map update. */
  lemma WithDocumentsContent(state: Value, name: string, docs: seq<Entry<Value>>)
    requires Committable(state) && ValidName(name) && GoodDocuments(docs)
    ensures Committable(WithDocuments(state, name, docs))
    ensures Content(WithDocuments(state, name, docs)) == Content(state)[name := DocMap(docs)]
  {
    WithDocumentsKeeps(state, name, docs);
    CollectionsAreUnique(state);
    hide Committable, GoodDocuments, WithDocuments, Put, DocMap, ValidName, AsMap, UniqueKeys;
    PutIsUpdate(Collections(state), name, Dict(docs));
  }

  lemma GetGood(docs: seq<Entry<Value>>, id: string)
    requires GoodDocuments(docs) && Has(docs, id)
    ensures GoodEntry(id, Get(docs, id))
  {
    HasIsKey(docs, id);
    var i := IndexOfKey(docs, id);
  }

  // ---------- Bulk operations ----------

  lemma {:induction false} PutNewContent(docs: seq<Entry<Value>>, news: seq<Value>, uuids: seq<string>)
    requires GoodDocuments(docs) && |news| == |uuids|
    requires forall i :: 0 <= i < |news| ==> news[i].Dict?
    requires forall i :: 0 <= i < |news| ==> WellFormed(news[i]) && NewDocument(news[i]) && uuids[i] != ""
    ensures GoodDocuments(PutNew(docs, news, uuids))
    ensures DocMap(PutNew(docs, news, uuids)) == PutStamped(DocMap(docs), news, uuids)
    decreases |news|
  {
    if news != [] {
      WithIdIsGood(news[0], uuids[0]);
      PutKeepsGood(docs, uuids[0], WithId(news[0], uuids[0]));
      PutContent(docs, uuids[0], WithId(news[0], uuids[0]));
      PutNewContent(Put(docs, uuids[0], WithId(news[0], uuids[0])), news[1..], uuids[1..]);
    }
  }

  lemma {:induction false} FirstErrorContent(docs: seq<Entry<Value>>, items: seq<Value>)
    requires UniqueKeys(docs)
    ensures FirstError(docs, items) == PairsError(DocMap(docs), items)
  {
    if items != [] {
      FirstErrorContent(docs, items[1..]);
      if IsPair(items[0]) && ValidId(items[0].items[0]) {
        DocMapAt(docs, items[0].items[0].s);
      }
    }
  }

  lemma MergeOneContent(docs: seq<Entry<Value>>, id: string, u: Value)
    requires GoodDocuments(docs) && Has(docs, id) && NewDocument(u) && WellFormed(u)
    ensures var docs' := Put(docs, id, Merge(Get(docs, id), u));
      && GoodDocuments(docs') && id in DocMap(docs)
      && DocMap(docs') == DocMap(docs)[id := Merged(DocMap(docs)[id], u)]
      && forall k :: Has(docs, k) ==> Has(docs', k)
  {
    var d := Merge(Get(docs, id), u);
    GetGood(docs, id);
    MergeIsGood(id, Get(docs, id), u);
    DocMapAt(docs, id);
    PutKeepsGood(docs, id, d);
    PutContent(docs, id, d);
    forall k | Has(docs, k) ensures Has(Put(docs, id, d), k) {
      PutHas(docs, id, d, k);
    }
  }

  lemma {:induction false} MergeAllContent(docs: seq<Entry<Value>>, items: seq<Value>)
    requires GoodDocuments(docs)
    requires forall i :: 0 <= i < |items| ==>
      GoodPair(items[i]) && WellFormed(items[i].items[1]) && Has(docs, items[i].items[0].s)
    ensures GoodDocuments(MergeAll(docs, items))
    ensures DocMap(MergeAll(docs, items)) == MergePairs(DocMap(docs), items)
    decreases |items|
  {
    hide Put, DocMap, Merge, Merged, GoodDocuments, WellFormed, Get, ValidDocument;
    if items != [] {
      assert GoodPair(items[0]);
      var id, u := items[0].items[0].s, items[0].items[1];
      MergeOneContent(docs, id, u);
      forall i | 0 <= i < |items[1..]|
        ensures GoodPair(items[1..][i]) && WellFormed(items[1..][i].items[1])
        ensures Has(Put(docs, id, Merge(Get(docs, id), u)), items[1..][i].items[0].s)
      {
        assert items[1..][i] == items[i + 1];
      }
      MergeAllContent(Put(docs, id, Merge(Get(docs, id), u)), items[1..]);
    }
  }

  lemma PutHas(docs: seq<Entry<Value>>, id: string, d: Value, k: string)
    requires Has(docs, k)
    ensures Has(Put(docs, id, d), k)
  {
    if k != id {
      GetPutOther(docs, id, d, k);
    }
  }

  // ---------- Refinement ----------

  ghost function Observed(r: Result<Value, DbError>): Result<Collected, DbError> {
    match r
    case Ok(s) => Ok(Content(s))
    case Err(e) => Err(e)
  }

  lemma LookupMeans(state: Value, name: string, id: Value)
    requires Committable(state)
    ensures LookupError(state, name, id) == Missing(Content(state), name, id)
    ensures LookupError(state, name, id).None? ==>
      && GoodEntry(id.s, Get(DocumentsIn(state, name), id.s))
      && Content(state)[name][id.s] == Mean(Get(DocumentsIn(state, name), id.s))
  {
    if ValidId(id) {
      DocumentsAreGood(state, name);
      DocumentsMean(state, name);
      DocMapAt(DocumentsIn(state, name), id.s);
      if Has(DocumentsIn(state, name), id.s) {
        GetGood(DocumentsIn(state, name), id.s);
      }
    }
  }

  /** Putting one good document, in the state and in the map. */
  lemma PutRefines(state: Value, name: string, id: string, d: Value)
    requires Committable(state) && ValidName(name) && GoodEntry(id, d)
    ensures var s := WithDocuments(state, name, Put(DocumentsIn(state, name), id, d));
      && Committable(s)
      && Content(s) == Content(state)[name := DocsOf(Content(state), name)[id := Mean(d)]]
  {
    var docs := DocumentsIn(state, name);
    DocumentsAreGood(state, name);
    DocumentsMean(state, name);
    PutKeepsGood(docs, id, d);
    PutContent(docs, id, d);
    WithDocumentsContent(state, name, Put(docs, id, d));
  }

  /** The effect on the state and the effect on the map agree, and the state stays fit to be committed. */
  ghost predicate Agree(r: Result<Value, DbError>, m: Result<Collected, DbError>) {
    Observed(r) == m && (r.Ok? ==> Committable(r.value))
  }

  lemma InsertRefines(state: Value, name: string, d: Value, uuid: string)
    requires Committable(state) && WellFormed(d) && uuid != ""
    ensures Agree(InsertDocument(state, name, d, uuid), ActInsert(Content(state), name, d, uuid))
  {
    if NewDocument(d) && ValidName(name) {
      WithIdIsGood(d, uuid);
      PutRefines(state, name, uuid, WithId(d, uuid));
    }
  }

  lemma UpsertRefines(state: Value, name: string, id: Value, d: Value)
    requires Committable(state) && WellFormed(d)
    ensures Agree(UpsertDocument(state, name, id, d), ActUpsert(Content(state), name, id, d))
  {
    if UpsertDocument(state, name, id, d).Ok? {
      WithIdIsGood(d, id.s);
      PutRefines(state, name, id.s, WithId(d, id.s));
    }
  }

  lemma ReplaceRefines(state: Value, name: string, id: Value, d: Value)
    requires Committable(state) && WellFormed(d)
    ensures Agree(ReplaceDocument(state, name, id, d), ActReplace(Content(state), name, id, d))
  {
    LookupMeans(state, name, id);
    if ReplaceDocument(state, name, id, d).Ok? {
      WithIdIsGood(d, id.s);
      PutRefines(state, name, id.s, WithId(d, id.s));
    }
  }

  lemma UpdateRefines(state: Value, name: string, id: Value, updates: Value)
    requires Committable(state) && WellFormed(updates)
    ensures Agree(UpdateDocument(state, name, id, updates), ActUpdate(Content(state), name, id, updates))
  {
    LookupMeans(state, name, id);
    if NewDocument(updates) && LookupError(state, name, id).None? {
      var d := Get(DocumentsIn(state, name), id.s);
      MergeIsGood(id.s, d, updates);
      PutRefines(state, name, id.s, Merge(d, updates));
    }
  }

  lemma DeleteRefines(state: Value, name: string, id: Value)
    requires Committable(state)
    ensures Agree(DeleteDocument(state, name, id), ActDelete(Content(state), name, id))
  {
    LookupMeans(state, name, id);
    if LookupError(state, name, id).None? {
      RemovedContent(state, name, id.s);
    }
  }

  lemma RemovedContent(state: Value, name: string, id: string)
    requires Committable(state) && ValidName(name)
    ensures var s := WithDocuments(state, name, Remove(DocumentsIn(state, name), id));
      && Committable(s)
      && Content(s) == Content(state)[name := DocsOf(Content(state), name) - {id}]
  {
    DocumentsAreGood(state, name);
    DocumentsMean(state, name);
    RemoveKeepsGood(DocumentsIn(state, name), id);
    RemoveContent(DocumentsIn(state, name), id);
    WithDocumentsContent(state, name, Remove(DocumentsIn(state, name), id));
  }

  lemma BulkInsertRefines(state: Value, name: string, ds: Value, draw: nat -> string)
    requires Committable(state) && WellFormed(ds) && forall i: nat :: draw(i) != ""
    ensures Agree(BulkInsertDocuments(state, name, ds, draw), ActBulkInsert(Content(state), name, ds, draw))
  {
    if BulkInsertDocuments(state, name, ds, draw).Ok? {
      forall i | 0 <= i < |ds.items| ensures ds.items[i].Dict? && NewDocument(ds.items[i]) && WellFormed(ds.items[i]) {
      }
      InsertedContent(state, name, ds.items, Drawn(draw, |ds.items|));
    }
  }

  lemma InsertedContent(state: Value, name: string, news: seq<Value>, uuids: seq<string>)
    requires Committable(state) && ValidName(name) && |news| == |uuids|
    requires forall i :: 0 <= i < |news| ==> news[i].Dict?
    requires forall i :: 0 <= i < |news| ==> WellFormed(news[i]) && NewDocument(news[i]) && uuids[i] != ""
    ensures var s := WithDocuments(state, name, PutNew(DocumentsIn(state, name), news, uuids));
      && Committable(s)
      && Content(s) == Content(state)[name := PutStamped(DocsOf(Content(state), name), news, uuids)]
  {
    DocumentsAreGood(state, name);
    DocumentsMean(state, name);
    PutNewContent(DocumentsIn(state, name), news, uuids);
    WithDocumentsContent(state, name, PutNew(DocumentsIn(state, name), news, uuids));
  }

  lemma BulkUpdateRefines(state: Value, name: string, pairs: Value)
    requires Committable(state) && WellFormed(pairs)
    ensures Agree(BulkUpdateDocuments(state, name, pairs), ActBulkUpdate(Content(state), name, pairs))
  {
    var docs := DocumentsIn(state, name);
    DocumentsAreGood(state, name);
    DocumentsMean(state, name);
    if pairs.List? {
      FirstErrorContent(docs, pairs.items);
    }
    if BulkUpdateDocuments(state, name, pairs).Ok? {
      MergedContent(state, name, pairs.items);
    }
  }

  lemma MergedContent(state: Value, name: string, items: seq<Value>)
    requires Committable(state) && ValidName(name) && (forall i :: 0 <= i < |items| ==> WellFormed(items[i]))
    requires FirstError(DocumentsIn(state, name), items).None?
    ensures forall i :: 0 <= i < |items| ==> GoodPair(items[i])
    ensures var s := WithDocuments(state, name, MergeAll(DocumentsIn(state, name), items));
      && Committable(s)
      && Content(s) == Content(state)[name := MergePairs(DocMap(DocumentsIn(state, name)), items)]
  {
    DocumentsAreGood(state, name);
    PairsFacts(DocumentsIn(state, name), items);
    MergeAllContent(DocumentsIn(state, name), items);
    WithDocumentsContent(state, name, MergeAll(DocumentsIn(state, name), items));
  }

  lemma PairsFacts(docs: seq<Entry<Value>>, items: seq<Value>)
    requires FirstError(docs, items).None? && forall i :: 0 <= i < |items| ==> WellFormed(items[i])
    ensures forall i :: 0 <= i < |items| ==>
      GoodPair(items[i]) && WellFormed(items[i].items[1]) && Has(docs, items[i].items[0].s)
  {
    NoErrorMeansGood(docs, items);
    forall i | 0 <= i < |items| ensures GoodPair(items[i]) && WellFormed(items[i].items[1]) {
      assert WellFormed(items[i]);
    }
  }

  /**
    On every state, every request has on the nested dicts the effect, or the
    error, it has on the map of maps; and it keeps the state fit to be committed.
   */
  lemma ApplyRefines(state: Value, r: Request)
    requires Committable(state) && GoodRequest(r)
    ensures Observed(Apply(state, r)) == Act(Content(state), r)
    ensures Apply(state, r).Ok? ==> Committable(Apply(state, r).value)
  {
    match r
    case Insert(name, d, uuid) => InsertRefines(state, name, d, uuid);
    case Update(name, id, updates) => UpdateRefines(state, name, id, updates);
    case Replace(name, id, d) => ReplaceRefines(state, name, id, d);
    case Delete(name, id) => DeleteRefines(state, name, id);
    case Upsert(name, id, d) => UpsertRefines(state, name, id, d);
    case BulkInsert(name, ds, draw) => BulkInsertRefines(state, name, ds, draw);
    case BulkUpdate(name, pairs) => BulkUpdateRefines(state, name, pairs);
  }

  // ---------- Bulk operations against single ones ----------

  /** The single updates a list of pairs stands for, one after the other. */
  function UpdateEach(state: Value, name: string, items: seq<Value>): Result<Value, DbError>
    requires forall i :: 0 <= i < |items| ==> IsPair(items[i])
    decreases |items|
  {
    if items == [] then Ok(state)
    else
      assert IsPair(items[0]);
      var next :- UpdateDocument(state, name, items[0].items[0], items[0].items[1]);
      UpdateEach(next, name, items[1..])
  }

  function InsertEach(state: Value, name: string, items: seq<Value>, uuids: seq<string>): Result<Value, DbError>
    requires |items| == |uuids|
    decreases |items|
  {
    if items == [] then Ok(state)
    else
      var next :- InsertDocument(state, name, items[0], uuids[0]);
      InsertEach(next, name, items[1..], uuids[1..])
  }

  lemma WithDocumentsTwice(state: Value, name: string, docs: seq<Entry<Value>>, docs': seq<Entry<Value>>)
    requires state.Dict?
    ensures WithDocuments(WithDocuments(state, name, docs), name, docs') == WithDocuments(state, name, docs')
    ensures DocumentsIn(WithDocuments(state, name, docs), name) == docs
    ensures Has(Collections(WithDocuments(state, name, docs)), name)
  {
    var es, cs := state.entries, Collections(state);
    PutTwice(cs, name, Dict(docs), Dict(docs'));
    PutTwice(es, "collections", Dict(Put(cs, name, Dict(docs))), Dict(Put(cs, name, Dict(docs'))));
  }

  /** Single updates in list order, with repeated ids seeing earlier ones, are one pass over the documents. */
  lemma {:induction false} UpdateEachMerges(state: Value, name: string, items: seq<Value>)
    requires forall i :: 0 <= i < |items| ==> IsPair(items[i])
    requires state.Dict? && ValidName(name) && Has(Collections(state), name)
    requires WithDocuments(state, name, DocumentsIn(state, name)) == state
    requires forall i :: 0 <= i < |items| ==> GoodPair(items[i]) && Has(DocumentsIn(state, name), items[i].items[0].s)
    ensures UpdateEach(state, name, items) == Ok(WithDocuments(state, name, MergeAll(DocumentsIn(state, name), items)))
    decreases |items|
  {
    hide Put, Merge, ValidDocument;
    if items != [] {
      assert GoodPair(items[0]);
      var docs, id := DocumentsIn(state, name), items[0].items[0].s;
      var docs' := Put(docs, id, Merge(Get(docs, id), items[0].items[1]));
      var next := WithDocuments(state, name, docs');
      WithDocumentsTwice(state, name, docs', docs');
      WithDocumentsTwice(state, name, docs', MergeAll(docs', items[1..]));
      assert UpdateDocument(state, name, items[0].items[0], items[0].items[1]) == Ok(next);
      forall i | 0 <= i < |items[1..]|
        ensures GoodPair(items[1..][i]) && Has(docs', items[1..][i].items[0].s)
      {
        assert items[1..][i] == items[i + 1];
        PutHas(docs, id, Merge(Get(docs, id), items[0].items[1]), items[i + 1].items[0].s);
      }
      UpdateEachMerges(next, name, items[1..]);
    }
  }

  lemma OwnDocuments(state: Value, name: string)
    requires Shaped(state, false) && Has(Collections(state), name)
    ensures ValidName(name) && WithDocuments(state, name, DocumentsIn(state, name)) == state
  {
    var cs := Collections(state);
    HasIsKey(cs, name);
    var i := IndexOfKey(cs, name);
    assert GoodCollection(cs[i].key, cs[i].val);
    PutSame(cs, name);
    PutSame(state.entries, "collections");
  }

  /**
    On an existing collection `bulk_update` succeeds exactly when every single
    update would on its own, and then it does what the single updates do one
    after the other.
   */
  lemma BulkUpdateIsUpdates(state: Value, name: string, items: seq<Value>)
    requires Shaped(state, false) && Has(Collections(state), name)
    requires forall i :: 0 <= i < |items| ==> IsPair(items[i])
    ensures BulkUpdateDocuments(state, name, List(items)).Ok? <==>
      forall i :: 0 <= i < |items| ==>
        IsPair(items[i]) && UpdateDocument(state, name, items[i].items[0], items[i].items[1]).Ok?
    ensures BulkUpdateDocuments(state, name, List(items)).Ok? ==>
      BulkUpdateDocuments(state, name, List(items)) == UpdateEach(state, name, items)
  {
    NoErrorMeansGood(DocumentsIn(state, name), items);
    OwnDocuments(state, name);
    if BulkUpdateDocuments(state, name, List(items)).Ok? {
      UpdateEachMerges(state, name, items);
    }
  }

  lemma {:induction false} InsertEachPuts(state: Value, name: string, items: seq<Value>, uuids: seq<string>)
    requires state.Dict? && ValidName(name) && |items| == |uuids|
    requires forall i :: 0 <= i < |items| ==> items[i].Dict?
    requires forall i :: 0 <= i < |items| ==> NewDocument(items[i])
    requires items == [] ==> WithDocuments(state, name, DocumentsIn(state, name)) == state
    ensures InsertEach(state, name, items, uuids)
         == Ok(WithDocuments(state, name, PutNew(DocumentsIn(state, name), items, uuids)))
    decreases |items|
  {
    if items != [] {
      assert NewDocument(items[0]);
      var docs' := Put(DocumentsIn(state, name), uuids[0], WithId(items[0], uuids[0]));
      var next := WithDocuments(state, name, docs');
      WithDocumentsTwice(state, name, docs', docs');
      WithDocumentsTwice(state, name, docs', PutNew(docs', items[1..], uuids[1..]));
      InsertEachPuts(next, name, items[1..], uuids[1..]);
    }
  }

  lemma {:induction false} InsertEachSucceeds(state: Value, name: string, items: seq<Value>, uuids: seq<string>)
    requires |items| == |uuids|
    ensures InsertEach(state, name, items, uuids).Ok? <==>
      items == [] || (ValidName(name) && forall i :: 0 <= i < |items| ==> NewDocument(items[i]))
    decreases |items|
  {
    if items != [] && InsertDocument(state, name, items[0], uuids[0]).Ok? {
      InsertEachSucceeds(InsertDocument(state, name, items[0], uuids[0]).value, name, items[1..], uuids[1..]);
      assert forall i :: 0 < i < |items| ==> items[i] == items[1..][i - 1];
    }
  }

  /**
    `bulk_insert` gives what single inserts with the same ids give, in error and
    in effect, exactly when the list is not empty or the collection exists: of
    an empty list it still creates the collection.
   */
  lemma BulkInsertIsInserts(state: Value, name: string, items: seq<Value>, draw: nat -> string)
    requires Shaped(state, false) && ValidName(name)
    ensures var one, each := BulkInsertDocuments(state, name, List(items), draw),
                             InsertEach(state, name, items, Drawn(draw, |items|));
      one == each <==> items != [] || Has(Collections(state), name)
  {
    var uuids := Drawn(draw, |items|);
    InsertEachSucceeds(state, name, items, uuids);
    if items == [] {
      if Has(Collections(state), name) {
        OwnDocuments(state, name);
      } else {
        WithDocumentsTwice(state, name, [], []);
      }
    } else if forall i :: 0 <= i < |items| ==> NewDocument(items[i]) {
      forall i | 0 <= i < |items| ensures items[i].Dict? {
        assert NewDocument(items[i]);
      }
      InsertEachPuts(state, name, items, uuids);
    } else {
      InsertEachError(state, name, items, uuids);
    }
  }

  lemma {:induction false} InsertEachError(state: Value, name: string, items: seq<Value>, uuids: seq<string>)
    requires |items| == |uuids| && InsertEach(state, name, items, uuids).Err?
    ensures InsertEach(state, name, items, uuids) == Err(ValidationError)
    decreases |items|
  {
    if InsertDocument(state, name, items[0], uuids[0]).Ok? {
      InsertEachError(InsertDocument(state, name, items[0], uuids[0]).value, name, items[1..], uuids[1..]);
    }
  }
}
