/** Whole sessions: load, any operations, commit, load again. */
module Sessions {
  import opened Wrappers
  import opened Dicts
  import opened Values
  import opened Serializer
  import opened CanonicalText
  import opened Errors
  import opened Storage
  import opened StorageProofs
  import opened LoadTheorems
  import opened Documents
  import opened DocumentProofs
  import opened Store

  // ---------- Content is part of what a state denotes ----------

  ghost function FieldsOf(m: Meaning): map<string, Meaning> {
    if m.Mapping? then m.fields else map[]
  }

  ghost function MeaningContent(m: Meaning): Collected {
    var cs := FieldsOf(At(m, "collections"));
    map name | name in cs :: FieldsOf(cs[name])
  }

  lemma CollectionContent(cs: seq<Entry<Value>>, name: string)
    requires GoodCollections(Dict(cs)) && UniqueKeys(cs) && name in AsMap(cs)
    ensures name in AsMap(MeanEntries(cs))
    ensures FieldsOf(AsMap(MeanEntries(cs))[name]) == DocMap(EntriesOf(AsMap(cs)[name]))
  {
    MeanAt(cs, name);
    var i := IndexOfKey(cs, name);
    assert GoodCollection(cs[i].key, cs[i].val);
  }

  lemma ContentByMeaning(state: Value)
    requires WellFormed(state) && Shaped(state, false)
    ensures Content(state) == MeaningContent(Mean(state))
  {
    var cs := Collections(state);
    GetWellFormed(state.entries, "collections");
    MeanGet(state.entries, "collections");
    assert FieldsOf(At(Mean(state), "collections")) == AsMap(MeanEntries(cs));
    var a, b := Content(state), MeaningContent(Mean(state));
    forall name ensures (name in a <==> name in b) && (name in b ==> a[name] == b[name]) {
      MeanAt(cs, name);
      if name in a {
        CollectionContent(cs, name);
      }
    }
    MapsAgree(a, b);
  }

  /** No collection holds a document under the envelope key. */
  ghost predicate Free(db: Collected) {
    forall name :: name in db ==> TYPE_KEY !in db[name]
  }

  lemma ReservedByContent(state: Value)
    requires Committable(state)
    ensures ReservedId(state) <==> !Free(Content(state))
  {
    var cs := Collections(state);
    GetWellFormed(state.entries, "collections");
    forall i | 0 <= i < |cs|
      ensures cs[i].key in Content(state)
      ensures Has(cs[i].val.entries, TYPE_KEY) <==> TYPE_KEY in Content(state)[cs[i].key]
    {
      assert GoodCollection(cs[i].key, cs[i].val);
      AtIndex(cs, i);
      DocMapAt(cs[i].val.entries, TYPE_KEY);
    }
    forall name | name in Content(state) ensures exists i :: 0 <= i < |cs| && cs[i].key == name {
      var i := IndexOfKey(cs, name);
    }
  }

  // ---------- Commit, then load ----------

  /** What was committed is what is loaded, unless a document has the reserved id: then nothing is. */
  lemma CommittedContent(state: Value, now: Value, later: Value)
    requires Committable(state) && now.Scalar? && Encodable(now)
    ensures Commit(state, now).Ok?
    ensures var r := Load(Text(Commit(state, now).value), later);
      && (r.Ok? <==> Free(Content(state)))
      && (r.Ok? ==> Sound(r.value) && Content(r.value) == Content(state))
      && (r.Err? ==> r.error == DatabaseFormatError)
  {
    CommitSucceeds(state, now);
    ReservedByContent(state);
    CommitThenLoad(state, now, later);
    if Free(Content(state)) {
      LoadedContent(state, now, later);
    } else {
      ReservedIdIsRefused(state, now, later);
    }
  }

  lemma LoadedContent(state: Value, now: Value, later: Value)
    requires Committable(state) && now.Scalar? && Encodable(now) && !ReservedId(state) && Commit(state, now).Ok?
    requires Load(Text(Commit(state, now).value), later).Ok?
    ensures var w := Load(Text(Commit(state, now).value), later).value;
      Sound(w) && Content(w) == Content(state)
  {
    CommitThenLoad(state, now, later);
    PreparedFacts(state, now);
    var p, w := Prepare(state, now).value, Load(Text(Commit(state, now).value), later).value;
    LoadedIsSound(Text(Commit(state, now).value), later);
    ContentByMeaning(p);
    ContentByMeaning(w);
    assert Collections(p) == Collections(state);
  }

  lemma LoadedIsSound(disk: Disk, t: Value)
    requires !disk.Missing? && Load(disk, t).Ok?
    ensures Sound(Load(disk, t).value)
  {
    AdmittedIsSound(disk);
  }

  // ---------- Sessions ----------

  /** The state after an operation; one that raises leaves it as it was. */
  function Applied(state: Value, r: Request): Value {
    match Apply(state, r)
    case Ok(s) => s
    case Err(_) => state
  }

  function ApplyAll(state: Value, rs: seq<Request>): Value
    decreases |rs|
  {
    if rs == [] then state else ApplyAll(Applied(state, rs[0]), rs[1..])
  }

  ghost function Acted(db: Collected, r: Request): Collected {
    match Act(db, r)
    case Ok(d) => d
    case Err(_) => db
  }

  ghost function ActAll(db: Collected, rs: seq<Request>): Collected
    decreases |rs|
  {
    if rs == [] then db else ActAll(Acted(db, rs[0]), rs[1..])
  }

  ghost predicate GoodRequests(rs: seq<Request>) {
    forall i :: 0 <= i < |rs| ==> GoodRequest(rs[i])
  }

  /** Any sequence of operations keeps a state fit to be committed and acts on its content like on a map of maps. */
  lemma {:induction false} ApplyAllRefines(state: Value, rs: seq<Request>)
    requires Committable(state) && GoodRequests(rs)
    ensures Committable(ApplyAll(state, rs))
    ensures Content(ApplyAll(state, rs)) == ActAll(Content(state), rs)
    decreases |rs|
  {
    if rs != [] {
      assert GoodRequest(rs[0]);
      ApplyRefines(state, rs[0]);
      ApplyAllRefines(Applied(state, rs[0]), rs[1..]);
    }
  }

  /**
    Load a file, apply any operations, commit, load again: the commit never
    fails, and the second load returns what the operations make of the first
    one, unless they leave a document under the envelope key.
   */
  lemma SessionRoundTrip(state: Value, rs: seq<Request>, now: Value, later: Value)
    requires Sound(state) && GoodRequests(rs) && now.Scalar? && Encodable(now)
    ensures Commit(ApplyAll(state, rs), now).Ok?
    ensures var r := Load(Text(Commit(ApplyAll(state, rs), now).value), later);
      && (r.Ok? <==> Free(ActAll(Content(state), rs)))
      && (r.Ok? ==> Sound(r.value) && Content(r.value) == ActAll(Content(state), rs))
      && (r.Err? ==> r.error == DatabaseFormatError)
  {
    SoundIsCommittable(state);
    ApplyAllRefines(state, rs);
    CommittedContent(ApplyAll(state, rs), now, later);
  }

  // ---------- Which operations store a document under the envelope key ----------

  /** The request names the envelope key as the id of a document to be stored. */
  ghost predicate Reserves(r: Request) {
    match r
    case Insert(_, _, uuid) => uuid == TYPE_KEY
    case Upsert(_, id, _) => id == Str(TYPE_KEY)
    case BulkInsert(_, ds, draw) => ds.List? && TYPE_KEY in Drawn(draw, |ds.items|)
    case _ => false
  }

  lemma {:induction false} MergePairsKeys(docs: Docs, items: seq<Value>)
    requires PairsError(docs, items).None?
    requires forall i :: 0 <= i < |items| ==> GoodPair(items[i]) && items[i].items[0].s in docs
    ensures MergePairs(docs, items).Keys == docs.Keys
    decreases |items|
  {
    if items != [] {
      assert GoodPair(items[0]);
      var id := items[0].items[0].s;
      var docs' := docs[id := Merged(docs[id], items[0].items[1])];
      assert docs'.Keys == docs.Keys;
      SameErrors(docs, docs', items[1..]);
      MergePairsKeys(docs', items[1..]);
    }
  }

  lemma {:induction false} SameErrors(a: Docs, b: Docs, items: seq<Value>)
    requires a.Keys == b.Keys
    ensures PairsError(a, items) == PairsError(b, items)
  {
    if items != [] {
      SameErrors(a, b, items[1..]);
    }
  }

  lemma {:induction false} PairsAreThere(docs: Docs, items: seq<Value>)
    requires PairsError(docs, items).None?
    ensures forall i :: 0 <= i < |items| ==> GoodPair(items[i]) && items[i].items[0].s in docs
  {
    if items != [] {
      PairsAreThere(docs, items[1..]);
      assert forall i :: 0 < i < |items| ==> items[i] == items[1..][i - 1];
    }
  }

  lemma {:induction false} PutStampedKeys(docs: Docs, news: seq<Value>, uuids: seq<string>)
    requires |news| == |uuids| && forall i :: 0 <= i < |news| ==> news[i].Dict?
    ensures TYPE_KEY in PutStamped(docs, news, uuids) <==> TYPE_KEY in docs || TYPE_KEY in uuids
    decreases |news|
  {
    if news != [] {
      PutStampedKeys(docs[uuids[0] := Stamped(news[0], uuids[0])], news[1..], uuids[1..]);
      assert uuids == [uuids[0]] + uuids[1..];
    }
  }

  /** A successful operation brings the envelope key in exactly when the request names it. */
  lemma ActReserves(db: Collected, r: Request)
    requires Free(db) && Act(db, r).Ok?
    ensures Free(Act(db, r).value) <==> !Reserves(r)
  {
    var db' := Act(db, r).value;
    assert r.name in db';
    assert forall name :: name in db' && name != r.name ==> name in db && db'[name] == db[name];
    assert TYPE_KEY !in DocsOf(db, r.name);
    assert TYPE_KEY in db'[r.name] <==> Reserves(r) by {
      match r
      case BulkInsert(name, ds, draw) => PutStampedKeys(DocsOf(db, name), ds.items, Drawn(draw, |ds.items|));
      case BulkUpdate(name, pairs) =>
        PairsAreThere(db[name], pairs.items);
        MergePairsKeys(db[name], pairs.items);
      case _ =>
    }
  }

  lemma {:induction false} ActAllKeepsFree(db: Collected, rs: seq<Request>)
    requires Free(db) && forall i :: 0 <= i < |rs| ==> !Reserves(rs[i])
    ensures Free(ActAll(db, rs))
    decreases |rs|
  {
    if rs != [] {
      assert !Reserves(rs[0]);
      if Act(db, rs[0]).Ok? {
        ActReserves(db, rs[0]);
      }
      ActAllKeepsFree(Acted(db, rs[0]), rs[1..]);
    }
  }

  lemma SoundIsFree(state: Value)
    requires Sound(state)
    ensures Committable(state) && Free(Content(state))
  {
    SoundIsCommittable(state);
    ReservedByContent(state);
  }

  /**
    An operation on a loaded file that succeeds is always committed, and the
    file loads again exactly when the request did not name the envelope key
    as an id.
   */
  lemma ReservedIdBreaksLoad(state: Value, r: Request, now: Value, later: Value)
    requires Sound(state) && GoodRequest(r) && Apply(state, r).Ok? && now.Scalar? && Encodable(now)
    ensures Commit(Apply(state, r).value, now).Ok?
    ensures Load(Text(Commit(Apply(state, r).value, now).value), later).Ok? <==> !Reserves(r)
  {
    SoundIsFree(state);
    ApplyRefines(state, r);
    ActReserves(Content(state), r);
    CommittedContent(Apply(state, r).value, now, later);
  }

  /** `upsert` does accept that id: it is a non-empty string. */
  lemma UpsertAcceptsReservedId(state: Value, name: string, document: Value)
    requires ValidName(name) && ValidDocument(document) && !Has(document.entries, "id")
    ensures Apply(state, Upsert(name, Str(TYPE_KEY), document)).Ok? && Reserves(Upsert(name, Str(TYPE_KEY), document))
  {
  }

  // ---------- What a file holds ----------

  /** A file that loads, with its content, or one that a reserved id has made unreadable. */
  datatype Base = Fine(db: Collected) | Broken

  ghost function After(db: Collected): Base {
    if Free(db) then Fine(db) else Broken
  }

  ghost predicate GoodTime(now: Value) {
    now.Scalar? && Encodable(now)
  }

  function DiskOf(c: Option<string>): Disk {
    match c
    case None => Disk.Missing
    case Some(text) => Text(text)
  }

  /** What is at the path: no file and an empty database are the same. */
  ghost predicate Holds(c: Option<string>, base: Base) {
    match base
    case Fine(db) =>
      && Free(db) && (c.None? ==> db == map[])
      && (c.Some? ==> forall t :: Load(Text(c.value), t).Ok? && Content(Load(Text(c.value), t).value) == db)
    case Broken => c.Some? && forall t :: Load(Text(c.value), t) == Err(DatabaseFormatError)
  }

  lemma EmptyHoldsNothing(now: Value)
    requires GoodTime(now)
    ensures Sound(EmptyState(now)) && Content(EmptyState(now)) == map[]
  {
    EmptyStateIsSound(now);
  }

  /** Loading gives the content, if there is one. */
  lemma HoldsLoads(c: Option<string>, base: Base, now: Value)
    requires Holds(c, base) && GoodTime(now)
    ensures var r := Load(DiskOf(c), now);
      && (r.Ok? <==> base.Fine?)
      && (r.Ok? ==> Sound(r.value) && Content(r.value) == base.db)
      && (r.Err? ==> r.error == DatabaseFormatError)
  {
    if c.None? {
      EmptyHoldsNothing(now);
    } else if base.Fine? {
      LoadedIsSound(Text(c.value), now);
    }
  }

  /** Committing a fit state leaves a file that holds its content, or one that does not load. */
  lemma CommitHolds(state: Value, now: Value)
    requires Committable(state) && GoodTime(now)
    ensures Commit(state, now).Ok? && Holds(Some(Commit(state, now).value), After(Content(state)))
  {
    CommittedContent(state, now, now);
    var text := Commit(state, now).value;
    forall t
      ensures Load(Text(text), t).Ok? <==> Free(Content(state))
      ensures Load(Text(text), t).Ok? ==> Content(Load(Text(text), t).value) == Content(state)
      ensures Load(Text(text), t).Err? ==> Load(Text(text), t) == Err(DatabaseFormatError)
    {
      CommittedContent(state, now, t);
    }
  }

  lemma ApplyNone(state: Value)
    ensures ApplyAll(state, []) == state
  {
  }

  /** One more operation. */
  lemma {:induction false} ApplyAllOneMore(state: Value, rs: seq<Request>, r: Request)
    ensures ApplyAll(state, rs + [r]) == Applied(ApplyAll(state, rs), r)
    decreases |rs|
  {
    if rs == [] {
      assert ([] + [r])[1..] == [];
    } else {
      ApplyAllOneMore(Applied(state, rs[0]), rs[1..], r);
      assert (rs + [r])[1..] == rs[1..] + [r];
    }
  }
}
