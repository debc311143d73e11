/** json_database/collection.py: the operations, changing the nested dicts of a state in place. */
module CollectionOps {
  import opened Wrappers
  import opened Dicts
  import opened Values
  import opened CanonicalText
  import opened Errors
  import opened Storage
  import opened LoadTheorems
  import opened Documents
  import opened Store
  import opened Heaps
  import opened DeepCopies
  import opened InPlace
  import Query

  // ---------- Steps put together ----------

  /** The state once `_ensure_collection` has run. */
  function Ensured(state: Value, name: string): Value {
    if Has(Collections(state), name) then state else WithDocuments(state, name, [])
  }

  lemma EnsuredOk(state: Value, name: string, docs: seq<Entry<Value>>)
    requires Nested(state, name)
    ensures var s := Ensured(state, name);
      && Nested(s, name) && Has(Collections(s), name) && DocumentsIn(s, name) == DocumentsIn(state, name)
      && WithDocuments(s, name, docs) == WithDocuments(state, name, docs)
  {
    if !Has(Collections(state), name) {
      WithDocumentsTwice(state, name, [], docs);
    }
  }

  /** An object of one's own: new since `m`, and not part of the state. */
  ghost predicate Private(m: Memory, m': Memory, root: Item, s: Value, x: Item, v: Value) {
    && Denotes(m'.cells, x, v) && Between(Foot(m'.cells, x, v), m.next, m'.next)
    && Rooted(m'.cells, root, s) && Foot(m'.cells, x, v) !! Foot(m'.cells, root, s)
  }

  lemma StoredChanges(
      m: Memory, m1: Memory, root: Item, s: Value, s1: Value, name: string, id: string, x: Item, d: Value)
    requires Changed(m, m1, root, s, s1) && Nested(s1, name) && Has(Collections(s1), name)
    requires Private(m, m1, root, s1, x, d)
    ensures Changed(m, Stored(m1, CollectionItem(m1.cells, root, name), id, x), root, s,
                    WithDocuments(s1, name, Put(DocumentsIn(s1, name), id, d)))
    ensures Denotes(Stored(m1, CollectionItem(m1.cells, root, name), id, x).cells, x, d)
  {
    DocumentStored(m1, root, s1, name, id, x, d);
  }

  lemma MergedChanges(
      m: Memory, m1: Memory, root: Item, s: Value, name: string, id: string, y: Item, u: Value)
    requires Changed(m, m1, root, s, s) && Nested(s, name) && Has(Collections(s), name)
    requires Has(DocumentsIn(s, name), id) && Get(DocumentsIn(s, name), id).Dict? && u.Dict?
    requires Private(m, m1, root, s, y, u)
    ensures Changed(m, Updated(m1, DocumentItem(m1.cells, root, name, id), y), root, s,
                    WithDocuments(s, name, Put(DocumentsIn(s, name), id, Merge(Get(DocumentsIn(s, name), id), u))))
    ensures var x := DocumentItem(m1.cells, root, name, id);
      Denotes(Updated(m1, x, y).cells, x, Merge(Get(DocumentsIn(s, name), id), u))
  {
    DocumentMerged(m1, root, s, name, id, y, u);
  }

  /** Setting the id in a fresh copy. */
  lemma IdStored(m: Memory, m1: Memory, y: Item, id: string, d: Value)
    requires Grown(m, m1) && d.Dict? && Denotes(m1.cells, y, d) && Between(Foot(m1.cells, y, d), m.next, m1.next)
    ensures var m' := Stored(m1, y, "id", Immediate(Str(id)));
      && Grown(m, m') && Denotes(m'.cells, y, WithId(d, id))
      && Between(Foot(m'.cells, y, WithId(d, id)), m.next, m'.next)
  {
    var m' := Stored(m1, y, "id", Immediate(Str(id)));
    FootAllocated(m1.cells, y, d);
    ButIsWithin(m1.cells, m1.cells[y.a].entries, d.entries, "id");
    NoCycle(m1.cells, y, d);
    PartPut(m1.cells, m'.cells, y, d.entries, "id", Immediate(Str(id)), Str(id));
    assert y.a in Foot(m1.cells, y, d);
  }

  lemma NewIsPrivate(m: Memory, m': Memory, root: Item, s: Value, x: Item, v: Value)
    requires Grown(m, m') && Rooted(m.cells, root, s)
    requires Denotes(m'.cells, x, v) && Between(Foot(m'.cells, x, v), m.next, m'.next)
    ensures Private(m, m', root, s, x, v) && Changed(m, m', root, s, s)
  {
    FootAllocated(m.cells, root, s);
    GrownChanges(m, m', root, s);
  }

  /** An object of one's own stays so while the state changes. */
  lemma StaysPrivate(m: Memory, m1: Memory, m2: Memory, root: Item, s: Value, s1: Value, x: Item, v: Value)
    requires Private(m, m1, root, s, x, v) && Changed(m1, m2, root, s, s1)
    ensures Private(m, m2, root, s1, x, v)
  {
    FootAllocated(m1.cells, x, v);
    Framed(m1.cells, m2.cells, x, v);
  }

  /** Objects created after a change leave it as it was. */
  lemma ChangedThenGrown(m: Memory, m1: Memory, m2: Memory, root: Item, s: Value, s1: Value)
    requires Changed(m, m1, root, s, s1) && Grown(m1, m2)
    ensures Changed(m, m2, root, s, s1)
  {
    GrownChanges(m1, m2, root, s1);
    ChangedTwice(m, m1, m2, root, s, s1, s1);
  }

  lemma DocumentIsDict(s: Value, name: string, id: string)
    requires Shaped(s, false) && Has(Collections(s), name) && Has(DocumentsIn(s, name), id)
    ensures Get(DocumentsIn(s, name), id).Dict?
  {
    HasIsKey(Collections(s), name);
    var i := IndexOfKey(Collections(s), name);
    FirstDocument(Collections(s), name);
    HasIsKey(DocumentsIn(s, name), id);
    var j := IndexOfKey(DocumentsIn(s, name), id);
    assert GoodDocument(DocumentsIn(s, name)[j].key, DocumentsIn(s, name)[j].val);
  }

  lemma {:induction false} FirstDocument(cs: seq<Entry<Value>>, name: string)
    requires Has(cs, name) && forall i :: 0 <= i < |cs| ==> GoodCollection(cs[i].key, cs[i].val)
    ensures GoodCollection(name, Get(cs, name))
  {
    assert GoodCollection(cs[0].key, cs[0].val);
    if cs[0].key != name {
      FirstDocument(cs[1..], name);
    }
  }

  lemma SameDocument(m: Memory, m1: Memory, root: Item, s: Value, name: string, id: string)
    requires Grown(m, m1) && Rooted(m.cells, root, s) && Nested(s, name) && Has(Collections(s), name)
    requires Has(DocumentsIn(s, name), id)
    ensures DocumentItem(m1.cells, root, name, id) == DocumentItem(m.cells, root, name, id)
  {
    FieldOk(m.cells, root, s.entries, "collections", 2);
    FieldOk(m.cells, Field(m.cells, root, "collections"), Collections(s), name, 1);
  }

  /** Objects that denote the given documents, new and shared neither with the state nor with each other. */
  ghost predicate Copies(m: Memory, m': Memory, root: Item, s: Value, xs: seq<Item>, docs: seq<Entry<Value>>) {
    && |xs| == |docs|
    && (forall i :: 0 <= i < |xs| ==> Private(m, m', root, s, xs[i], docs[i].val))
    && (forall i, j :: 0 <= i < j < |xs| ==>
          Foot(m'.cells, xs[i], docs[i].val) !! Foot(m'.cells, xs[j], docs[j].val))
  }

  lemma CopiesGrow(
      m: Memory, m1: Memory, m2: Memory, root: Item, s: Value, xs: seq<Item>, docs: seq<Entry<Value>>,
      y: Item, e: Entry<Value>)
    requires Copies(m, m1, root, s, xs, docs) && Grown(m1, m2) && m.next <= m1.next
    requires Private(m1, m2, root, s, y, e.val) && Rooted(m1.cells, root, s)
    ensures Copies(m, m2, root, s, xs + [y], docs + [e])
  {
    GrownChanges(m1, m2, root, s);
    forall i | 0 <= i < |xs|
      ensures Private(m, m2, root, s, xs[i], docs[i].val)
      ensures Foot(m2.cells, xs[i], docs[i].val) == Foot(m1.cells, xs[i], docs[i].val)
    {
      assert Private(m, m1, root, s, xs[i], docs[i].val);
      FootAllocated(m1.cells, xs[i], docs[i].val);
      Framed(m1.cells, m2.cells, xs[i], docs[i].val);
    }
    var zs, ds := xs + [y], docs + [e];
    forall i, j | 0 <= i < j < |zs|
      ensures Foot(m2.cells, zs[i], ds[i].val) !! Foot(m2.cells, zs[j], ds[j].val)
    {
      assert Private(m, m1, root, s, xs[i], docs[i].val);
    }
  }

  /** The documents of a collection, without their ids. */
  function DocumentValues(docs: seq<Entry<Value>>): (r: seq<Value>)
    ensures |r| == |docs| && forall i :: 0 <= i < |docs| ==> r[i] == docs[i].val
  {
    seq(|docs|, i requires 0 <= i < |docs| => docs[i].val)
  }

  /** What `find_documents` returns. */
  function FindDocuments(s: Value, name: string, criteria: Value): Result<seq<Value>, DbError>
    requires Shaped(s, false)
  {
    DocumentsAreDicts(s, name);
    if !ValidName(name) then Err(ValidationError)
    else match Query.Refusal(DocumentValues(DocumentsIn(s, name)), criteria)
      case Some(e) => Err(e)
      case None => Ok(Query.Kept(DocumentValues(DocumentsIn(s, name)), criteria))
  }

  /** Objects of the caller's own that denote the given values. */
  ghost predicate Handed(m: Memory, m': Memory, root: Item, s: Value, xs: seq<Item>, vs: seq<Value>) {
    |xs| == |vs| && forall i :: 0 <= i < |xs| ==> Private(m, m', root, s, xs[i], vs[i])
  }

  lemma SomeHanded(
      m: Memory, m': Memory, root: Item, s: Value, xs: seq<Item>, docs: seq<Entry<Value>>, ys: seq<Item>,
      vs: seq<Value>, at: seq<nat>)
    requires Copies(m, m', root, s, xs, docs) && Query.Chosen(DocumentValues(docs), vs, at)
    requires |ys| == |at| && forall k :: 0 <= k < |at| ==> ys[k] == xs[at[k]]
    ensures Handed(m, m', root, s, ys, vs)
  {
    forall k | 0 <= k < |ys| ensures Private(m, m', root, s, ys[k], vs[k]) {
      assert Private(m, m', root, s, xs[at[k]], docs[at[k]].val);
    }
  }

  lemma StillDenotes(m: Memory, m1: Memory, xs: seq<Entry<Item>>, es: seq<Entry<Value>>, i: nat)
    requires Grown(m, m1) && DenotesFields(m.cells, xs, es) && i < |es|
    ensures Denotes(m1.cells, xs[i].val, es[i].val)
  {
    FieldsAt(m.cells, xs, es, i);
    FootAllocated(m.cells, xs[i].val, es[i].val);
    Framed(m.cells, m1.cells, xs[i].val, es[i].val);
  }

  lemma {:induction false} FieldsAt(h: Cells, xs: seq<Entry<Item>>, es: seq<Entry<Value>>, i: nat)
    requires DenotesFields(h, xs, es) && i < |es|
    ensures xs[i].key == es[i].key && Denotes(h, xs[i].val, es[i].val)
    ensures Foot(h, xs[i].val, es[i].val) <= FootFields(h, xs, es)
    decreases i
  {
    if i > 0 {
      FieldsAt(h, xs[1..], es[1..], i - 1);
    }
  }

  lemma {:induction false} ItemsAt(h: Cells, xs: seq<Item>, vs: seq<Value>, i: nat)
    requires DenotesItems(h, xs, vs) && i < |vs|
    ensures Denotes(h, xs[i], vs[i]) && Foot(h, xs[i], vs[i]) <= FootItems(h, xs, vs)
    decreases i
  {
    if i > 0 {
      ItemsAt(h, xs[1..], vs[1..], i - 1);
    }
  }

  /** Changes to the state do not touch what the caller passed in. */
  lemma ListUndisturbed(m: Memory, m1: Memory, root: Item, s: Value, t: Value, xs: seq<Item>, vs: seq<Value>)
    requires Changed(m, m1, root, s, t) && DenotesItems(m.cells, xs, vs)
    requires FootItems(m.cells, xs, vs) !! Foot(m.cells, root, s)
    ensures DenotesItems(m1.cells, xs, vs) && FootItems(m1.cells, xs, vs) !! Foot(m1.cells, root, t)
  {
    ItemsAllocated(m.cells, xs, vs);
    FramedItems(m.cells, m1.cells, xs, vs);
  }

  lemma ItemUndisturbed(
      m: Memory, m1: Memory, root: Item, s: Value, t: Value, xs: seq<Item>, vs: seq<Value>, i: nat)
    requires Changed(m, m1, root, s, t) && DenotesItems(m.cells, xs, vs) && i < |vs|
    requires FootItems(m.cells, xs, vs) !! Foot(m.cells, root, s)
    ensures Denotes(m1.cells, xs[i], vs[i])
  {
    ListUndisturbed(m, m1, root, s, t, xs, vs);
    ItemsAt(m1.cells, xs, vs, i);
  }

  lemma EnsuredIsWith(s: Value, name: string)
    requires Shaped(s, false)
    ensures Ensured(s, name) == WithDocuments(s, name, DocumentsIn(s, name))
  {
    if Has(Collections(s), name) {
      OwnDocuments(s, name);
    }
  }

  lemma AllNewAreDicts(ds: seq<Value>)
    requires forall i :: 0 <= i < |ds| ==> NewDocument(ds[i])
    ensures forall i :: 0 <= i < |ds| ==> ds[i].Dict?
  {
    forall i | 0 <= i < |ds| ensures ds[i].Dict? {
      assert NewDocument(ds[i]);
    }
  }

  lemma {:induction false} PutNewSnoc(docs: seq<Entry<Value>>, news: seq<Value>, uuids: seq<string>)
    requires |news| == |uuids| > 0 && forall i :: 0 <= i < |news| ==> news[i].Dict?
    ensures var n := |news| - 1;
      PutNew(docs, news, uuids) == Put(PutNew(docs, news[..n], uuids[..n]), uuids[n], WithId(news[n], uuids[n]))
    decreases |news|
  {
    if |news| > 1 {
      var n := |news| - 1;
      PutNewSnoc(Put(docs, uuids[0], WithId(news[0], uuids[0])), news[1..], uuids[1..]);
      assert news[..n][1..] == news[1..][..n - 1] && uuids[..n][1..] == uuids[1..][..n - 1];
    }
  }

  lemma PutNewNext(docs: seq<Entry<Value>>, news: seq<Value>, uuids: seq<string>, i: nat)
    requires |news| == |uuids| && i < |news| && forall j :: 0 <= j < |news| ==> news[j].Dict?
    ensures PutNew(docs, news[..i + 1], uuids[..i + 1]) ==
      Put(PutNew(docs, news[..i], uuids[..i]), uuids[i], WithId(news[i], uuids[i]))
  {
    PutNewSnoc(docs, news[..i + 1], uuids[..i + 1]);
    assert news[..i + 1][..i] == news[..i] && uuids[..i + 1][..i] == uuids[..i];
  }

  // ---------- bulk_update ----------

  /** An id and an update object within what the caller passed in. */
  ghost predicate NormalPair(h: Cells, foot: set<Address>, n: (string, Item), p: Value) {
    IsPair(p) && p.items[0] == Str(n.0) && Denotes(h, n.1, p.items[1]) && Foot(h, n.1, p.items[1]) <= foot
  }

  ghost predicate Normalized(h: Cells, foot: set<Address>, ns: seq<(string, Item)>, ps: seq<Value>) {
    |ns| == |ps| && forall j :: 0 <= j < |ns| ==> NormalPair(h, foot, ns[j], ps[j])
  }

  lemma PairUndisturbed(
      m: Memory, m1: Memory, root: Item, s: Value, t: Value, foot: set<Address>, n: (string, Item), p: Value)
    requires Changed(m, m1, root, s, t) && NormalPair(m.cells, foot, n, p) && foot !! Foot(m.cells, root, s)
    ensures Denotes(m1.cells, n.1, p.items[1])
  {
    FootAllocated(m.cells, n.1, p.items[1]);
    Framed(m.cells, m1.cells, n.1, p.items[1]);
  }

  ghost predicate AllDicts(docs: seq<Entry<Value>>) {
    forall i :: 0 <= i < |docs| ==> docs[i].val.Dict?
  }

  lemma {:induction false} DictAt(docs: seq<Entry<Value>>, id: string)
    requires AllDicts(docs) && Has(docs, id)
    ensures Get(docs, id).Dict?
  {
    if docs[0].key != id {
      DictAt(docs[1..], id);
    }
  }

  lemma DocumentsAreDicts(s: Value, name: string)
    requires Shaped(s, false)
    ensures AllDicts(DocumentsIn(s, name))
  {
    if Has(Collections(s), name) {
      FirstDocument(Collections(s), name);
      var docs := DocumentsIn(s, name);
      forall i | 0 <= i < |docs| ensures docs[i].val.Dict? {
        assert GoodDocument(docs[i].key, docs[i].val);
      }
    }
  }

  lemma PutAllDicts(docs: seq<Entry<Value>>, id: string, d: Value)
    requires AllDicts(docs) && d.Dict?
    ensures AllDicts(Put(docs, id, d))
  {
    PutFrom(docs, id, d);
    forall i | 0 <= i < |Put(docs, id, d)| ensures Put(docs, id, d)[i].val.Dict? {
      if Put(docs, id, d)[i] in docs {
        var j :| 0 <= j < |docs| && docs[j] == Put(docs, id, d)[i];
      }
    }
  }

  ghost predicate PairsThere(docs: seq<Entry<Value>>, ps: seq<Value>) {
    forall i :: 0 <= i < |ps| ==> GoodPair(ps[i]) && Has(docs, ps[i].items[0].s)
  }

  lemma FirstMerged(docs: seq<Entry<Value>>, ps: seq<Value>)
    requires ps != [] && AllDicts(docs) && PairsThere(docs, ps)
    ensures GoodPair(ps[0]) && Has(docs, ps[0].items[0].s)
    ensures var id := ps[0].items[0].s; var docs' := Put(docs, id, Merge(Get(docs, id), ps[0].items[1]));
      AllDicts(docs') && PairsThere(docs', ps[1..])
  {
    var id := ps[0].items[0].s;
    var d := Merge(Get(docs, id), ps[0].items[1]);
    PutAllDicts(docs, id, d);
    forall i | 0 <= i < |ps[1..]| ensures GoodPair(ps[1..][i]) && Has(Put(docs, id, d), ps[1..][i].items[0].s) {
      assert ps[1..][i] == ps[i + 1];
      PutHas(docs, id, d, ps[i + 1].items[0].s);
    }
  }

  /** One pair more: the document is there, and is merged on top of the earlier pairs. */
  lemma {:induction false} MergeAllSnoc(docs: seq<Entry<Value>>, ps: seq<Value>)
    requires ps != [] && AllDicts(docs) && PairsThere(docs, ps)
    ensures GoodPair(ps[|ps| - 1])
    ensures var n := |ps| - 1; var id, merged := ps[n].items[0].s, MergeAll(docs, ps[..n]);
      && Has(merged, id) && Get(merged, id).Dict?
      && MergeAll(docs, ps) == Put(merged, id, Merge(Get(merged, id), ps[n].items[1]))
    decreases |ps|
  {
    hide Put, Merge, NewDocument, AllDicts, Has, Get;
    var n, id := |ps| - 1, ps[0].items[0].s;
    FirstMerged(docs, ps);
    if n > 0 {
      MergeAllSnoc(Put(docs, id, Merge(Get(docs, id), ps[0].items[1])), ps[1..]);
      assert ps[..n][1..] == ps[1..][..n - 1];
    } else {
      DictAt(docs, id);
    }
  }

  lemma MergeAllNext(docs: seq<Entry<Value>>, ps: seq<Value>, i: nat)
    requires i < |ps| && AllDicts(docs)
    requires PairsThere(docs, ps)
    ensures GoodPair(ps[i])
    ensures var id, merged := ps[i].items[0].s, MergeAll(docs, ps[..i]);
      && Has(merged, id) && Get(merged, id).Dict?
      && MergeAll(docs, ps[..i + 1]) == Put(merged, id, Merge(Get(merged, id), ps[i].items[1]))
  {
    MergeAllSnoc(docs, ps[..i + 1]);
    assert ps[..i + 1][..i] == ps[..i] && ps[..i + 1][i] == ps[i];
  }

  lemma PairParts(h: Cells, x: Item, p: Value)
    requires Denotes(h, x, p) && IsPair(p) && p.items[1].Dict?
    ensures x.Object? && x.a in h && (h[x.a].ListNode? || h[x.a].TupleNode?) && |h[x.a].items| == 2
    ensures Denotes(h, h[x.a].items[1], p.items[1]) && Foot(h, h[x.a].items[1], p.items[1]) <= Foot(h, x, p)
  {
    assert p.items[1..][0] == p.items[1] && !AllImmediate(p.items[1..]);
    assert !AllImmediate(p.items) && !IsImmediate(p);
    ItemsAt(h, h[x.a].items, p.items, 1);
  }

  /** The memory of a Python process. */
  class Process {
    var m: Memory

    constructor (m: Memory)
      ensures this.m == m
    {
      this.m := m;
    }

    /** `copy.deepcopy`: new objects, apart from all old ones, that share with each other what the originals do. */
    method DeepCopy(x: Item, ghost v: Value) returns (y: Item)
      requires m.Valid() && Denotes(m.cells, x, v)
      modifies this
      ensures Grown(old(m), m) && Denotes(m.cells, y, v) && Between(Foot(m.cells, y, v), old(m).next, m.next)
      ensures IsCopy(old(m).cells, m, old(m).next, x, y)
    {
      hide Denotes, Copy, Memoed, ItemCopied, Foot;
      CopyStarts(m);
      CopyOk(m.cells, m, m.next, map[], x, v);
      var (m', memo, copy) := Copy(m.cells, m, map[], x, v);
      CopyIsNew(m.cells, m', m.next, x, copy, v);
      m, y := m', copy;
    }

    /** A deep copy of a document, to be stored: with its id set. */
    method CopyWithId(x: Item, id: string, root: Item, ghost s: Value, ghost d: Value) returns (y: Item)
      requires m.Valid() && Denotes(m.cells, x, d) && d.Dict? && Rooted(m.cells, root, s)
      modifies this
      ensures Grown(old(m), m) && Private(old(m), m, root, s, y, WithId(d, id))
      ensures Changed(old(m), m, root, s, s)
    {
      y := DeepCopy(x, d);
      IdStored(old(m), m, y, id, d);
      m := Stored(m, y, "id", Immediate(Str(id)));
      NewIsPrivate(old(m), m, root, s, y, WithId(d, id));
    }

    /** `_ensure_collection`. */
    method EnsureCollection(root: Item, name: string, ghost s: Value) returns (r: Result<Item, DbError>)
      requires m.Valid() && Rooted(m.cells, root, s) && Nested(s, name)
      modifies this
      ensures !ValidName(name) ==> r == Err(ValidationError) && m == old(m)
      ensures ValidName(name) ==>
        && Changed(old(m), m, root, s, Ensured(s, name)) && r == Ok(CollectionItem(m.cells, root, name))
    {
      if !ValidName(name) {
        return Err(ValidationError);
      }
      FieldOk(m.cells, root, s.entries, "collections", 2);
      FieldOk(m.cells, Field(m.cells, root, "collections"), Collections(s), name, 1);
      var collections := Field(m.cells, root, "collections");
      if !Has(m.cells[collections.a].entries, name) {
        CollectionAdded(m, root, s, name);
        m := WithCollection(m, root, name);
      }
      r := Ok(CollectionItem(m.cells, root, name));
    }

    /** The end of every operation that stores a whole document. */
    method StoreDocument(
        root: Item, name: string, id: string, document: Item, ghost s: Value, ghost d: Value)
      returns (r: Result<Item, DbError>)
      requires m.Valid() && Rooted(m.cells, root, s) && Nested(s, name) && Denotes(m.cells, document, d) && d.Dict?
      modifies this
      ensures Did(old(m), m, root, s,
        if ValidName(name) then Ok(WithDocuments(s, name, Put(DocumentsIn(s, name), id, WithId(d, id))))
        else Err(ValidationError))
      ensures if ValidName(name) then r.Ok? else r == Err(ValidationError)
      ensures r.Ok? ==> Denotes(m.cells, r.value, WithId(d, id))
    {
      var stored := CopyWithId(document, id, root, s, d);
      ghost var m1 := m;
      var c :- EnsureCollection(root, name, s);
      StaysPrivate(old(m), m1, m, root, s, Ensured(s, name), stored, WithId(d, id));
      EnsuredOk(s, name, Put(DocumentsIn(s, name), id, WithId(d, id)));
      StoredChanges(old(m), m, root, s, Ensured(s, name), name, id, stored, WithId(d, id));
      m := Stored(m, c, id, stored);
      r := Ok(stored);
    }

    method Insert(root: Item, name: string, document: Item, uuid: string, ghost s: Value, ghost d: Value)
      returns (r: Result<string, DbError>)
      requires m.Valid() && Rooted(m.cells, root, s) && Shaped(s, false) && Denotes(m.cells, document, d)
      modifies this
      ensures Did(old(m), m, root, s, InsertDocument(s, name, d, uuid))
      ensures r == InsertDocument(s, name, d, uuid).Map(_ => uuid)
    {
      ShapedIsNested(s, name);
      var v := Read(m.cells, document, d);
      if !ValidDocument(v) || Has(v.entries, "id") {
        return Err(ValidationError);
      }
      var _ :- StoreDocument(root, name, uuid, document, s, d);
      r := Ok(uuid);
    }

    method Upsert(root: Item, name: string, id: Value, document: Item, ghost s: Value, ghost d: Value)
      returns (r: Result<Value, DbError>)
      requires m.Valid() && Rooted(m.cells, root, s) && Shaped(s, false) && Denotes(m.cells, document, d)
      modifies this
      ensures Did(old(m), m, root, s, UpsertDocument(s, name, id, d))
      ensures r == UpsertDocument(s, name, id, d).Map(_ => id)
    {
      ShapedIsNested(s, name);
      if !ValidId(id) {
        return Err(ValidationError);
      }
      var v := Read(m.cells, document, d);
      if !ValidDocument(v) || !BodyIdMatches(v, id) {
        return Err(ValidationError);
      }
      var _ :- StoreDocument(root, name, id.s, document, s, d);
      r := Ok(id);
    }

    /** `_get_document_ref`: the stored object itself. */
    method Lookup(root: Item, name: string, id: Value, ghost s: Value) returns (r: Result<Item, DbError>)
      requires m.Valid() && Rooted(m.cells, root, s) && Nested(s, name)
      ensures match LookupError(s, name, id)
        case Some(e) => r == Err(e)
        case None => r == Ok(DocumentItem(m.cells, root, name, id.s))
    {
      if !ValidId(id) || !ValidName(name) {
        return Err(ValidationError);
      }
      FieldOk(m.cells, root, s.entries, "collections", 2);
      var collections := Field(m.cells, root, "collections");
      FieldOk(m.cells, collections, Collections(s), name, 1);
      if !Has(m.cells[collections.a].entries, name) {
        return Err(NotFoundError);
      }
      var documents := Field(m.cells, collections, name);
      FieldOk(m.cells, documents, DocumentsIn(s, name), id.s, 0);
      if !Has(m.cells[documents.a].entries, id.s) {
        return Err(NotFoundError);
      }
      r := Ok(Field(m.cells, documents, id.s));
    }

    /** A copy, for the caller, of an object that belongs to the state. */
    method CopyForCaller(
        x: Item, ghost before: Memory, root: Item, ghost s: Value, ghost s': Value, ghost v: Value) returns (y: Item)
      requires Changed(before, m, root, s, s') && Denotes(m.cells, x, v)
      modifies this
      ensures Changed(before, m, root, s, s') && Private(before, m, root, s', y, v) && Grown(old(m), m)
      ensures IsCopy(old(m).cells, m, old(m).next, x, y)
    {
      y := DeepCopy(x, v);
      NewIsPrivate(old(m), m, root, s', y, v);
      ChangedThenGrown(before, old(m), m, root, s, s');
    }

    /** `get_document`. */
    method GetDocument(root: Item, name: string, id: Value, ghost s: Value) returns (r: Result<Item, DbError>)
      requires m.Valid() && Rooted(m.cells, root, s) && Shaped(s, false)
      modifies this
      ensures Grown(old(m), m)
      ensures match LookupError(s, name, id)
        case Some(e) => r == Err(e)
        case None =>
          && r.Ok? && Private(old(m), m, root, s, r.value, Get(DocumentsIn(s, name), id.s))
          && IsCopy(old(m).cells, m, old(m).next, DocumentItem(old(m).cells, root, name, id.s), r.value)
    {
      ShapedIsNested(s, name);
      GrownChanges(m, m, root, s);
      var x :- Lookup(root, name, id, s);
      DocumentIs(m.cells, root, s, name, id.s);
      var y := CopyForCaller(x, m, root, s, s, Get(DocumentsIn(s, name), id.s));
      r := Ok(y);
    }

    /** `document.update(copy.deepcopy(updates))` on a stored document. */
    method MergeInto(root: Item, name: string, id: string, updates: Item, ghost s: Value, ghost u: Value)
      requires m.Valid() && Rooted(m.cells, root, s) && Nested(s, name) && Has(Collections(s), name)
      requires Has(DocumentsIn(s, name), id) && Get(DocumentsIn(s, name), id).Dict?
      requires Denotes(m.cells, updates, u) && u.Dict?
      modifies this
      ensures var d := Get(DocumentsIn(s, name), id);
        && Changed(old(m), m, root, s, WithDocuments(s, name, Put(DocumentsIn(s, name), id, Merge(d, u))))
        && Denotes(m.cells, DocumentItem(old(m).cells, root, name, id), Merge(d, u))
    {
      DocumentIs(m.cells, root, s, name, id);
      FootAllocated(m.cells, root, s);
      var copy := DeepCopy(updates, u);
      NewIsPrivate(old(m), m, root, s, copy, u);
      SameDocument(old(m), m, root, s, name, id);
      MergedChanges(old(m), m, root, s, name, id, copy, u);
      m := Updated(m, DocumentItem(m.cells, root, name, id), copy);
    }

    method Update(root: Item, name: string, id: Value, updates: Item, ghost s: Value, ghost u: Value)
      returns (r: Result<Item, DbError>)
      requires m.Valid() && Rooted(m.cells, root, s) && Shaped(s, false) && Denotes(m.cells, updates, u)
      modifies this
      ensures Did(old(m), m, root, s, UpdateDocument(s, name, id, u))
      ensures match UpdateDocument(s, name, id, u)
        case Err(e) => r == Err(e)
        case Ok(s') => r.Ok? && Private(old(m), m, root, s', r.value, Merge(Get(DocumentsIn(s, name), id.s), u))
    {
      ShapedIsNested(s, name);
      var v := Read(m.cells, updates, u);
      if !ValidDocument(v) || Has(v.entries, "id") {
        return Err(ValidationError);
      }
      var x :- Lookup(root, name, id, s);
      DocumentIsDict(s, name, id.s);
      MergeInto(root, name, id.s, updates, s, u);
      ghost var d' := Merge(Get(DocumentsIn(s, name), id.s), u);
      var y := CopyForCaller(x, old(m), root, s, WithDocuments(s, name, Put(DocumentsIn(s, name), id.s, d')), d');
      r := Ok(y);
    }

    method Replace(root: Item, name: string, id: Value, document: Item, ghost s: Value, ghost d: Value)
      returns (r: Result<Item, DbError>)
      requires m.Valid() && Rooted(m.cells, root, s) && Shaped(s, false) && Denotes(m.cells, document, d)
      modifies this
      ensures Did(old(m), m, root, s, ReplaceDocument(s, name, id, d))
      ensures match ReplaceDocument(s, name, id, d)
        case Err(e) => r == Err(e)
        case Ok(s') => r.Ok? && Private(old(m), m, root, s', r.value, WithId(d, id.s))
    {
      ShapedIsNested(s, name);
      var v := Read(m.cells, document, d);
      if !ValidDocument(v) {
        return Err(ValidationError);
      }
      if BodyIdRaises(v, id) {
        return Err(InvalidOperation);
      }
      if !BodyIdMatches(v, id) {
        return Err(ValidationError);
      }
      var _ :- Lookup(root, name, id, s);
      var stored := StoreDocument(root, name, id.s, document, s, d);
      ghost var s' := WithDocuments(s, name, Put(DocumentsIn(s, name), id.s, WithId(d, id.s)));
      var y := CopyForCaller(stored.value, old(m), root, s, s', WithId(d, id.s));
      r := Ok(y);
    }

    method Delete(root: Item, name: string, id: Value, ghost s: Value) returns (r: Result<(), DbError>)
      requires m.Valid() && Rooted(m.cells, root, s) && Shaped(s, false)
      modifies this
      ensures Did(old(m), m, root, s, DeleteDocument(s, name, id))
      ensures r == DeleteDocument(s, name, id).Map(_ => ())
    {
      ShapedIsNested(s, name);
      var _ :- Lookup(root, name, id, s);
      DocumentDeleted(m, root, s, name, id.s);
      m := Deleted(m, CollectionItem(m.cells, root, name), id.s);
      r := Ok(());
    }

    /** `[copy.deepcopy(document) for document in documents.values()]`. */
    method CopyAll(documents: seq<Entry<Item>>, root: Item, ghost s: Value, ghost docs: seq<Entry<Value>>)
      returns (copies: seq<Item>)
      requires m.Valid() && Rooted(m.cells, root, s) && DenotesFields(m.cells, documents, docs)
      modifies this
      ensures Grown(old(m), m) && Copies(old(m), m, root, s, copies, docs)
    {
      copies := [];
      var i := 0;
      while i < |documents|
        invariant 0 <= i == |copies| <= |documents| == |docs|
        invariant Grown(old(m), m) && Rooted(m.cells, root, s)
        invariant Copies(old(m), m, root, s, copies, docs[..i])
      {
        StillDenotes(old(m), m, documents, docs, i);
        ghost var m1 := m;
        var y := DeepCopy(documents[i].val, docs[i].val);
        NewIsPrivate(m1, m, root, s, y, docs[i].val);
        CopiesGrow(old(m), m1, m, root, s, copies, docs[..i], y, docs[i]);
        assert docs[..i + 1] == docs[..i] + [docs[i]];
        copies := copies + [y];
        i := i + 1;
      }
      assert docs[..i] == docs;
    }

    /** `all_documents`: copies of all documents, in order; a missing collection has none. */
    method All(root: Item, name: string, ghost s: Value) returns (r: Result<seq<Item>, DbError>)
      requires m.Valid() && Rooted(m.cells, root, s) && Shaped(s, false)
      modifies this
      ensures Grown(old(m), m)
      ensures if !ValidName(name) then r == Err(ValidationError)
        else r.Ok? && Copies(old(m), m, root, s, r.value, DocumentsIn(s, name))
    {
      ShapedIsNested(s, name);
      if !ValidName(name) {
        return Err(ValidationError);
      }
      FieldOk(m.cells, root, s.entries, "collections", 2);
      var collections := Field(m.cells, root, "collections");
      FieldOk(m.cells, collections, Collections(s), name, 1);
      if !Has(m.cells[collections.a].entries, name) {
        return Ok([]);
      }
      var copies := CopyAll(m.cells[Field(m.cells, collections, name).a].entries, root, s, DocumentsIn(s, name));
      r := Ok(copies);
    }

    /** The values a list of objects stands for. */
    method ReadAll(xs: seq<Item>, ghost docs: seq<Entry<Value>>) returns (vs: seq<Value>)
      requires |xs| == |docs| && forall i :: 0 <= i < |xs| ==> Denotes(m.cells, xs[i], docs[i].val)
      ensures vs == DocumentValues(docs)
    {
      vs := [];
      for i := 0 to |xs|
        invariant |vs| == i && forall j :: 0 <= j < i ==> vs[j] == docs[j].val
      {
        vs := vs + [Read(m.cells, xs[i], docs[i].val)];
      }
    }

    /** `find_documents`: all documents are copied, and the copies of those that satisfy the criteria are returned. */
    method Find(root: Item, name: string, criteria: Item, ghost s: Value, ghost c: Value)
      returns (r: Result<seq<Item>, DbError>)
      requires m.Valid() && Rooted(m.cells, root, s) && Shaped(s, false) && Denotes(m.cells, criteria, c)
      modifies this
      ensures Grown(old(m), m)
      ensures match FindDocuments(s, name, c)
        case Err(e) => r == Err(e)
        case Ok(vs) => r.Ok? && Handed(old(m), m, root, s, r.value, vs)
    {
      DocumentsAreDicts(s, name);
      var read := Read(m.cells, criteria, c);
      var copies :- All(root, name, s);
      ghost var docs := DocumentsIn(s, name);
      forall i | 0 <= i < |copies| ensures Denotes(m.cells, copies[i], docs[i].val) {
        assert Private(old(m), m, root, s, copies[i], docs[i].val);
      }
      var documents := ReadAll(copies, docs);
      var kept, at := Query.FilterDocuments(documents, read);
      if kept.Err? {
        return Err(kept.error);
      }
      var found := seq(|at|, k requires 0 <= k < |at| => copies[at[k]]);
      SomeHanded(old(m), m, root, s, copies, docs, found, kept.value, at);
      r := Ok(found);
    }

    /** `Transaction.state`, and `dump` inside a transaction. */
    method Dump(root: Item, ghost s: Value) returns (y: Item)
      requires m.Valid() && Rooted(m.cells, root, s)
      modifies this
      ensures Grown(old(m), m) && Private(old(m), m, root, s, y, s)
    {
      y := DeepCopy(root, s);
      NewIsPrivate(old(m), m, root, s, y, s);
    }

    /** `copy.deepcopy(load())`: a transaction's own state. */
    method WorkingCopy(root: Item, ghost s: Value) returns (y: Item)
      requires m.Valid() && Rooted(m.cells, root, s)
      modifies this
      ensures Grown(old(m), m) && Rooted(m.cells, y, s) && Between(Foot(m.cells, y, s), old(m).next, m.next)
    {
      y := DeepCopy(root, s);
      CopyIsRooted(old(m).cells, m, old(m).next, root, y, s);
    }

    method CheckNewDocuments(items: seq<Item>, ghost ds: seq<Value>) returns (r: Result<(), DbError>)
      requires DenotesItems(m.cells, items, ds)
      ensures r == if exists i :: 0 <= i < |ds| && !NewDocument(ds[i]) then Err(ValidationError) else Ok(())
    {
      var i := 0;
      while i < |items|
        invariant 0 <= i <= |items| == |ds|
        invariant forall j :: 0 <= j < i ==> NewDocument(ds[j])
      {
        ItemsAt(m.cells, items, ds, i);
        var v := Read(m.cells, items[i], ds[i]);
        if !NewDocument(v) {
          return Err(ValidationError);
        }
        i := i + 1;
      }
      r := Ok(());
    }

    /** `collection_state[id] = stored` for a copy of one document. */
    method PutCopy(
        ghost before: Memory, root: Item, name: string, id: string, document: Item,
        ghost s: Value, ghost docs: seq<Entry<Value>>, ghost d: Value)
      requires s.Dict? && Changed(before, m, root, s, WithDocuments(s, name, docs))
      requires Denotes(m.cells, document, d) && d.Dict?
      modifies this
      ensures Changed(before, m, root, s, WithDocuments(s, name, Put(docs, id, WithId(d, id))))
    {
      ghost var t := WithDocuments(s, name, docs);
      WithDocumentsTwice(s, name, docs, Put(docs, id, WithId(d, id)));
      var stored := CopyWithId(document, id, root, t, d);
      StoredChanges(old(m), m, root, t, t, name, id, stored, WithId(d, id));
      m := Stored(m, CollectionItem(m.cells, root, name), id, stored);
      ChangedTwice(before, old(m), m, root, s, t, WithDocuments(s, name, Put(docs, id, WithId(d, id))));
    }

    /** The second loop of `bulk_insert_documents`. */
    method StoreAll(
        ghost before: Memory, root: Item, name: string, ids: seq<string>, items: seq<Item>,
        ghost s: Value, ghost docs: seq<Entry<Value>>, ghost ds: seq<Value>)
      requires s.Dict? && Changed(before, m, root, s, WithDocuments(s, name, docs))
      requires DenotesItems(before.cells, items, ds)
      requires FootItems(before.cells, items, ds) !! Foot(before.cells, root, s)
      requires |ids| == |ds| && forall i :: 0 <= i < |ds| ==> ds[i].Dict?
      modifies this
      ensures Changed(before, m, root, s, WithDocuments(s, name, PutNew(docs, ds, ids)))
    {
      var i := 0;
      while i < |items|
        invariant 0 <= i <= |items| == |ds|
        invariant Changed(before, m, root, s, WithDocuments(s, name, PutNew(docs, ds[..i], ids[..i])))
      {
        ItemUndisturbed(before, m, root, s, WithDocuments(s, name, PutNew(docs, ds[..i], ids[..i])), items, ds, i);
        PutNewNext(docs, ds, ids, i);
        PutCopy(before, root, name, ids[i], items[i], s, PutNew(docs, ds[..i], ids[..i]), ds[i]);
        i := i + 1;
      }
      assert ds[..i] == ds && ids[..i] == ids;
    }

    /** `bulk_insert_documents`: all documents are checked before the first is stored. */
    method BulkInsert(
        root: Item, name: string, documents: Item, draw: nat -> string, ghost s: Value, ghost ds: Value)
      returns (r: Result<seq<string>, DbError>)
      requires m.Valid() && Rooted(m.cells, root, s) && Shaped(s, false)
      requires Denotes(m.cells, documents, ds) && Foot(m.cells, documents, ds) !! Foot(m.cells, root, s)
      modifies this
      ensures Did(old(m), m, root, s, BulkInsertDocuments(s, name, ds, draw))
      ensures match BulkInsertDocuments(s, name, ds, draw)
        case Ok(_) => ds.List? && r == Ok(Drawn(draw, |ds.items|))
        case Err(e) => r == Err(e)
    {
      ShapedIsNested(s, name);
      if !(documents.Object? && m.cells[documents.a].ListNode?) {
        return Err(ValidationError);
      }
      var items := m.cells[documents.a].items;
      var _ :- CheckNewDocuments(items, ds.items);
      var ids := Drawn(draw, |items|);
      var _ :- EnsureCollection(root, name, s);
      EnsuredIsWith(s, name);
      AllNewAreDicts(ds.items);
      StoreAll(old(m), root, name, ids, items, s, DocumentsIn(s, name), ds.items);
      r := Ok(ids);
    }

    /** What the first loop of `bulk_update_documents` does with one item. */
    method CheckPair(
        documents: seq<Entry<Item>>, x: Item, ghost foot: set<Address>, ghost docs: seq<Entry<Value>>, ghost p: Value)
      returns (r: Result<(string, Item), DbError>)
      requires DenotesFields(m.cells, documents, docs) && Denotes(m.cells, x, p) && Foot(m.cells, x, p) <= foot
      ensures match PairError(docs, p)
        case Some(e) => r == Err(e)
        case None => r.Ok? && NormalPair(m.cells, foot, r.value, p)
    {
      var v := Read(m.cells, x, p);
      if !IsPair(v) || !ValidId(v.items[0]) {
        return Err(ValidationError);
      }
      FieldSplit(m.cells, documents, docs, v.items[0].s);
      if !Has(documents, v.items[0].s) {
        return Err(NotFoundError);
      }
      if !NewDocument(v.items[1]) {
        return Err(ValidationError);
      }
      PairParts(m.cells, x, p);
      r := Ok((v.items[0].s, m.cells[x.a].items[1]));
    }

    /** The first loop of `bulk_update_documents`: the pairs, or the first error. */
    method CheckPairs(
        documents: seq<Entry<Item>>, items: seq<Item>, ghost docs: seq<Entry<Value>>, ghost ps: seq<Value>)
      returns (r: Result<seq<(string, Item)>, DbError>)
      requires DenotesFields(m.cells, documents, docs) && DenotesItems(m.cells, items, ps)
      ensures match FirstError(docs, ps)
        case Some(e) => r == Err(e)
        case None => r.Ok? && Normalized(m.cells, FootItems(m.cells, items, ps), r.value, ps)
    {
      hide NormalPair, PairError;
      var normalized: seq<(string, Item)> := [];
      var i := 0;
      assert ps[0..] == ps;
      while i < |items|
        invariant 0 <= i == |normalized| <= |items| == |ps|
        invariant FirstError(docs, ps) == FirstError(docs, ps[i..])
        invariant forall j :: 0 <= j < i ==> NormalPair(m.cells, FootItems(m.cells, items, ps), normalized[j], ps[j])
      {
        ItemsAt(m.cells, items, ps, i);
        assert ps[i..][0] == ps[i] && ps[i..][1..] == ps[i + 1..];
        var pair :- CheckPair(documents, items[i], FootItems(m.cells, items, ps), docs, ps[i]);
        normalized := normalized + [pair];
        i := i + 1;
      }
      r := Ok(normalized);
    }

    /** One step of the second loop: a stored document takes in a copy of its updates. */
    method MergeCopy(
        ghost before: Memory, root: Item, name: string, id: string, updates: Item,
        ghost s: Value, ghost docs: seq<Entry<Value>>, ghost u: Value)
      requires s.Dict? && Changed(before, m, root, s, WithDocuments(s, name, docs))
      requires Has(docs, id) && Get(docs, id).Dict? && Denotes(m.cells, updates, u) && u.Dict?
      modifies this
      ensures Changed(before, m, root, s, WithDocuments(s, name, Put(docs, id, Merge(Get(docs, id), u))))
    {
      ghost var t := WithDocuments(s, name, docs);
      WithDocumentsTwice(s, name, docs, Put(docs, id, Merge(Get(docs, id), u)));
      MergeInto(root, name, id, updates, t, u);
      ChangedTwice(before, old(m), m, root, s, t, WithDocuments(s, name, Put(docs, id, Merge(Get(docs, id), u))));
    }

    method MergeEach(
        root: Item, name: string, pairs: seq<(string, Item)>, ghost foot: set<Address>,
        ghost s: Value, ghost docs: seq<Entry<Value>>, ghost ps: seq<Value>)
      requires s.Dict? && Rooted(m.cells, root, s) && WithDocuments(s, name, docs) == s && m.Valid()
      requires Normalized(m.cells, foot, pairs, ps) && foot !! Foot(m.cells, root, s)
      requires AllDicts(docs) && PairsThere(docs, ps)
      modifies this
      ensures Changed(old(m), m, root, s, WithDocuments(s, name, MergeAll(docs, ps)))
    {
      hide Changed, WithDocuments, Put, Merge, Has, Get, Denotes, Foot, Rooted, PairError;
      GrownChanges(m, m, root, s);
      ghost var before := m;
      var i := 0;
      while i < |pairs|
        invariant 0 <= i <= |pairs| == |ps|
        invariant Changed(before, m, root, s, WithDocuments(s, name, MergeAll(docs, ps[..i])))
      {
        MergeAllNext(docs, ps, i);
        PairUndisturbed(before, m, root, s, WithDocuments(s, name, MergeAll(docs, ps[..i])), foot, pairs[i], ps[i]);
        MergeCopy(before, root, name, pairs[i].0, pairs[i].1, s, MergeAll(docs, ps[..i]), ps[i].items[1]);
        i := i + 1;
      }
      assert ps[..i] == ps;
    }

    /** `_get_collection_ref`: the documents that are stored under a name. */
    method DocumentsOf(root: Item, name: string, ghost s: Value) returns (r: Result<seq<Entry<Item>>, DbError>)
      requires m.Valid() && Rooted(m.cells, root, s) && Nested(s, name)
      ensures if !ValidName(name) then r == Err(ValidationError)
        else if !Has(Collections(s), name) then r == Err(NotFoundError)
        else r.Ok? && DenotesFields(m.cells, r.value, DocumentsIn(s, name))
    {
      if !ValidName(name) {
        return Err(ValidationError);
      }
      FieldOk(m.cells, root, s.entries, "collections", 2);
      var collections := Field(m.cells, root, "collections");
      FieldOk(m.cells, collections, Collections(s), name, 1);
      if !Has(m.cells[collections.a].entries, name) {
        return Err(NotFoundError);
      }
      r := Ok(m.cells[Field(m.cells, collections, name).a].entries);
    }

    /** `bulk_update_documents`: nothing is changed before every pair has been checked. */
    method BulkUpdate(root: Item, name: string, updates: Item, ghost s: Value, ghost us: Value)
      returns (r: Result<nat, DbError>)
      requires m.Valid() && Rooted(m.cells, root, s) && Shaped(s, false)
      requires Denotes(m.cells, updates, us) && Foot(m.cells, updates, us) !! Foot(m.cells, root, s)
      modifies this
      ensures Did(old(m), m, root, s, BulkUpdateDocuments(s, name, us))
      ensures match BulkUpdateDocuments(s, name, us)
        case Ok(_) => us.List? && r == Ok(|us.items|)
        case Err(e) => r == Err(e)
    {
      ShapedIsNested(s, name);
      if !(updates.Object? && m.cells[updates.a].ListNode?) {
        return Err(ValidationError);
      }
      var documents :- DocumentsOf(root, name, s);
      var items := m.cells[updates.a].items;
      ghost var docs := DocumentsIn(s, name);
      var pairs :- CheckPairs(documents, items, docs, us.items);
      OwnDocuments(s, name);
      DocumentsAreDicts(s, name);
      NoErrorMeansGood(docs, us.items);
      MergeEach(root, name, pairs, FootItems(m.cells, items, us.items), s, docs, us.items);
      r := Ok(|pairs|);
    }
  }
}
