/** How the nested dicts of a state change in place: one document, one collection, one state at a time. */
module InPlace {
  import opened Wrappers
  import opened Dicts
  import opened Values
  import opened Errors
  import opened Storage
  import opened LoadTheorems
  import opened Documents
  import opened Heaps

  /** `d.get(k)` on an object. */
  function Field(h: Cells, x: Item, k: string): Item {
    if x.Object? && x.a in h && h[x.a].DictNode? && Has(h[x.a].entries, k) then Get(h[x.a].entries, k)
    else Immediate(Null)
  }

  /** What a dict reaches other than through field `k`. */
  ghost function Rest(h: Cells, x: Item, es: seq<Entry<Value>>, k: string): set<Address>
    requires Denotes(h, x, Dict(es))
  {
    {x.a} + FootBut(h, h[x.a].entries, es, k)
  }

  lemma FieldOk(h: Cells, x: Item, es: seq<Entry<Value>>, k: string, n: nat)
    requires Owns(h, x, Dict(es), n + 1)
    ensures Has(h[x.a].entries, k) <==> Has(es, k)
    ensures Has(es, k) ==>
      var y := Field(h, x, k);
      && Owns(h, y, Get(es, k), n) && Foot(h, y, Get(es, k)) !! Rest(h, x, es, k)
      && Foot(h, x, Dict(es)) == Rest(h, x, es, k) + Foot(h, y, Get(es, k))
      && Put(h[x.a].entries, k, y) == h[x.a].entries
    ensures !Has(es, k) ==> Foot(h, x, Dict(es)) == Rest(h, x, es, k)
    ensures Rest(h, x, es, k) <= Foot(h, x, Dict(es))
  {
    NoCycle(h, x, Dict(es));
    FieldSplit(h, h[x.a].entries, es, k);
    ButIsWithin(h, h[x.a].entries, es, k);
    if Has(es, k) {
      FieldApart(h, h[x.a].entries, es, k, n);
    }
  }

  /** `x[k] = y`. */
  lemma PartPut(h: Cells, h': Cells, x: Item, es: seq<Entry<Value>>, k: string, y: Item, v: Value)
    requires Denotes(h, x, Dict(es)) && Denotes(h', y, v)
    requires x.a in h' && h'[x.a] == DictNode(Put(h[x.a].entries, k, y))
    requires AgreeOn(h, h', Rest(h, x, es, k) - {x.a})
    ensures Denotes(h', x, Dict(Put(es, k, v)))
    ensures Foot(h', x, Dict(Put(es, k, v))) == Rest(h, x, es, k) + Foot(h', y, v)
  {
    NoCycle(h, x, Dict(es));
    ButIsWithin(h, h[x.a].entries, es, k);
    assert FootBut(h, h[x.a].entries, es, k) <= Rest(h, x, es, k) - {x.a};
    FieldPut(h, h', h[x.a].entries, es, k, y, v);
  }

  /** `x[k] = y`, where `y` shares nothing with the rest of `x`. */
  lemma ObjectPut(h: Cells, h': Cells, x: Item, es: seq<Entry<Value>>, k: string, y: Item, v: Value, n: nat)
    requires Owns(h, x, Dict(es), n + 1) && Owns(h', y, v, n)
    requires x.a in h' && h'[x.a] == DictNode(Put(h[x.a].entries, k, y))
    requires AgreeOn(h, h', Rest(h, x, es, k) - {x.a}) && Foot(h', y, v) !! Rest(h, x, es, k)
    ensures Owns(h', x, Dict(Put(es, k, v)), n + 1)
    ensures Foot(h', x, Dict(Put(es, k, v))) == Rest(h, x, es, k) + Foot(h', y, v)
  {
    PartPut(h, h', x, es, k, y, v);
    NoCycle(h, x, Dict(es));
    ButIsWithin(h, h[x.a].entries, es, k);
    assert FootBut(h, h[x.a].entries, es, k) <= Rest(h, x, es, k) - {x.a};
    FieldPutApart(h, h', h[x.a].entries, es, k, y, v, n);
  }

  // ---------- One collection of a state ----------

  function CollectionItem(h: Cells, root: Item, name: string): Item {
    Field(h, Field(h, root, "collections"), name)
  }

  /** The dicts down to the documents of a collection are there. The shape check sees to it. */
  predicate Nested(state: Value, name: string) {
    && state.Dict? && Has(state.entries, "collections") && Get(state.entries, "collections").Dict?
    && (Has(Collections(state), name) ==> Get(Collections(state), name).Dict?)
  }

  lemma ShapedIsNested(state: Value, name: string)
    requires Shaped(state, false)
    ensures Nested(state, name)
  {
    if Has(Collections(state), name) {
      GetIsDict(Collections(state), name);
    }
  }

  lemma {:induction false} GetIsDict(cs: seq<Entry<Value>>, name: string)
    requires Has(cs, name) && forall i :: 0 <= i < |cs| ==> GoodCollection(cs[i].key, cs[i].val)
    ensures Get(cs, name).Dict?
  {
    assert GoodCollection(cs[0].key, cs[0].val);
    if cs[0].key != name {
      GetIsDict(cs[1..], name);
    }
  }

  /** The object of a collection, and what the state reaches without it. */
  lemma CollectionIs(h: Cells, root: Item, state: Value, name: string)
    requires Rooted(h, root, state) && Nested(state, name) && Has(Collections(state), name)
    ensures var c, docs := CollectionItem(h, root, name), Dict(DocumentsIn(state, name));
      Owns(h, c, docs, 1) && Foot(h, c, docs) <= Foot(h, root, state)
  {
    FieldOk(h, root, state.entries, "collections", 2);
    FieldOk(h, Field(h, root, "collections"), Collections(state), name, 1);
  }

  /** Only what the collection reaches has changed: the state is the one with those documents replaced. */
  lemma CollectionReplaced(h: Cells, h': Cells, root: Item, state: Value, name: string, docs: seq<Entry<Value>>)
    requires Rooted(h, root, state) && Nested(state, name) && Has(Collections(state), name)
    requires Denotes(h, CollectionItem(h, root, name), Dict(DocumentsIn(state, name)))
    requires var c, old' := CollectionItem(h, root, name), Dict(DocumentsIn(state, name));
      && Owns(h', c, Dict(docs), 1)
      && AgreeOn(h, h', Foot(h, root, state) - Foot(h, c, old'))
      && Foot(h', c, Dict(docs)) !! Foot(h, root, state) - Foot(h, c, old')
    ensures Rooted(h', root, WithDocuments(state, name, docs))
    ensures var c, old' := CollectionItem(h, root, name), Dict(DocumentsIn(state, name));
      Foot(h', root, WithDocuments(state, name, docs)) ==
        Foot(h, root, state) - Foot(h, c, old') + Foot(h', c, Dict(docs))
  {
    var x, cs := Field(h, root, "collections"), Collections(state);
    FieldOk(h, root, state.entries, "collections", 2);
    FieldOk(h, x, cs, name, 1);
    ObjectPut(h, h', x, cs, name, CollectionItem(h, root, name), Dict(docs), 1);
    ObjectPut(h, h', root, state.entries, "collections", x, Dict(Put(cs, name, Dict(docs))), 2);
  }

  // ---------- What an operation may do to memory ----------

  /** The state object now denotes `s'`; nothing outside it has changed, and it took in nothing but new objects. */
  ghost predicate Changed(m: Memory, m': Memory, root: Item, s: Value, s': Value) {
    && m.Valid() && m'.Valid() && m.next <= m'.next && Rooted(m.cells, root, s) && Rooted(m'.cells, root, s')
    && (forall a :: a in m.cells && a !in Foot(m.cells, root, s) ==> a in m'.cells && m'.cells[a] == m.cells[a])
    && (forall a :: a in Foot(m'.cells, root, s') ==> a in Foot(m.cells, root, s) || a >= m.next)
  }

  /** What a call left: the new state, or after an error every object as it was. */
  ghost predicate Did(m: Memory, m': Memory, root: Item, s: Value, r: Result<Value, DbError>) {
    match r
    case Ok(s') => Changed(m, m', root, s, s')
    case Err(_) => Grown(m, m')
  }

  lemma GrownChanges(m: Memory, m': Memory, root: Item, s: Value)
    requires Grown(m, m') && Rooted(m.cells, root, s)
    ensures Changed(m, m', root, s, s) && Foot(m'.cells, root, s) == Foot(m.cells, root, s)
  {
    FootAllocated(m.cells, root, s);
    FramedApart(m.cells, m'.cells, root, s, 3);
  }

  lemma ChangedTwice(m: Memory, m1: Memory, m2: Memory, root: Item, s: Value, s1: Value, s2: Value)
    requires Changed(m, m1, root, s, s1) && Changed(m1, m2, root, s1, s2)
    ensures Changed(m, m2, root, s, s2)
  {
  }

  // ---------- The changes operations make ----------

  /** `collections.setdefault(name, {})` when the collection is missing: a new empty dict. */
  function WithCollection(m: Memory, root: Item, name: string): Memory {
    var x := Field(m.cells, root, "collections");
    var m1 := m.New(DictNode([]));
    if x.Object? && x.a in m.cells && m.cells[x.a].DictNode? then
      m1.(cells := m1.cells[x.a := DictNode(Put(m.cells[x.a].entries, name, Object(m.next)))])
    else m1
  }

  lemma CollectionAdded(m: Memory, root: Item, state: Value, name: string)
    requires m.Valid() && Rooted(m.cells, root, state) && Nested(state, name) && !Has(Collections(state), name)
    ensures Changed(m, WithCollection(m, root, name), root, state, WithDocuments(state, name, []))
  {
    var h, m' := m.cells, WithCollection(m, root, name);
    FootAllocated(h, root, state);
    var x, cs := Field(h, root, "collections"), Collections(state);
    FieldOk(h, root, state.entries, "collections", 2);
    FieldOk(h, x, cs, name, 1);
    assert Owns(m'.cells, Object(m.next), Dict([]), 1);
    ObjectPut(h, m'.cells, x, cs, name, Object(m.next), Dict([]), 1);
    ObjectPut(h, m'.cells, root, state.entries, "collections", x, Dict(Put(cs, name, Dict([]))), 2);
  }

  /** `collection[id] = x` for a new object `x`. */
  function Stored(m: Memory, c: Item, id: string, x: Item): Memory {
    if c.Object? && c.a in m.cells && m.cells[c.a].DictNode? then
      m.(cells := m.cells[c.a := DictNode(Put(m.cells[c.a].entries, id, x))])
    else m
  }

  lemma DocumentStored(m: Memory, root: Item, state: Value, name: string, id: string, x: Item, d: Value)
    requires m.Valid() && Rooted(m.cells, root, state) && Nested(state, name) && Has(Collections(state), name)
    requires Denotes(m.cells, x, d) && Foot(m.cells, x, d) !! Foot(m.cells, root, state)
    ensures var m', s' := Stored(m, CollectionItem(m.cells, root, name), id, x),
                          WithDocuments(state, name, Put(DocumentsIn(state, name), id, d));
      && m'.Valid() && m'.next == m.next && Rooted(m'.cells, root, s') && Denotes(m'.cells, x, d)
      && (forall a :: a in m.cells && a !in Foot(m.cells, root, state) ==> a in m'.cells && m'.cells[a] == m.cells[a])
      && Foot(m'.cells, root, s') <= Foot(m.cells, root, state) + Foot(m.cells, x, d)
  {
    var h, c, docs := m.cells, CollectionItem(m.cells, root, name), DocumentsIn(state, name);
    CollectionIs(h, root, state, name);
    FootAllocated(h, root, state);
    FootAllocated(h, x, d);
    FieldOk(h, c, docs, id, 0);
    var h' := Stored(m, c, id, x).cells;
    Framed(h, h', x, d);
    ObjectPut(h, h', c, docs, id, x, d, 0);
    CollectionReplaced(h, h', root, state, name, Put(docs, id, d));
  }

  /** A stored document whose own dict, and nothing else of the state, has changed. */
  lemma DocumentReplaced(
      h: Cells, h': Cells, root: Item, state: Value, name: string, id: string, d: Value, d': Value)
    requires Rooted(h, root, state) && Nested(state, name) && Has(Collections(state), name)
    requires Has(DocumentsIn(state, name), id) && Get(DocumentsIn(state, name), id) == d
    requires Denotes(h, DocumentItem(h, root, name, id), d)
    requires var x := DocumentItem(h, root, name, id);
      && Denotes(h', x, d') && AgreeOn(h, h', Foot(h, root, state) - Foot(h, x, d))
      && Foot(h', x, d') !! Foot(h, root, state) - Foot(h, x, d)
    ensures var s' := WithDocuments(state, name, Put(DocumentsIn(state, name), id, d'));
      var x := DocumentItem(h, root, name, id);
      Rooted(h', root, s') && Foot(h', root, s') <= Foot(h, root, state) + Foot(h', x, d')
  {
    var c, docs := CollectionItem(h, root, name), DocumentsIn(state, name);
    CollectionIs(h, root, state, name);
    FieldOk(h, c, docs, id, 0);
    ObjectPut(h, h', c, docs, id, DocumentItem(h, root, name, id), d', 0);
    CollectionReplaced(h, h', root, state, name, Put(docs, id, d'));
  }

  function DocumentItem(h: Cells, root: Item, name: string, id: string): Item {
    Field(h, CollectionItem(h, root, name), id)
  }

  lemma DocumentIs(h: Cells, root: Item, state: Value, name: string, id: string)
    requires Rooted(h, root, state) && Nested(state, name) && Has(Collections(state), name)
    requires Has(DocumentsIn(state, name), id)
    ensures var x, d := DocumentItem(h, root, name, id), Get(DocumentsIn(state, name), id);
      Denotes(h, x, d) && Foot(h, x, d) <= Foot(h, root, state)
  {
    CollectionIs(h, root, state, name);
    FieldOk(h, CollectionItem(h, root, name), DocumentsIn(state, name), id, 0);
  }

  /** `x.update(y)` for dict objects `x` and `y`. */
  function Updated(m: Memory, x: Item, y: Item): Memory {
    if x.Object? && x.a in m.cells && m.cells[x.a].DictNode? &&
       y.Object? && y.a in m.cells && m.cells[y.a].DictNode? then
      m.(cells := m.cells[x.a := DictNode(PutAll(m.cells[x.a].entries, m.cells[y.a].entries))])
    else m
  }

  lemma {:induction false} FieldsPutAll(
      h: Cells, xs: seq<Entry<Item>>, es: seq<Entry<Value>>, ys: seq<Entry<Item>>, os: seq<Entry<Value>>)
    requires DenotesFields(h, xs, es) && DenotesFields(h, ys, os)
    ensures DenotesFields(h, PutAll(xs, ys), PutAll(es, os))
    ensures FootFields(h, PutAll(xs, ys), PutAll(es, os)) <= FootFields(h, xs, es) + FootFields(h, ys, os)
    decreases |os|
  {
    if os != [] {
      var k := os[0].key;
      ButIsWithin(h, xs, es, k);
      FieldsAllocated(h, xs, es);
      FieldPut(h, h, xs, es, k, ys[0].val, os[0].val);
      FieldsPutAll(h, Put(xs, k, ys[0].val), Put(es, k, os[0].val), ys[1..], os[1..]);
    }
  }

  lemma UpdatedOk(m: Memory, x: Item, d: Value, y: Item, u: Value)
    requires m.Valid() && d.Dict? && u.Dict? && Denotes(m.cells, x, d) && Denotes(m.cells, y, u)
    requires Foot(m.cells, x, d) !! Foot(m.cells, y, u)
    ensures var h' := Updated(m, x, y).cells;
      && Denotes(h', x, Merge(d, u)) && Foot(h', x, Merge(d, u)) <= Foot(m.cells, x, d) + Foot(m.cells, y, u)
  {
    var h, h' := m.cells, Updated(m, x, y).cells;
    var xs, ys := h[x.a].entries, h[y.a].entries;
    NoCycle(h, x, d);
    FieldsAllocated(h, xs, d.entries);
    FieldsAllocated(h, ys, u.entries);
    FieldsPutAll(h, xs, d.entries, ys, u.entries);
    FramedFields(h, h', PutAll(xs, ys), PutAll(d.entries, u.entries));
  }

  lemma DocumentMerged(m: Memory, root: Item, state: Value, name: string, id: string, y: Item, u: Value)
    requires m.Valid() && Rooted(m.cells, root, state) && Nested(state, name) && Has(Collections(state), name)
    requires Has(DocumentsIn(state, name), id) && Get(DocumentsIn(state, name), id).Dict? && u.Dict?
    requires Denotes(m.cells, y, u) && Foot(m.cells, y, u) !! Foot(m.cells, root, state)
    ensures var d := Get(DocumentsIn(state, name), id);
      var m', s' := Updated(m, DocumentItem(m.cells, root, name, id), y),
                    WithDocuments(state, name, Put(DocumentsIn(state, name), id, Merge(d, u)));
      && m'.Valid() && m'.next == m.next && Rooted(m'.cells, root, s')
      && Denotes(m'.cells, DocumentItem(m.cells, root, name, id), Merge(d, u))
      && (forall a :: a in m.cells && a !in Foot(m.cells, root, state) ==> a in m'.cells && m'.cells[a] == m.cells[a])
      && Foot(m'.cells, root, s') <= Foot(m.cells, root, state) + Foot(m.cells, y, u)
  {
    var h, x, d := m.cells, DocumentItem(m.cells, root, name, id), Get(DocumentsIn(state, name), id);
    DocumentIs(h, root, state, name, id);
    FootAllocated(h, root, state);
    UpdatedOk(m, x, d, y, u);
    DocumentReplaced(h, Updated(m, x, y).cells, root, state, name, id, d, Merge(d, u));
  }

  /** `del collection[id]`. */
  function Deleted(m: Memory, c: Item, id: string): Memory {
    if c.Object? && c.a in m.cells && m.cells[c.a].DictNode? then
      m.(cells := m.cells[c.a := DictNode(Remove(m.cells[c.a].entries, id))])
    else m
  }

  lemma DocumentDeleted(m: Memory, root: Item, state: Value, name: string, id: string)
    requires m.Valid() && Rooted(m.cells, root, state) && Nested(state, name) && Has(Collections(state), name)
    ensures Changed(m, Deleted(m, CollectionItem(m.cells, root, name), id), root, state,
                    WithDocuments(state, name, Remove(DocumentsIn(state, name), id)))
  {
    var h, c, docs := m.cells, CollectionItem(m.cells, root, name), DocumentsIn(state, name);
    var h' := Deleted(m, c, id).cells;
    CollectionIs(h, root, state, name);
    FootAllocated(h, root, state);
    var xs := h[c.a].entries;
    FieldRemoved(h, xs, docs, id, 0);
    ButIsWithin(h, xs, docs, id);
    NoCycle(h, c, Dict(docs));
    FramedApartFields(h, h', Remove(xs, id), Remove(docs, id), 0);
    CollectionReplaced(h, h', root, state, name, Remove(docs, id));
  }
}
