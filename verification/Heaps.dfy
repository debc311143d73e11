/** Python objects in memory: which object denotes which value, what it reaches, and what a deep copy is. */
module Heaps {
  import opened Dicts
  import opened Values

  type Address = nat

  /** A value in a variable or a container: immutable, or the address of an object. */
  datatype Item = Immediate(v: Value) | Object(a: Address)

  /** Members of a set are hashable, hence immutable. */
  datatype Node =
    | DictNode(entries: seq<Entry<Item>>)
    | ListNode(items: seq<Item>)
    | TupleNode(items: seq<Item>)
    | SetNode(members: seq<Value>)

  type Cells = map<Address, Node>

  /** Atoms, and tuples of nothing but these: what Python cannot change in place. */
  predicate IsImmediate(v: Value)
    decreases v, 1
  {
    match v
    case Dict(_) | List(_) | Set(_) => false
    case Tuple(vs) => AllImmediate(vs)
    case _ => true
  }

  predicate AllImmediate(vs: seq<Value>)
    decreases vs, 0
  {
    vs == [] || (IsImmediate(vs[0]) && AllImmediate(vs[1..]))
  }

  // ---------- What an object denotes ----------

  ghost predicate Denotes(h: Cells, x: Item, v: Value)
    decreases v, 1
  {
    if IsImmediate(v) then x == Immediate(v)
    else
      x.Object? && x.a in h &&
      match v
      case Dict(es) => h[x.a].DictNode? && DenotesFields(h, h[x.a].entries, es)
      case List(vs) => h[x.a].ListNode? && DenotesItems(h, h[x.a].items, vs)
      case Tuple(vs) => h[x.a].TupleNode? && DenotesItems(h, h[x.a].items, vs)
      case Set(ms) => h[x.a] == SetNode(ms)
      case _ => false
  }

  ghost predicate DenotesFields(h: Cells, xs: seq<Entry<Item>>, es: seq<Entry<Value>>)
    decreases es, 0
  {
    |xs| == |es| &&
    (es != [] ==> xs[0].key == es[0].key && Denotes(h, xs[0].val, es[0].val) && DenotesFields(h, xs[1..], es[1..]))
  }

  ghost predicate DenotesItems(h: Cells, xs: seq<Item>, vs: seq<Value>)
    decreases vs, 0
  {
    |xs| == |vs| && (vs != [] ==> Denotes(h, xs[0], vs[0]) && DenotesItems(h, xs[1..], vs[1..]))
  }

  /** The addresses reachable from an object. */
  ghost function Foot(h: Cells, x: Item, v: Value): set<Address>
    requires Denotes(h, x, v)
    decreases v, 1
  {
    if x.Immediate? then {}
    else
      {x.a} +
      match v
      case Dict(es) => FootFields(h, h[x.a].entries, es)
      case List(vs) => FootItems(h, h[x.a].items, vs)
      case Tuple(vs) => FootItems(h, h[x.a].items, vs)
      case _ => {}
  }

  ghost function FootFields(h: Cells, xs: seq<Entry<Item>>, es: seq<Entry<Value>>): set<Address>
    requires DenotesFields(h, xs, es)
    decreases es, 0
  {
    if es == [] then {} else Foot(h, xs[0].val, es[0].val) + FootFields(h, xs[1..], es[1..])
  }

  ghost function FootItems(h: Cells, xs: seq<Item>, vs: seq<Value>): set<Address>
    requires DenotesItems(h, xs, vs)
    decreases vs, 0
  {
    if vs == [] then {} else Foot(h, xs[0], vs[0]) + FootItems(h, xs[1..], vs[1..])
  }

  /** `n` levels of dicts whose fields share nothing with one another. */
  ghost predicate Apart(h: Cells, x: Item, v: Value, n: nat)
    requires Denotes(h, x, v)
    decreases v, 1
  {
    v.Dict? && n > 0 ==> ApartFields(h, h[x.a].entries, v.entries, n - 1)
  }

  ghost predicate ApartFields(h: Cells, xs: seq<Entry<Item>>, es: seq<Entry<Value>>, n: nat)
    requires DenotesFields(h, xs, es)
    decreases es, 0
  {
    es != [] ==>
      && Apart(h, xs[0].val, es[0].val, n) && ApartFields(h, xs[1..], es[1..], n)
      && Foot(h, xs[0].val, es[0].val) !! FootFields(h, xs[1..], es[1..])
  }

  /** `x` denotes `v` and shares nothing between the fields of its upper `n` levels. */
  ghost predicate Owns(h: Cells, x: Item, v: Value, n: nat) {
    Denotes(h, x, v) && Apart(h, x, v, n)
  }

  /**
    A state: its meta block, its dict of collections, the collections and the
    documents are all separate. Inside a document objects may be shared.
   */
  ghost predicate Rooted(h: Cells, root: Item, s: Value) {
    Owns(h, root, s, 3)
  }

  // ---------- An object denotes one value, and is no part of itself ----------

  lemma {:induction false} DenotesOne(h: Cells, x: Item, v: Value, w: Value)
    requires Denotes(h, x, v) && Denotes(h, x, w)
    ensures v == w
    decreases v, 1
  {
    if !IsImmediate(v) {
      match v
      case Dict(es) => SameFields(h, h[x.a].entries, es, w.entries);
      case List(vs) => SameItems(h, h[x.a].items, vs, w.items);
      case Tuple(vs) => SameItems(h, h[x.a].items, vs, w.items);
      case _ =>
    }
  }

  lemma {:induction false} SameFields(h: Cells, xs: seq<Entry<Item>>, es: seq<Entry<Value>>, fs: seq<Entry<Value>>)
    requires DenotesFields(h, xs, es) && DenotesFields(h, xs, fs)
    ensures es == fs
    decreases es, 0
  {
    if es != [] {
      DenotesOne(h, xs[0].val, es[0].val, fs[0].val);
      SameFields(h, xs[1..], es[1..], fs[1..]);
      assert es == [es[0]] + es[1..] && fs == [fs[0]] + fs[1..];
    }
  }

  lemma {:induction false} SameItems(h: Cells, xs: seq<Item>, vs: seq<Value>, ws: seq<Value>)
    requires DenotesItems(h, xs, vs) && DenotesItems(h, xs, ws)
    ensures vs == ws
    decreases vs, 0
  {
    if vs != [] {
      DenotesOne(h, xs[0], vs[0], ws[0]);
      SameItems(h, xs[1..], vs[1..], ws[1..]);
      assert vs == [vs[0]] + vs[1..] && ws == [ws[0]] + ws[1..];
    }
  }

  /** How deeply containers are nested. */
  function Depth(v: Value): nat
    decreases v, 1
  {
    match v
    case Dict(es) => 1 + DepthFields(es)
    case List(vs) => 1 + DepthItems(vs)
    case Tuple(vs) => 1 + DepthItems(vs)
    case _ => 0
  }

  function Max(a: nat, b: nat): nat {
    if a < b then b else a
  }

  function DepthFields(es: seq<Entry<Value>>): nat
    decreases es, 0
  {
    if es == [] then 0 else Max(Depth(es[0].val), DepthFields(es[1..]))
  }

  function DepthItems(vs: seq<Value>): nat
    decreases vs, 0
  {
    if vs == [] then 0 else Max(Depth(vs[0]), DepthItems(vs[1..]))
  }

  /** What an object reaches is nested no deeper. */
  lemma {:induction false} FootDepth(h: Cells, x: Item, v: Value, a: Address, w: Value)
    requires Denotes(h, x, v) && a in Foot(h, x, v) && Denotes(h, Object(a), w)
    ensures Depth(w) <= Depth(v)
    decreases v, 1
  {
    if x == Object(a) {
      DenotesOne(h, x, v, w);
    } else {
      match v
      case Dict(es) => FootDepthFields(h, h[x.a].entries, es, a, w);
      case List(vs) => FootDepthItems(h, h[x.a].items, vs, a, w);
      case Tuple(vs) => FootDepthItems(h, h[x.a].items, vs, a, w);
    }
  }

  lemma {:induction false} FootDepthFields(
      h: Cells, xs: seq<Entry<Item>>, es: seq<Entry<Value>>, a: Address, w: Value)
    requires DenotesFields(h, xs, es) && a in FootFields(h, xs, es) && Denotes(h, Object(a), w)
    ensures Depth(w) <= DepthFields(es)
    decreases es, 0
  {
    if a in Foot(h, xs[0].val, es[0].val) {
      FootDepth(h, xs[0].val, es[0].val, a, w);
    } else {
      FootDepthFields(h, xs[1..], es[1..], a, w);
    }
  }

  lemma {:induction false} FootDepthItems(h: Cells, xs: seq<Item>, vs: seq<Value>, a: Address, w: Value)
    requires DenotesItems(h, xs, vs) && a in FootItems(h, xs, vs) && Denotes(h, Object(a), w)
    ensures Depth(w) <= DepthItems(vs)
    decreases vs, 0
  {
    if a in Foot(h, xs[0], vs[0]) {
      FootDepth(h, xs[0], vs[0], a, w);
    } else {
      FootDepthItems(h, xs[1..], vs[1..], a, w);
    }
  }

  /** An object that denotes a value is not among what its parts reach. */
  lemma NoCycle(h: Cells, x: Item, v: Value)
    requires Denotes(h, x, v) && x.Object?
    ensures match v
      case Dict(es) => x.a !in FootFields(h, h[x.a].entries, es)
      case List(vs) => x.a !in FootItems(h, h[x.a].items, vs)
      case Tuple(vs) => x.a !in FootItems(h, h[x.a].items, vs)
      case _ => true
  {
    match v
    case Dict(es) =>
      if x.a in FootFields(h, h[x.a].entries, es) {
        FootDepthFields(h, h[x.a].entries, es, x.a, v);
      }
    case List(vs) =>
      if x.a in FootItems(h, h[x.a].items, vs) {
        FootDepthItems(h, h[x.a].items, vs, x.a, v);
      }
    case Tuple(vs) =>
      if x.a in FootItems(h, h[x.a].items, vs) {
        FootDepthItems(h, h[x.a].items, vs, x.a, v);
      }
    case _ =>
  }

  // ---------- Framing ----------

  ghost predicate AgreeOn(h: Cells, h': Cells, s: set<Address>) {
    forall a :: a in s ==> a in h && a in h' && h'[a] == h[a]
  }

  /** What an object denotes depends only on what it reaches. */
  lemma {:induction false} Framed(h: Cells, h': Cells, x: Item, v: Value)
    requires Denotes(h, x, v) && AgreeOn(h, h', Foot(h, x, v))
    ensures Denotes(h', x, v) && Foot(h', x, v) == Foot(h, x, v)
    decreases v, 1
  {
    if x.Object? {
      assert x.a in Foot(h, x, v);
      match v
      case Dict(es) => FramedFields(h, h', h[x.a].entries, es);
      case List(vs) => FramedItems(h, h', h[x.a].items, vs);
      case Tuple(vs) => FramedItems(h, h', h[x.a].items, vs);
      case _ =>
    }
  }

  lemma {:induction false} FramedFields(h: Cells, h': Cells, xs: seq<Entry<Item>>, es: seq<Entry<Value>>)
    requires DenotesFields(h, xs, es) && AgreeOn(h, h', FootFields(h, xs, es))
    ensures DenotesFields(h', xs, es) && FootFields(h', xs, es) == FootFields(h, xs, es)
    decreases es, 0
  {
    if es != [] {
      Framed(h, h', xs[0].val, es[0].val);
      FramedFields(h, h', xs[1..], es[1..]);
    }
  }

  lemma {:induction false} FramedItems(h: Cells, h': Cells, xs: seq<Item>, vs: seq<Value>)
    requires DenotesItems(h, xs, vs) && AgreeOn(h, h', FootItems(h, xs, vs))
    ensures DenotesItems(h', xs, vs) && FootItems(h', xs, vs) == FootItems(h, xs, vs)
    decreases vs, 0
  {
    if vs != [] {
      Framed(h, h', xs[0], vs[0]);
      FramedItems(h, h', xs[1..], vs[1..]);
    }
  }

  lemma {:induction false} FramedApart(h: Cells, h': Cells, x: Item, v: Value, n: nat)
    requires Owns(h, x, v, n) && AgreeOn(h, h', Foot(h, x, v))
    ensures Owns(h', x, v, n) && Foot(h', x, v) == Foot(h, x, v)
    decreases v, 1
  {
    Framed(h, h', x, v);
    if v.Dict? && n > 0 {
      FramedApartFields(h, h', h[x.a].entries, v.entries, n - 1);
    }
  }

  lemma {:induction false} FramedApartFields(
      h: Cells, h': Cells, xs: seq<Entry<Item>>, es: seq<Entry<Value>>, n: nat)
    requires DenotesFields(h, xs, es) && ApartFields(h, xs, es, n) && AgreeOn(h, h', FootFields(h, xs, es))
    ensures DenotesFields(h', xs, es) && ApartFields(h', xs, es, n)
    ensures FootFields(h', xs, es) == FootFields(h, xs, es)
    decreases es, 0
  {
    if es != [] {
      FramedApart(h, h', xs[0].val, es[0].val, n);
      FramedApartFields(h, h', xs[1..], es[1..], n);
    }
  }

  // ---------- Replacing one field of a dict ----------

  /** What the fields other than (the first) `k` reach. */
  ghost function FootBut(h: Cells, xs: seq<Entry<Item>>, es: seq<Entry<Value>>, k: string): set<Address>
    requires DenotesFields(h, xs, es)
    decreases es
  {
    if es == [] then {}
    else if es[0].key == k then FootFields(h, xs[1..], es[1..])
    else Foot(h, xs[0].val, es[0].val) + FootBut(h, xs[1..], es[1..], k)
  }

  /** `d[k] = x` in a dict whose other fields were left alone. */
  lemma {:induction false} FieldPut(
      h: Cells, h': Cells, xs: seq<Entry<Item>>, es: seq<Entry<Value>>, k: string, x: Item, v: Value)
    requires DenotesFields(h, xs, es) && Denotes(h', x, v) && AgreeOn(h, h', FootBut(h, xs, es, k))
    ensures DenotesFields(h', Put(xs, k, x), Put(es, k, v))
    ensures FootFields(h', Put(xs, k, x), Put(es, k, v)) == FootBut(h, xs, es, k) + Foot(h', x, v)
    decreases es
  {
    hide Denotes, Foot;
    if es == [] {
      FirstField(h', k, x, v, [], []);
    } else if es[0].key == k {
      FramedFields(h, h', xs[1..], es[1..]);
      FirstField(h', k, x, v, xs[1..], es[1..]);
    } else {
      Framed(h, h', xs[0].val, es[0].val);
      FieldPut(h, h', xs[1..], es[1..], k, x, v);
      FirstField(h', es[0].key, xs[0].val, es[0].val, Put(xs[1..], k, x), Put(es[1..], k, v));
    }
  }

  lemma FirstField(h: Cells, k: string, x: Item, v: Value, xs: seq<Entry<Item>>, es: seq<Entry<Value>>)
    requires Denotes(h, x, v) && DenotesFields(h, xs, es)
    ensures var xs', es' := [Entry(k, x)] + xs, [Entry(k, v)] + es;
      DenotesFields(h, xs', es') && FootFields(h, xs', es') == Foot(h, x, v) + FootFields(h, xs, es)
  {
    assert ([Entry(k, x)] + xs)[1..] == xs && ([Entry(k, v)] + es)[1..] == es;
  }

  lemma {:induction false} FieldPutApart(
      h: Cells, h': Cells, xs: seq<Entry<Item>>, es: seq<Entry<Value>>, k: string, x: Item, v: Value, n: nat)
    requires DenotesFields(h, xs, es) && ApartFields(h, xs, es, n) && Owns(h', x, v, n)
    requires AgreeOn(h, h', FootBut(h, xs, es, k)) && Foot(h', x, v) !! FootBut(h, xs, es, k)
    ensures DenotesFields(h', Put(xs, k, x), Put(es, k, v)) && ApartFields(h', Put(xs, k, x), Put(es, k, v), n)
    decreases es
  {
    hide Denotes, Apart, Foot;
    if es == [] {
      FirstApart(h', k, x, v, [], [], n);
    } else if es[0].key == k {
      FramedApartFields(h, h', xs[1..], es[1..], n);
      FirstApart(h', k, x, v, xs[1..], es[1..], n);
    } else {
      FramedApart(h, h', xs[0].val, es[0].val, n);
      ButIsWithin(h, xs[1..], es[1..], k);
      FieldPut(h, h', xs[1..], es[1..], k, x, v);
      FieldPutApart(h, h', xs[1..], es[1..], k, x, v, n);
      FirstApart(h', es[0].key, xs[0].val, es[0].val, Put(xs[1..], k, x), Put(es[1..], k, v), n);
    }
  }

  lemma FirstApart(h: Cells, k: string, x: Item, v: Value, xs: seq<Entry<Item>>, es: seq<Entry<Value>>, n: nat)
    requires Owns(h, x, v, n) && DenotesFields(h, xs, es) && ApartFields(h, xs, es, n)
    requires Foot(h, x, v) !! FootFields(h, xs, es)
    ensures var xs', es' := [Entry(k, x)] + xs, [Entry(k, v)] + es;
      DenotesFields(h, xs', es') && ApartFields(h, xs', es', n)
  {
    assert ([Entry(k, x)] + xs)[1..] == xs && ([Entry(k, v)] + es)[1..] == es;
  }

  lemma {:induction false} ButIsWithin(h: Cells, xs: seq<Entry<Item>>, es: seq<Entry<Value>>, k: string)
    requires DenotesFields(h, xs, es)
    ensures FootBut(h, xs, es, k) <= FootFields(h, xs, es)
    decreases es
  {
    if es != [] && es[0].key != k {
      ButIsWithin(h, xs[1..], es[1..], k);
    }
  }

  /** `del d[k]`. */
  lemma {:induction false} FieldRemoved(h: Cells, xs: seq<Entry<Item>>, es: seq<Entry<Value>>, k: string, n: nat)
    requires DenotesFields(h, xs, es) && ApartFields(h, xs, es, n)
    ensures DenotesFields(h, Remove(xs, k), Remove(es, k)) && ApartFields(h, Remove(xs, k), Remove(es, k), n)
    ensures FootFields(h, Remove(xs, k), Remove(es, k)) == FootBut(h, xs, es, k)
    decreases es
  {
    if es != [] && es[0].key != k {
      FieldRemoved(h, xs[1..], es[1..], k, n);
      ButIsWithin(h, xs[1..], es[1..], k);
      assert Remove(xs, k)[1..] == Remove(xs[1..], k) && Remove(es, k)[1..] == Remove(es[1..], k);
    }
  }

  /** A field of a dict and the rest of it. */
  lemma {:induction false} FieldSplit(h: Cells, xs: seq<Entry<Item>>, es: seq<Entry<Value>>, k: string)
    requires DenotesFields(h, xs, es)
    ensures Has(xs, k) <==> Has(es, k)
    ensures Has(es, k) ==>
      && Denotes(h, Get(xs, k), Get(es, k)) && Put(xs, k, Get(xs, k)) == xs
      && FootFields(h, xs, es) == FootBut(h, xs, es, k) + Foot(h, Get(xs, k), Get(es, k))
    ensures !Has(es, k) ==> FootFields(h, xs, es) == FootBut(h, xs, es, k)
    decreases es
  {
    if es != [] {
      FieldSplit(h, xs[1..], es[1..], k);
    }
  }

  lemma {:induction false} FieldApart(h: Cells, xs: seq<Entry<Item>>, es: seq<Entry<Value>>, k: string, n: nat)
    requires DenotesFields(h, xs, es) && ApartFields(h, xs, es, n) && Has(es, k)
    ensures Has(xs, k) && Owns(h, Get(xs, k), Get(es, k), n)
    ensures Foot(h, Get(xs, k), Get(es, k)) !! FootBut(h, xs, es, k)
    decreases es
  {
    if es[0].key != k {
      FieldApart(h, xs[1..], es[1..], k, n);
      FieldSplit(h, xs[1..], es[1..], k);
    } else {
      ButIsWithin(h, xs[1..], es[1..], k);
    }
  }

  // ---------- Reading and copying ----------

  /** The value an object denotes, found by walking it. */
  function Read(h: Cells, x: Item, ghost v: Value): (r: Value)
    requires Denotes(h, x, v)
    ensures r == v
    decreases v, 1
  {
    if x.Immediate? then x.v
    else
      match h[x.a]
      case DictNode(xs) => Dict(ReadFields(h, xs, v.entries))
      case ListNode(xs) => List(ReadItems(h, xs, v.items))
      case TupleNode(xs) => Tuple(ReadItems(h, xs, v.items))
      case SetNode(ms) => Set(ms)
  }

  function ReadFields(h: Cells, xs: seq<Entry<Item>>, ghost es: seq<Entry<Value>>): (r: seq<Entry<Value>>)
    requires DenotesFields(h, xs, es)
    ensures r == es
    decreases es, 0
  {
    if xs == [] then [] else [Entry(xs[0].key, Read(h, xs[0].val, es[0].val))] + ReadFields(h, xs[1..], es[1..])
  }

  function ReadItems(h: Cells, xs: seq<Item>, ghost vs: seq<Value>): (r: seq<Value>)
    requires DenotesItems(h, xs, vs)
    ensures r == vs
    decreases vs, 0
  {
    if xs == [] then [] else [Read(h, xs[0], vs[0])] + ReadItems(h, xs[1..], vs[1..])
  }

  /** Allocated objects, and where the next one goes. */
  datatype Memory = Memory(cells: Cells, next: Address) {
    ghost predicate Valid() {
      forall a :: a in cells ==> a < next
    }

    function New(n: Node): Memory {
      Memory(cells[next := n], next + 1)
    }
  }

  /** Memory only grew: no object that was there has changed. */
  ghost predicate Grown(m: Memory, m': Memory) {
    && m.Valid() && m'.Valid() && m.next <= m'.next
    && forall a :: a in m.cells ==> a in m'.cells && m'.cells[a] == m.cells[a]
  }

  ghost predicate Between(s: set<Address>, lo: Address, hi: Address) {
    forall a :: a in s ==> lo <= a < hi
  }

  /** Everything an object reaches is there. */
  lemma {:induction false} FootAllocated(h: Cells, x: Item, v: Value)
    requires Denotes(h, x, v)
    ensures forall a :: a in Foot(h, x, v) ==> a in h
    decreases v, 1
  {
    if x.Object? {
      match v
      case Dict(es) => FieldsAllocated(h, h[x.a].entries, es);
      case List(vs) => ItemsAllocated(h, h[x.a].items, vs);
      case Tuple(vs) => ItemsAllocated(h, h[x.a].items, vs);
      case _ =>
    }
  }

  lemma {:induction false} FieldsAllocated(h: Cells, xs: seq<Entry<Item>>, es: seq<Entry<Value>>)
    requires DenotesFields(h, xs, es)
    ensures forall a :: a in FootFields(h, xs, es) ==> a in h
    decreases es, 0
  {
    if es != [] {
      FootAllocated(h, xs[0].val, es[0].val);
      FieldsAllocated(h, xs[1..], es[1..]);
    }
  }

  lemma {:induction false} ItemsAllocated(h: Cells, xs: seq<Item>, vs: seq<Value>)
    requires DenotesItems(h, xs, vs)
    ensures forall a :: a in FootItems(h, xs, vs) ==> a in h
    decreases vs, 0
  {
    if vs != [] {
      FootAllocated(h, xs[0], vs[0]);
      ItemsAllocated(h, xs[1..], vs[1..]);
    }
  }
}
