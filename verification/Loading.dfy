/** The objects that loading a file makes. */
module Loading {
  import opened Dicts
  import opened Values
  import opened Heaps

  /** `json.loads` and `_decode`: every dict, list and set of the value is a new object. */
  function Build(m: Memory, v: Value): (Memory, Item)
    decreases v, 1
  {
    match v
    case Dict(es) => var (m1, xs) := BuildFields(m, es); (m1.New(DictNode(xs)), Object(m1.next))
    case List(vs) => var (m1, xs) := BuildItems(m, vs); (m1.New(ListNode(xs)), Object(m1.next))
    case Tuple(vs) =>
      if AllImmediate(vs) then (m, Immediate(v))
      else var (m1, xs) := BuildItems(m, vs); (m1.New(TupleNode(xs)), Object(m1.next))
    case Set(ms) => (m.New(SetNode(ms)), Object(m.next))
    case _ => (m, Immediate(v))
  }

  function BuildFields(m: Memory, es: seq<Entry<Value>>): (Memory, seq<Entry<Item>>)
    decreases es, 0
  {
    if es == [] then (m, [])
    else
      var (m1, x) := Build(m, es[0].val);
      var (m2, xs) := BuildFields(m1, es[1..]);
      (m2, [Entry(es[0].key, x)] + xs)
  }

  function BuildItems(m: Memory, vs: seq<Value>): (Memory, seq<Item>)
    decreases vs, 0
  {
    if vs == [] then (m, [])
    else
      var (m1, x) := Build(m, vs[0]);
      var (m2, xs) := BuildItems(m1, vs[1..]);
      (m2, [x] + xs)
  }

  /** A new dict object over new fields. */
  lemma NewDict(m: Memory, m1: Memory, xs: seq<Entry<Item>>, es: seq<Entry<Value>>, n: nat)
    requires Grown(m, m1) && DenotesFields(m1.cells, xs, es) && ApartFields(m1.cells, xs, es, n)
    requires Between(FootFields(m1.cells, xs, es), m.next, m1.next)
    ensures var m', x := m1.New(DictNode(xs)), Object(m1.next);
      Grown(m, m') && Owns(m'.cells, x, Dict(es), n + 1) && Between(Foot(m'.cells, x, Dict(es)), m.next, m'.next)
  {
    FieldsAllocated(m1.cells, xs, es);
    FramedApartFields(m1.cells, m1.New(DictNode(xs)).cells, xs, es, n);
  }

  lemma NewSequence(m: Memory, m1: Memory, xs: seq<Item>, vs: seq<Value>, n: Node, v: Value)
    requires Grown(m, m1) && DenotesItems(m1.cells, xs, vs) && !IsImmediate(v)
    requires Between(FootItems(m1.cells, xs, vs), m.next, m1.next)
    requires (n == ListNode(xs) && v == List(vs)) || (n == TupleNode(xs) && v == Tuple(vs))
    ensures var m', x := m1.New(n), Object(m1.next);
      Grown(m, m') && Denotes(m'.cells, x, v) && Between(Foot(m'.cells, x, v), m.next, m'.next)
  {
    ItemsAllocated(m1.cells, xs, vs);
    FramedItems(m1.cells, m1.New(n).cells, xs, vs);
  }

  /** What is loaded from a file is new and shares nothing, at any depth. */
  lemma {:induction false} BuildOk(m: Memory, v: Value, n: nat)
    requires m.Valid()
    ensures var (m', x) := Build(m, v);
      Grown(m, m') && Owns(m'.cells, x, v, n) && Between(Foot(m'.cells, x, v), m.next, m'.next)
    decreases v, 1
  {
    hide FootFields, FootItems, DenotesFields, DenotesItems, ApartFields, BuildFields, BuildItems, AllImmediate;
    match v
    case Dict(es) =>
      BuildFieldsOk(m, es, if n > 0 then n - 1 else 0);
      var (m1, xs) := BuildFields(m, es);
      NewDict(m, m1, xs, es, if n > 0 then n - 1 else 0);
    case List(vs) =>
      BuildItemsOk(m, vs);
      var (m1, xs) := BuildItems(m, vs);
      NewSequence(m, m1, xs, vs, ListNode(xs), v);
    case Tuple(vs) =>
      if !AllImmediate(vs) {
        BuildItemsOk(m, vs);
        var (m1, xs) := BuildItems(m, vs);
        NewSequence(m, m1, xs, vs, TupleNode(xs), v);
      }
    case _ =>
  }

  lemma {:induction false} BuildFieldsOk(m: Memory, es: seq<Entry<Value>>, n: nat)
    requires m.Valid()
    ensures var (m', xs) := BuildFields(m, es);
      && Grown(m, m') && DenotesFields(m'.cells, xs, es) && ApartFields(m'.cells, xs, es, n)
      && Between(FootFields(m'.cells, xs, es), m.next, m'.next)
    decreases es, 0
  {
    if es != [] {
      BuildOk(m, es[0].val, n);
      var (m1, x) := Build(m, es[0].val);
      BuildFieldsOk(m1, es[1..], n);
      var (m2, xs) := BuildFields(m1, es[1..]);
      FootAllocated(m1.cells, x, es[0].val);
      FramedApart(m1.cells, m2.cells, x, es[0].val, n);
      assert ([Entry(es[0].key, x)] + xs)[1..] == xs;
    }
  }

  lemma {:induction false} BuildItemsOk(m: Memory, vs: seq<Value>)
    requires m.Valid()
    ensures var (m', xs) := BuildItems(m, vs);
      && Grown(m, m') && DenotesItems(m'.cells, xs, vs) && Between(FootItems(m'.cells, xs, vs), m.next, m'.next)
    decreases vs, 0
  {
    if vs != [] {
      BuildOk(m, vs[0], 0);
      var (m1, x) := Build(m, vs[0]);
      BuildItemsOk(m1, vs[1..]);
      var (m2, xs) := BuildItems(m1, vs[1..]);
      FootAllocated(m1.cells, x, vs[0]);
      Framed(m1.cells, m2.cells, x, vs[0]);
      assert ([x] + xs)[1..] == xs;
    }
  }
}
