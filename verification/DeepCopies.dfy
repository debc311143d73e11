/** `copy.deepcopy`: new objects with the same contents and the same sharing. */
module DeepCopies {
  import opened Dicts
  import opened Values
  import opened Heaps

  /** The memo of one `deepcopy`: for each object copied so far, its copy. */
  type Memo = map<Address, Item>

  /**
    The copy of an object; one that was copied before is not copied again.
    Which addresses the new objects get means nothing: a copy is put into
    memory once its parts have been copied.
   */
  function Copy(h: Cells, m: Memory, memo: Memo, x: Item, ghost v: Value): (Memory, Memo, Item)
    requires Denotes(h, x, v)
    decreases v, 1
  {
    if x.Immediate? then (m, memo, x)
    else if x.a in memo then (m, memo, memo[x.a])
    else
      match h[x.a]
      case DictNode(xs) =>
        var (m1, memo1, ys) := CopyFields(h, m, memo, xs, v.entries);
        (m1.New(DictNode(ys)), memo1[x.a := Object(m1.next)], Object(m1.next))
      case ListNode(xs) =>
        var (m1, memo1, ys) := CopyItems(h, m, memo, xs, v.items);
        (m1.New(ListNode(ys)), memo1[x.a := Object(m1.next)], Object(m1.next))
      case TupleNode(xs) =>
        var (m1, memo1, ys) := CopyItems(h, m, memo, xs, v.items);
        (m1.New(TupleNode(ys)), memo1[x.a := Object(m1.next)], Object(m1.next))
      case SetNode(ms) => (m.New(SetNode(ms)), memo[x.a := Object(m.next)], Object(m.next))
  }

  function CopyFields(h: Cells, m: Memory, memo: Memo, xs: seq<Entry<Item>>, ghost es: seq<Entry<Value>>)
    : (Memory, Memo, seq<Entry<Item>>)
    requires DenotesFields(h, xs, es)
    decreases es, 0
  {
    if xs == [] then (m, memo, [])
    else
      var (m1, memo1, y) := Copy(h, m, memo, xs[0].val, es[0].val);
      var (m2, memo2, ys) := CopyFields(h, m1, memo1, xs[1..], es[1..]);
      (m2, memo2, [Entry(xs[0].key, y)] + ys)
  }

  function CopyItems(h: Cells, m: Memory, memo: Memo, xs: seq<Item>, ghost vs: seq<Value>)
    : (Memory, Memo, seq<Item>)
    requires DenotesItems(h, xs, vs)
    decreases vs, 0
  {
    if xs == [] then (m, memo, [])
    else
      var (m1, memo1, y) := Copy(h, m, memo, xs[0], vs[0]);
      var (m2, memo2, ys) := CopyItems(h, m1, memo1, xs[1..], vs[1..]);
      (m2, memo2, [y] + ys)
  }

  // ---------- What a copy is ----------

  predicate ItemCopied(x: Item, y: Item, memo: Memo) {
    if x.Immediate? then y == x else x.a in memo && y == memo[x.a]
  }

  predicate FieldsCopied(xs: seq<Entry<Item>>, ys: seq<Entry<Item>>, memo: Memo) {
    |ys| == |xs| && forall i :: 0 <= i < |xs| ==> ys[i].key == xs[i].key && ItemCopied(xs[i].val, ys[i].val, memo)
  }

  predicate ItemsCopied(xs: seq<Item>, ys: seq<Item>, memo: Memo) {
    |ys| == |xs| && forall i :: 0 <= i < |xs| ==> ItemCopied(xs[i], ys[i], memo)
  }

  /** The same kind of object, with every part replaced by its copy. */
  predicate NodeCopied(n: Node, n': Node, memo: Memo) {
    match n
    case DictNode(xs) => n'.DictNode? && FieldsCopied(xs, n'.entries, memo)
    case ListNode(xs) => n'.ListNode? && ItemsCopied(xs, n'.items, memo)
    case TupleNode(xs) => n'.TupleNode? && ItemsCopied(xs, n'.items, memo)
    case SetNode(_) => n' == n
  }

  /** The memo maps objects of `h` one to one to objects of `m` from `lo` on, and each copy matches its original. */
  ghost predicate Memoed(h: Cells, m: Memory, lo: Address, memo: Memo) {
    && (forall a :: a in memo ==>
          && a in h && memo[a].Object? && lo <= memo[a].a < m.next && memo[a].a in m.cells
          && NodeCopied(h[a], m.cells[memo[a].a], memo))
    && (forall a, b :: a in memo && b in memo && memo[a] == memo[b] ==> a == b)
  }

  /** `y` is a copy of `x` in new objects, sharing among themselves exactly where the originals do. */
  ghost predicate IsCopy(h: Cells, m: Memory, lo: Address, x: Item, y: Item) {
    exists memo :: Memoed(h, m, lo, memo) && ItemCopied(x, y, memo)
  }

  ghost predicate Extends(memo: Memo, memo': Memo) {
    forall a :: a in memo ==> a in memo' && memo'[a] == memo[a]
  }

  lemma CopyStarts(m: Memory)
    ensures Memoed(m.cells, m, m.next, map[])
  {
  }

  lemma CopiedMore(n: Node, n': Node, memo: Memo, memo': Memo)
    requires NodeCopied(n, n', memo) && Extends(memo, memo')
    ensures NodeCopied(n, n', memo')
  {
  }

  /** One more object is copied. */
  lemma MemoAdds(h: Cells, m: Memory, lo: Address, memo: Memo, a: Address, n: Node)
    requires Memoed(h, m, lo, memo) && m.Valid() && lo <= m.next
    requires a in h && a !in memo && NodeCopied(h[a], n, memo)
    ensures var memo' := memo[a := Object(m.next)];
      Grown(m, m.New(n)) && Memoed(h, m.New(n), lo, memo') && Extends(memo, memo')
  {
    hide NodeCopied;
    var m', memo' := m.New(n), memo[a := Object(m.next)];
    forall b | b in memo' ensures NodeCopied(h[b], m'.cells[memo'[b].a], memo') {
      CopiedMore(h[b], m'.cells[memo'[b].a], memo, memo');
    }
  }

  /** How far a copy has come: memory grew, and the memo took in the given objects at most. */
  ghost predicate Copying(h: Cells, m: Memory, m': Memory, lo: Address, memo: Memo, memo': Memo, s: set<Address>) {
    Grown(m, m') && Memoed(h, m', lo, memo') && Extends(memo, memo') && memo'.Keys <= memo.Keys + s
  }

  lemma FirstCopied(
      k: string, x: Item, y: Item, xs: seq<Entry<Item>>, ys: seq<Entry<Item>>, memo: Memo, memo': Memo)
    requires xs != [] && xs[0] == Entry(k, x) && ItemCopied(x, y, memo) && Extends(memo, memo')
    requires FieldsCopied(xs[1..], ys, memo')
    ensures FieldsCopied(xs, [Entry(k, y)] + ys, memo')
  {
    forall i | 0 < i < |xs| ensures ItemCopied(xs[i].val, ([Entry(k, y)] + ys)[i].val, memo') {
      assert xs[1..][i - 1] == xs[i] && ([Entry(k, y)] + ys)[i] == ys[i - 1];
    }
  }

  lemma FirstItemCopied(x: Item, y: Item, xs: seq<Item>, ys: seq<Item>, memo: Memo, memo': Memo)
    requires xs != [] && xs[0] == x && ItemCopied(x, y, memo) && Extends(memo, memo')
    requires ItemsCopied(xs[1..], ys, memo')
    ensures ItemsCopied(xs, [y] + ys, memo')
  {
    forall i | 0 < i < |xs| ensures ItemCopied(xs[i], ([y] + ys)[i], memo') {
      assert xs[1..][i - 1] == xs[i] && ([y] + ys)[i] == ys[i - 1];
    }
  }

  /** `deepcopy` keeps its memo in order and ends with the copy of what it was given. */
  lemma {:induction false} CopyOk(h: Cells, m: Memory, lo: Address, memo: Memo, x: Item, v: Value)
    requires Denotes(h, x, v) && Memoed(h, m, lo, memo) && m.Valid() && lo <= m.next
    ensures var (m', memo', y) := Copy(h, m, memo, x, v);
      Copying(h, m, m', lo, memo, memo', Foot(h, x, v)) && ItemCopied(x, y, memo')
    decreases v, 1
  {
    hide Memoed, FootFields, FootItems, DenotesFields, DenotesItems, FieldsCopied, ItemsCopied, CopyFields, CopyItems;
    if x.Object? && x.a !in memo {
      NoCycle(h, x, v);
      match h[x.a]
      case DictNode(xs) =>
        CopyFieldsOk(h, m, lo, memo, xs, v.entries);
        var (m1, memo1, ys) := CopyFields(h, m, memo, xs, v.entries);
        MemoAdds(h, m1, lo, memo1, x.a, DictNode(ys));
      case ListNode(xs) =>
        CopyItemsOk(h, m, lo, memo, xs, v.items);
        var (m1, memo1, ys) := CopyItems(h, m, memo, xs, v.items);
        MemoAdds(h, m1, lo, memo1, x.a, ListNode(ys));
      case TupleNode(xs) =>
        CopyItemsOk(h, m, lo, memo, xs, v.items);
        var (m1, memo1, ys) := CopyItems(h, m, memo, xs, v.items);
        MemoAdds(h, m1, lo, memo1, x.a, TupleNode(ys));
      case SetNode(ms) =>
        MemoAdds(h, m, lo, memo, x.a, SetNode(ms));
    }
  }

  lemma {:induction false} CopyFieldsOk(
      h: Cells, m: Memory, lo: Address, memo: Memo, xs: seq<Entry<Item>>, es: seq<Entry<Value>>)
    requires DenotesFields(h, xs, es) && Memoed(h, m, lo, memo) && m.Valid() && lo <= m.next
    ensures var (m', memo', ys) := CopyFields(h, m, memo, xs, es);
      Copying(h, m, m', lo, memo, memo', FootFields(h, xs, es)) && FieldsCopied(xs, ys, memo')
    decreases es, 0
  {
    hide Memoed, FieldsCopied, ItemCopied, Copy;
    if xs == [] {
      assert FieldsCopied(xs, [], memo) by { NoneCopied(memo); }
    } else {
      CopyOk(h, m, lo, memo, xs[0].val, es[0].val);
      var (m1, memo1, y) := Copy(h, m, memo, xs[0].val, es[0].val);
      CopyFieldsOk(h, m1, lo, memo1, xs[1..], es[1..]);
      var (m2, memo2, ys) := CopyFields(h, m1, memo1, xs[1..], es[1..]);
      FirstCopied(xs[0].key, xs[0].val, y, xs, ys, memo1, memo2);
    }
  }

  lemma NoneCopied(memo: Memo)
    ensures FieldsCopied([], [], memo) && ItemsCopied([], [], memo)
  {
  }

  lemma {:induction false} CopyItemsOk(
      h: Cells, m: Memory, lo: Address, memo: Memo, xs: seq<Item>, vs: seq<Value>)
    requires DenotesItems(h, xs, vs) && Memoed(h, m, lo, memo) && m.Valid() && lo <= m.next
    ensures var (m', memo', ys) := CopyItems(h, m, memo, xs, vs);
      Copying(h, m, m', lo, memo, memo', FootItems(h, xs, vs)) && ItemsCopied(xs, ys, memo')
    decreases vs, 0
  {
    hide Memoed, ItemsCopied, ItemCopied, Copy;
    if xs == [] {
      assert ItemsCopied(xs, [], memo) by { NoneCopied(memo); }
    } else {
      CopyOk(h, m, lo, memo, xs[0], vs[0]);
      var (m1, memo1, y) := Copy(h, m, memo, xs[0], vs[0]);
      CopyItemsOk(h, m1, lo, memo1, xs[1..], vs[1..]);
      var (m2, memo2, ys) := CopyItems(h, m1, memo1, xs[1..], vs[1..]);
      FirstItemCopied(xs[0], y, xs, ys, memo1, memo2);
    }
  }

  // ---------- A copy denotes the same value ----------

  /** Everything in `t` is the copy of something in `s`. */
  ghost predicate ComesFrom(memo: Memo, s: set<Address>, t: set<Address>) {
    forall b :: b in t ==> exists a :: a in s && a in memo && memo[a] == Object(b)
  }

  lemma ComesFromMore(memo: Memo, s: set<Address>, t: set<Address>, s': set<Address>, t': set<Address>)
    requires ComesFrom(memo, s, t) && ComesFrom(memo, s', t')
    ensures ComesFrom(memo, s + s', t + t')
  {
    forall b | b in t + t' ensures exists a :: a in s + s' && a in memo && memo[a] == Object(b) {
      if b in t {
        var a :| a in s && a in memo && memo[a] == Object(b);
        assert a in s + s';
      } else {
        var a :| a in s' && a in memo && memo[a] == Object(b);
        assert a in s + s';
      }
    }
  }

  lemma {:induction false} CopyDenotes(h: Cells, m: Memory, lo: Address, memo: Memo, x: Item, y: Item, v: Value)
    requires Denotes(h, x, v) && Memoed(h, m, lo, memo) && ItemCopied(x, y, memo)
    ensures Denotes(m.cells, y, v) && ComesFrom(memo, Foot(h, x, v), Foot(m.cells, y, v))
    decreases v, 1
  {
    if x.Object? {
      assert NodeCopied(h[x.a], m.cells[y.a], memo);
      assert ComesFrom(memo, {x.a}, {y.a});
      match v
      case Dict(es) =>
        CopyDenotesFields(h, m, lo, memo, h[x.a].entries, m.cells[y.a].entries, es);
        ComesFromMore(
          memo, {x.a}, {y.a}, FootFields(h, h[x.a].entries, es), FootFields(m.cells, m.cells[y.a].entries, es));
      case List(vs) =>
        CopyDenotesItems(h, m, lo, memo, h[x.a].items, m.cells[y.a].items, vs);
        ComesFromMore(memo, {x.a}, {y.a}, FootItems(h, h[x.a].items, vs), FootItems(m.cells, m.cells[y.a].items, vs));
      case Tuple(vs) =>
        CopyDenotesItems(h, m, lo, memo, h[x.a].items, m.cells[y.a].items, vs);
        ComesFromMore(memo, {x.a}, {y.a}, FootItems(h, h[x.a].items, vs), FootItems(m.cells, m.cells[y.a].items, vs));
      case _ =>
    }
  }

  lemma {:induction false} CopyDenotesFields(
      h: Cells, m: Memory, lo: Address, memo: Memo, xs: seq<Entry<Item>>, ys: seq<Entry<Item>>, es: seq<Entry<Value>>)
    requires DenotesFields(h, xs, es) && Memoed(h, m, lo, memo) && FieldsCopied(xs, ys, memo)
    ensures DenotesFields(m.cells, ys, es) && ComesFrom(memo, FootFields(h, xs, es), FootFields(m.cells, ys, es))
    decreases es, 0
  {
    hide Memoed, ItemCopied, Denotes, Foot;
    if es != [] {
      assert ItemCopied(xs[0].val, ys[0].val, memo);
      CopyDenotes(h, m, lo, memo, xs[0].val, ys[0].val, es[0].val);
      CopyDenotesFields(h, m, lo, memo, xs[1..], ys[1..], es[1..]);
      ComesFromMore(memo, Foot(h, xs[0].val, es[0].val), Foot(m.cells, ys[0].val, es[0].val),
                    FootFields(h, xs[1..], es[1..]), FootFields(m.cells, ys[1..], es[1..]));
    }
  }

  lemma {:induction false} CopyDenotesItems(
      h: Cells, m: Memory, lo: Address, memo: Memo, xs: seq<Item>, ys: seq<Item>, vs: seq<Value>)
    requires DenotesItems(h, xs, vs) && Memoed(h, m, lo, memo) && ItemsCopied(xs, ys, memo)
    ensures DenotesItems(m.cells, ys, vs) && ComesFrom(memo, FootItems(h, xs, vs), FootItems(m.cells, ys, vs))
    decreases vs, 0
  {
    hide Memoed, ItemCopied, Denotes, Foot;
    if vs != [] {
      assert ItemCopied(xs[0], ys[0], memo);
      CopyDenotes(h, m, lo, memo, xs[0], ys[0], vs[0]);
      CopyDenotesItems(h, m, lo, memo, xs[1..], ys[1..], vs[1..]);
      ComesFromMore(memo, Foot(h, xs[0], vs[0]), Foot(m.cells, ys[0], vs[0]),
                    FootItems(h, xs[1..], vs[1..]), FootItems(m.cells, ys[1..], vs[1..]));
    }
  }

  /** A deep copy denotes the same value and consists of new objects only. */
  lemma CopyIsNew(h: Cells, m: Memory, lo: Address, x: Item, y: Item, v: Value)
    requires Denotes(h, x, v) && IsCopy(h, m, lo, x, y)
    ensures Denotes(m.cells, y, v) && Between(Foot(m.cells, y, v), lo, m.next)
  {
    hide Denotes, Foot, ItemCopied;
    var memo :| Memoed(h, m, lo, memo) && ItemCopied(x, y, memo);
    CopyDenotes(h, m, lo, memo, x, y, v);
  }

  // ---------- A copy shares what the original shares ----------

  lemma ApartCopies(
      h: Cells, m: Memory, lo: Address, memo: Memo,
      s: set<Address>, t: set<Address>, s': set<Address>, t': set<Address>)
    requires Memoed(h, m, lo, memo) && ComesFrom(memo, s, t) && ComesFrom(memo, s', t') && s !! s'
    ensures t !! t'
  {
    forall b | b in t ensures b !in t' {
      var a :| a in s && a in memo && memo[a] == Object(b);
    }
  }

  /** What is separate in the original is separate in the copy: the copy of a state is a state. */
  lemma {:induction false} CopyApart(h: Cells, m: Memory, lo: Address, memo: Memo, x: Item, y: Item, v: Value, n: nat)
    requires Owns(h, x, v, n) && Memoed(h, m, lo, memo) && ItemCopied(x, y, memo)
    ensures Owns(m.cells, y, v, n)
    decreases v, 1
  {
    CopyDenotes(h, m, lo, memo, x, y, v);
    if v.Dict? && n > 0 {
      assert NodeCopied(h[x.a], m.cells[y.a], memo);
      CopyApartFields(h, m, lo, memo, h[x.a].entries, m.cells[y.a].entries, v.entries, n - 1);
    }
  }

  lemma {:induction false} CopyApartFields(
      h: Cells, m: Memory, lo: Address, memo: Memo, xs: seq<Entry<Item>>, ys: seq<Entry<Item>>, es: seq<Entry<Value>>,
      n: nat)
    requires DenotesFields(h, xs, es) && ApartFields(h, xs, es, n)
    requires Memoed(h, m, lo, memo) && FieldsCopied(xs, ys, memo)
    ensures DenotesFields(m.cells, ys, es) && ApartFields(m.cells, ys, es, n)
    decreases es, 0
  {
    hide Memoed, ItemCopied, Denotes, Foot, Apart;
    CopyDenotesFields(h, m, lo, memo, xs, ys, es);
    if es != [] {
      assert ItemCopied(xs[0].val, ys[0].val, memo);
      CopyApart(h, m, lo, memo, xs[0].val, ys[0].val, es[0].val, n);
      CopyApartFields(h, m, lo, memo, xs[1..], ys[1..], es[1..], n);
      CopyDenotes(h, m, lo, memo, xs[0].val, ys[0].val, es[0].val);
      CopyDenotesFields(h, m, lo, memo, xs[1..], ys[1..], es[1..]);
      ApartCopies(h, m, lo, memo, Foot(h, xs[0].val, es[0].val), Foot(m.cells, ys[0].val, es[0].val),
                  FootFields(h, xs[1..], es[1..]), FootFields(m.cells, ys[1..], es[1..]));
    }
  }

  lemma CopyIsRooted(h: Cells, m: Memory, lo: Address, x: Item, y: Item, s: Value)
    requires Rooted(h, x, s) && IsCopy(h, m, lo, x, y)
    ensures Rooted(m.cells, y, s)
  {
    hide Denotes, Apart, ItemCopied;
    var memo :| Memoed(h, m, lo, memo) && ItemCopied(x, y, memo);
    CopyApart(h, m, lo, memo, x, y, s, 3);
  }

  /** A step from an object to one of its parts. */
  datatype Step = At(key: string) | Nth(i: nat)

  /** The part of `x` at the end of a path, if the path exists. */
  function Part(h: Cells, x: Item, path: seq<Step>): Item
    decreases |path|
  {
    if path == [] then x
    else if x.Immediate? || x.a !in h then Immediate(Null)
    else
      match h[x.a]
      case DictNode(xs) =>
        if path[0].At? && Has(xs, path[0].key) then Part(h, Get(xs, path[0].key), path[1..]) else Immediate(Null)
      case ListNode(xs) =>
        if path[0].Nth? && path[0].i < |xs| then Part(h, xs[path[0].i], path[1..]) else Immediate(Null)
      case TupleNode(xs) =>
        if path[0].Nth? && path[0].i < |xs| then Part(h, xs[path[0].i], path[1..]) else Immediate(Null)
      case SetNode(_) => Immediate(Null)
  }

  lemma {:induction false} GetCopied(xs: seq<Entry<Item>>, ys: seq<Entry<Item>>, k: string, memo: Memo)
    requires FieldsCopied(xs, ys, memo)
    ensures Has(xs, k) <==> Has(ys, k)
    ensures Has(xs, k) ==> ItemCopied(Get(xs, k), Get(ys, k), memo)
  {
    if xs != [] {
      assert ItemCopied(xs[0].val, ys[0].val, memo);
      forall i | 0 <= i < |xs[1..]|
        ensures ys[1..][i].key == xs[1..][i].key && ItemCopied(xs[1..][i].val, ys[1..][i].val, memo)
      {
        assert ItemCopied(xs[i + 1].val, ys[i + 1].val, memo);
      }
      GetCopied(xs[1..], ys[1..], k, memo);
    }
  }

  lemma {:induction false} PartCopied(
      h: Cells, m: Memory, lo: Address, memo: Memo, x: Item, y: Item, path: seq<Step>)
    requires Memoed(h, m, lo, memo) && ItemCopied(x, y, memo)
    ensures ItemCopied(Part(h, x, path), Part(m.cells, y, path), memo)
    decreases |path|
  {
    if path != [] && x.Object? {
      assert NodeCopied(h[x.a], m.cells[y.a], memo);
      match h[x.a]
      case DictNode(xs) =>
        if path[0].At? {
          GetCopied(xs, m.cells[y.a].entries, path[0].key, memo);
          if Has(xs, path[0].key) {
            PartCopied(h, m, lo, memo, Get(xs, path[0].key), Get(m.cells[y.a].entries, path[0].key), path[1..]);
          }
        }
      case ListNode(xs) =>
        if path[0].Nth? && path[0].i < |xs| {
          PartCopied(h, m, lo, memo, xs[path[0].i], m.cells[y.a].items[path[0].i], path[1..]);
        }
      case TupleNode(xs) =>
        if path[0].Nth? && path[0].i < |xs| {
          PartCopied(h, m, lo, memo, xs[path[0].i], m.cells[y.a].items[path[0].i], path[1..]);
        }
      case SetNode(_) =>
    }
  }

  /** Two paths lead to one object in the copy exactly if they do in the original. */
  lemma SharingIsKept(h: Cells, m: Memory, lo: Address, x: Item, y: Item, path: seq<Step>, path': seq<Step>)
    requires IsCopy(h, m, lo, x, y)
    ensures Part(m.cells, y, path) == Part(m.cells, y, path') <==> Part(h, x, path) == Part(h, x, path')
  {
    hide Part, ItemCopied;
    var memo :| Memoed(h, m, lo, memo) && ItemCopied(x, y, memo);
    PartCopied(h, m, lo, memo, x, y, path);
    PartCopied(h, m, lo, memo, x, y, path');
    SameCopies(h, m, lo, memo, Part(h, x, path), Part(m.cells, y, path), Part(h, x, path'), Part(m.cells, y, path'));
  }

  lemma SameCopies(h: Cells, m: Memory, lo: Address, memo: Memo, x: Item, y: Item, x': Item, y': Item)
    requires Memoed(h, m, lo, memo) && ItemCopied(x, y, memo) && ItemCopied(x', y', memo)
    ensures y == y' <==> x == x'
  {
  }
}
