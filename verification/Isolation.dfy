/** Nothing a caller does to objects it passed in or received can change a stored state. */
module Isolation {
  import opened Dicts
  import opened Values
  import opened Storage
  import opened Errors
  import opened Documents
  import opened DocumentProofs
  import opened Store
  import opened Sessions
  import opened Heaps
  import opened InPlace
  import opened Loading
  import opened CollectionOps

  /** Memory, and the addresses the caller can get at. */
  datatype Scene = Scene(m: Memory, known: set<Address>)

  predicate ItemWithin(x: Item, known: set<Address>) {
    x.Object? ==> x.a in known
  }

  predicate NodeWithin(n: Node, known: set<Address>) {
    match n
    case DictNode(es) => forall i :: 0 <= i < |es| ==> ItemWithin(es[i].val, known)
    case ListNode(xs) => forall i :: 0 <= i < |xs| ==> ItemWithin(xs[i], known)
    case TupleNode(xs) => forall i :: 0 <= i < |xs| ==> ItemWithin(xs[i], known)
    case SetNode(_) => true
  }

  /** Following references from these objects leads to known objects. */
  ghost predicate Closed(h: Cells, s: set<Address>, known: set<Address>) {
    forall a :: a in s ==> a in h && NodeWithin(h[a], known)
  }

  /** Calls that only read. A callable given to `where` gets what `all` returns. */
  datatype Question =
    | Get(name: string, id: Value)
    | All(name: string)
    | Find(name: string, criteria: Value)
    | Dump

  /**
    The caller overwrites or creates an object, with references to any it can
    get at, or calls an operation or a read with an object `x` as its argument.
   */
  datatype Move = Write(a: Address, n: Node) | Call(x: Item, r: Request) | Ask(x: Item, q: Question)

  /** `x` is what the request says it is. */
  ghost predicate Passes(h: Cells, x: Item, r: Request) {
    match r
    case Insert(_, d, _) => Denotes(h, x, d)
    case Update(_, _, u) => Denotes(h, x, u)
    case Replace(_, _, d) => Denotes(h, x, d)
    case Delete(_, _) => true
    case Upsert(_, _, d) => Denotes(h, x, d)
    case BulkInsert(_, ds, _) => Denotes(h, x, ds)
    case BulkUpdate(_, ps) => Denotes(h, x, ps)
  }

  /** A caller writes and passes on only what it can get at. */
  ghost predicate Permitted(scene: Scene, move: Move) {
    match move
    case Write(a, n) => (a in scene.known || a == scene.m.next) && NodeWithin(n, scene.known + {a})
    case Call(x, r) => ItemWithin(x, scene.known) && Passes(scene.m.cells, x, r)
    case Ask(x, q) => ItemWithin(x, scene.known) && (q.Find? ==> Denotes(scene.m.cells, x, q.criteria))
  }

  /** The documents an operation hands back. */
  function Returned(s: Value, r: Request): seq<Value> {
    match r
    case Update(name, id, u) =>
      if UpdateDocument(s, name, id, u).Ok? then [Merge(Dicts.Get(DocumentsIn(s, name), id.s), u)] else []
    case Replace(name, id, d) => if ReplaceDocument(s, name, id, d).Ok? then [WithId(d, id.s)] else []
    case _ => []
  }

  /** What a read hands out, if it does not raise. */
  function Answer(s: Value, q: Question): seq<Value>
    requires Shaped(s, false)
  {
    match q
    case Get(name, id) => if LookupError(s, name, id).Some? then [] else [Dicts.Get(DocumentsIn(s, name), id.s)]
    case All(name) => if ValidName(name) then DocumentValues(DocumentsIn(s, name)) else []
    case Find(name, criteria) => (match FindDocuments(s, name, criteria) case Ok(vs) => vs case Err(_) => [])
    case Dump => [s]
  }

  /** The caller gets at the given objects, which are its own. */
  ghost predicate Gave(root: Item, s: Value, before: Scene, after: Scene, xs: seq<Item>, vs: seq<Value>) {
    && Handed(before.m, after.m, root, s, xs, vs) && DenotesItems(after.m.cells, xs, vs)
    && after.known == before.known + FootItems(after.m.cells, xs, vs)
  }

  ghost predicate Wrote(before: Scene, after: Scene, a: Address, n: Node) {
    after == Scene(
      Memory(before.m.cells[a := n], if a == before.m.next then a + 1 else before.m.next), before.known + {a})
  }

  /** The operation did what it promises and handed back copies of its own. */
  ghost predicate Called(root: Item, s: Value, before: Scene, after: Scene, r: Request, xs: seq<Item>) {
    && Rooted(before.m.cells, root, s) && Did(before.m, after.m, root, s, Apply(s, r))
    && Gave(root, Applied(s, r), before, after, xs, Returned(s, r))
  }

  ghost predicate Asked(root: Item, s: Value, before: Scene, after: Scene, q: Question, xs: seq<Item>) {
    && Rooted(before.m.cells, root, s) && Shaped(s, false) && Grown(before.m, after.m)
    && Gave(root, s, before, after, xs, Answer(s, q))
  }

  ghost predicate Moved(root: Item, before: Scene, after: Scene, move: Move) {
    && Permitted(before, move)
    && match move
       case Write(a, n) => Wrote(before, after, a, n)
       case Call(_, r) => exists s, xs :: Called(root, s, before, after, r, xs)
       case Ask(_, q) => exists s, xs :: Asked(root, s, before, after, q, xs)
  }

  ghost predicate Played(root: Item, scenes: seq<Scene>, moves: seq<Move>) {
    |scenes| == |moves| + 1 && forall i :: 0 <= i < |moves| ==> Moved(root, scenes[i], scenes[i + 1], moves[i])
  }

  /** The state is `s`, and the caller can get at no part of it. */
  ghost predicate Isolated(root: Item, s: Value, scene: Scene) {
    && scene.m.Valid() && Rooted(scene.m.cells, root, s)
    && Closed(scene.m.cells, scene.known, scene.known)
    && scene.known !! Foot(scene.m.cells, root, s)
  }

  /** The operations called, without the reads and writes in between. */
  function Calls(moves: seq<Move>): seq<Request> {
    if moves == [] then []
    else (if moves[0].Call? then [moves[0].r] else []) + Calls(moves[1..])
  }

  /** What a move makes of the state: only an operation changes it. */
  function After(s: Value, move: Move): Value {
    if move.Call? then Applied(s, move.r) else s
  }

  // ---------- What the caller can reach ----------

  lemma ClosedUnder(h: Cells, s: set<Address>, known: set<Address>, known': set<Address>)
    requires Closed(h, s, known) && known <= known'
    ensures Closed(h, s, known')
  {
  }

  /** Everything a copy reaches is part of the copy. */
  lemma {:induction false} FootIsClosed(h: Cells, x: Item, v: Value)
    requires Denotes(h, x, v)
    ensures Closed(h, Foot(h, x, v), Foot(h, x, v))
    decreases v, 1
  {
    if x.Object? {
      match v
      case Dict(es) => FieldsAreClosed(h, h[x.a].entries, es);
      case List(vs) => ItemsAreClosed(h, h[x.a].items, vs);
      case Tuple(vs) => ItemsAreClosed(h, h[x.a].items, vs);
      case _ =>
    }
  }

  lemma {:induction false} FieldsAreClosed(h: Cells, xs: seq<Entry<Item>>, es: seq<Entry<Value>>)
    requires DenotesFields(h, xs, es)
    ensures Closed(h, FootFields(h, xs, es), FootFields(h, xs, es))
    ensures forall i :: 0 <= i < |xs| ==> ItemWithin(xs[i].val, FootFields(h, xs, es))
    decreases es, 0
  {
    if es != [] {
      FootIsClosed(h, xs[0].val, es[0].val);
      FieldsAreClosed(h, xs[1..], es[1..]);
      ClosedUnder(h, Foot(h, xs[0].val, es[0].val), Foot(h, xs[0].val, es[0].val), FootFields(h, xs, es));
      ClosedUnder(h, FootFields(h, xs[1..], es[1..]), FootFields(h, xs[1..], es[1..]), FootFields(h, xs, es));
      assert forall i :: 0 < i < |xs| ==> xs[i] == xs[1..][i - 1];
    }
  }

  lemma {:induction false} ItemsAreClosed(h: Cells, xs: seq<Item>, vs: seq<Value>)
    requires DenotesItems(h, xs, vs)
    ensures Closed(h, FootItems(h, xs, vs), FootItems(h, xs, vs))
    ensures forall i :: 0 <= i < |xs| ==> ItemWithin(xs[i], FootItems(h, xs, vs))
    decreases vs, 0
  {
    if vs != [] {
      FootIsClosed(h, xs[0], vs[0]);
      ItemsAreClosed(h, xs[1..], vs[1..]);
      ClosedUnder(h, Foot(h, xs[0], vs[0]), Foot(h, xs[0], vs[0]), FootItems(h, xs, vs));
      ClosedUnder(h, FootItems(h, xs[1..], vs[1..]), FootItems(h, xs[1..], vs[1..]), FootItems(h, xs, vs));
      assert forall i :: 0 < i < |xs| ==> xs[i] == xs[1..][i - 1];
    }
  }

  /** Who knows an object knows everything it reaches. */
  lemma {:induction false} FootIsKnown(h: Cells, x: Item, v: Value, known: set<Address>)
    requires Denotes(h, x, v) && ItemWithin(x, known) && Closed(h, known, known)
    ensures Foot(h, x, v) <= known
    decreases v, 1
  {
    if x.Object? {
      assert NodeWithin(h[x.a], known);
      match v
      case Dict(es) => FieldsAreKnown(h, h[x.a].entries, es, known);
      case List(vs) => ItemsAreKnown(h, h[x.a].items, vs, known);
      case Tuple(vs) => ItemsAreKnown(h, h[x.a].items, vs, known);
      case _ =>
    }
  }

  lemma {:induction false} FieldsAreKnown(
      h: Cells, xs: seq<Entry<Item>>, es: seq<Entry<Value>>, known: set<Address>)
    requires DenotesFields(h, xs, es) && Closed(h, known, known)
    requires forall i :: 0 <= i < |xs| ==> ItemWithin(xs[i].val, known)
    ensures FootFields(h, xs, es) <= known
    decreases es, 0
  {
    if es != [] {
      FootIsKnown(h, xs[0].val, es[0].val, known);
      FieldsAreKnown(h, xs[1..], es[1..], known);
    }
  }

  lemma {:induction false} ItemsAreKnown(h: Cells, xs: seq<Item>, vs: seq<Value>, known: set<Address>)
    requires DenotesItems(h, xs, vs) && Closed(h, known, known)
    requires forall i :: 0 <= i < |xs| ==> ItemWithin(xs[i], known)
    ensures FootItems(h, xs, vs) <= known
    decreases vs, 0
  {
    if vs != [] {
      FootIsKnown(h, xs[0], vs[0], known);
      ItemsAreKnown(h, xs[1..], vs[1..], known);
    }
  }

  /** So what a caller passes to an operation reaches no part of the state. */
  lemma ArgumentIsApart(root: Item, s: Value, scene: Scene, x: Item, v: Value)
    requires Isolated(root, s, scene) && ItemWithin(x, scene.known) && Denotes(scene.m.cells, x, v)
    ensures Foot(scene.m.cells, x, v) !! Foot(scene.m.cells, root, s)
  {
    FootIsKnown(scene.m.cells, x, v, scene.known);
  }

  /** Objects of the caller's own reach new objects only, and no part of the state. */
  lemma {:induction false} HandedIsApart(
      m: Memory, m': Memory, root: Item, s: Value, xs: seq<Item>, vs: seq<Value>)
    requires Handed(m, m', root, s, xs, vs)
    ensures DenotesItems(m'.cells, xs, vs)
    ensures vs != [] ==> Rooted(m'.cells, root, s) && FootItems(m'.cells, xs, vs) !! Foot(m'.cells, root, s)
    ensures Between(FootItems(m'.cells, xs, vs), m.next, m'.next)
    decreases |vs|
  {
    if vs != [] {
      assert Private(m, m', root, s, xs[0], vs[0]);
      forall i | 0 <= i < |xs[1..]| ensures Private(m, m', root, s, xs[1..][i], vs[1..][i]) {
        assert Private(m, m', root, s, xs[i + 1], vs[i + 1]);
      }
      HandedIsApart(m, m', root, s, xs[1..], vs[1..]);
    }
  }

  // ---------- One move ----------

  lemma WriteKeepsIsolated(root: Item, s: Value, before: Scene, after: Scene, a: Address, n: Node)
    requires Isolated(root, s, before) && Permitted(before, Write(a, n)) && Wrote(before, after, a, n)
    ensures Isolated(root, s, after)
  {
    FootAllocated(before.m.cells, root, s);
    FramedApart(before.m.cells, after.m.cells, root, s, 3);
    ClosedUnder(before.m.cells, before.known, before.known, after.known);
  }

  /** While the state changes, what the caller knew stays as it was and no part of it. */
  lemma ChangeKeepsIsolated(root: Item, s: Value, s': Value, before: Scene, m': Memory)
    requires Isolated(root, s, before) && Changed(before.m, m', root, s, s')
    ensures Isolated(root, s', Scene(m', before.known))
  {
  }

  /** Handing out objects that are not the state's keeps it out of reach. */
  lemma GivingKeepsIsolated(
      root: Item, s: Value, before: Scene, after: Scene, xs: seq<Item>, vs: seq<Value>)
    requires Isolated(root, s, Scene(after.m, before.known)) && Gave(root, s, before, after, xs, vs)
    ensures Isolated(root, s, after)
  {
    HandedIsApart(before.m, after.m, root, s, xs, vs);
    ItemsAreClosed(after.m.cells, xs, vs);
    ClosedUnder(after.m.cells, FootItems(after.m.cells, xs, vs), FootItems(after.m.cells, xs, vs), after.known);
    ClosedUnder(after.m.cells, before.known, before.known, after.known);
  }

  lemma CallKeepsIsolated(root: Item, s: Value, before: Scene, after: Scene, r: Request, xs: seq<Item>)
    requires Isolated(root, s, before) && Called(root, s, before, after, r, xs)
    ensures Isolated(root, Applied(s, r), after)
  {
    hide Isolated, Gave, Returned, Apply;
    IsolatedIs(root, s, before);
    match Apply(s, r)
    case Ok(s') =>
      ChangeKeepsIsolated(root, s, s', before, after.m);
      GivingKeepsIsolated(root, s', before, after, xs, Returned(s, r));
    case Err(_) =>
      GrownChanges(before.m, after.m, root, s);
      ChangeKeepsIsolated(root, s, s, before, after.m);
      GivingKeepsIsolated(root, s, before, after, xs, Returned(s, r));
  }

  lemma IsolatedIs(root: Item, s: Value, scene: Scene)
    requires Isolated(root, s, scene)
    ensures scene.m.Valid() && Rooted(scene.m.cells, root, s)
  {
  }

  lemma AskKeepsIsolated(root: Item, s: Value, before: Scene, after: Scene, q: Question, xs: seq<Item>)
    requires Isolated(root, s, before) && Asked(root, s, before, after, q, xs)
    ensures Isolated(root, s, after)
  {
    hide Isolated, Gave, Answer;
    IsolatedIs(root, s, before);
    GrownChanges(before.m, after.m, root, s);
    ChangeKeepsIsolated(root, s, s, before, after.m);
    GivingKeepsIsolated(root, s, before, after, xs, Answer(s, q));
  }

  lemma MoveKeepsIsolated(root: Item, s: Value, before: Scene, after: Scene, move: Move)
    requires Isolated(root, s, before) && Moved(root, before, after, move)
    ensures Isolated(root, After(s, move), after)
  {
    hide Isolated, Permitted, Wrote, Denotes, Foot;
    IsolatedIs(root, s, before);
    match move
    case Write(a, n) =>
      WriteKeepsIsolated(root, s, before, after, a, n);
    case Call(_, r) =>
      var t, xs :| Called(root, t, before, after, r, xs);
      DenotesOne(before.m.cells, root, s, t);
      CallKeepsIsolated(root, s, before, after, r, xs);
    case Ask(_, q) =>
      var t, xs :| Asked(root, t, before, after, q, xs);
      DenotesOne(before.m.cells, root, s, t);
      AskKeepsIsolated(root, s, before, after, q, xs);
  }

  // ---------- Any number of moves ----------

  /**
    However the caller mixes operations and reads with writes to any object it
    ever passed in, received or made, the stored state is what the operations
    alone make of it.
   */
  lemma {:induction false} CallerCannotInterfere(root: Item, s: Value, scenes: seq<Scene>, moves: seq<Move>)
    requires Played(root, scenes, moves) && Isolated(root, s, scenes[0])
    ensures Isolated(root, ApplyAll(s, Calls(moves)), scenes[|moves|])
    decreases |moves|
  {
    hide Isolated, Moved, Applied;
    if moves != [] {
      MoveKeepsIsolated(root, s, scenes[0], scenes[1], moves[0]);
      forall i | 0 <= i < |moves[1..]| ensures Moved(root, scenes[1..][i], scenes[1..][i + 1], moves[1..][i]) {
        assert Moved(root, scenes[i + 1], scenes[i + 2], moves[i + 1]);
      }
      CallerCannotInterfere(root, After(s, moves[0]), scenes[1..], moves[1..]);
      if moves[0].Call? {
        assert Calls(moves) == [moves[0].r] + Calls(moves[1..]);
        assert ([moves[0].r] + Calls(moves[1..]))[1..] == Calls(moves[1..]);
      } else {
        assert Calls(moves) == Calls(moves[1..]);
      }
    }
  }

  // ---------- The operations make such moves ----------

  /** A new state, and a caller that so far knows only objects made before it. */
  lemma NewIsIsolated(root: Item, s: Value, before: Scene, m': Memory)
    requires before.m.Valid() && Closed(before.m.cells, before.known, before.known) && Grown(before.m, m')
    requires Rooted(m'.cells, root, s) && Between(Foot(m'.cells, root, s), before.m.next, m'.next)
    ensures Isolated(root, s, Scene(m', before.known))
  {
  }

  /** `__enter__`: the objects loaded from the file, deep-copied, are out of the caller's reach. */
  method Begin(p: Process, state: Value, ghost known: set<Address>) returns (root: Item)
    requires p.m.Valid() && Closed(p.m.cells, known, known)
    modifies p
    ensures Grown(old(p.m), p.m) && Isolated(root, state, Scene(p.m, known))
  {
    hide Denotes, Foot, Apart, Build;
    ghost var before := Scene(p.m, known);
    BuildOk(p.m, state, 3);
    var (m', loaded) := Build(p.m, state);
    p.m := m';
    root := p.WorkingCopy(loaded, state);
    NewIsIsolated(root, state, before, p.m);
  }

  lemma GaveThese(root: Item, s: Value, before: Scene, m': Memory, xs: seq<Item>, vs: seq<Value>)
    requires Handed(before.m, m', root, s, xs, vs)
    ensures DenotesItems(m'.cells, xs, vs)
    ensures Gave(root, s, before, Scene(m', before.known + FootItems(m'.cells, xs, vs)), xs, vs)
  {
    HandedIsApart(before.m, m', root, s, xs, vs);
  }

  /** The caller learns what it was handed. */
  ghost function Learned(root: Item, s: Value, before: Scene, m': Memory, xs: seq<Item>, vs: seq<Value>)
    : (after: Scene)
    requires Handed(before.m, m', root, s, xs, vs)
    ensures after.m == m' && Gave(root, s, before, after, xs, vs)
  {
    GaveThese(root, s, before, m', xs, vs);
    Scene(m', before.known + FootItems(m'.cells, xs, vs))
  }

  /** Calls an operation with an object that stands for the document, updates or list of the request. */
  method Perform(p: Process, root: Item, x: Item, r: Request, ghost s: Value, ghost known: set<Address>)
    returns (ghost xs: seq<Item>)
    requires Isolated(root, s, Scene(p.m, known)) && Shaped(s, false)
    requires ItemWithin(x, known) && Passes(p.m.cells, x, r)
    modifies p
    ensures Did(old(p.m), p.m, root, s, Apply(s, r))
    ensures Handed(old(p.m), p.m, root, Applied(s, r), xs, Returned(s, r))
  {
    hide Isolated, Denotes, Foot, Shaped, Did, Private, Closed, InsertDocument, UpdateDocument, ReplaceDocument,
      UpsertDocument, DeleteDocument, BulkInsertDocuments, BulkUpdateDocuments;
    IsolatedIs(root, s, Scene(p.m, known));
    xs := [];
    match r {
      case Insert(name, d, uuid) =>
        var _ := p.Insert(root, name, x, uuid, s, d);
      case Update(name, id, u) =>
        var out := p.Update(root, name, id, x, s, u);
        if out.Ok? {
          xs := [out.value];
        }
      case Replace(name, id, d) =>
        var out := p.Replace(root, name, id, x, s, d);
        if out.Ok? {
          xs := [out.value];
        }
      case Delete(name, id) =>
        var _ := p.Delete(root, name, id, s);
      case Upsert(name, id, d) =>
        var _ := p.Upsert(root, name, id, x, s, d);
      case BulkInsert(name, ds, draw) =>
        ArgumentIsApart(root, s, Scene(p.m, known), x, ds);
        var _ := p.BulkInsert(root, name, x, draw, s, ds);
      case BulkUpdate(name, ps) =>
        ArgumentIsApart(root, s, Scene(p.m, known), x, ps);
        var _ := p.BulkUpdate(root, name, x, s, ps);
    }
  }

  /** Calls a read. */
  method Consult(p: Process, root: Item, x: Item, q: Question, ghost s: Value) returns (xs: seq<Item>)
    requires p.m.Valid() && Rooted(p.m.cells, root, s) && Shaped(s, false)
    requires q.Find? ==> Denotes(p.m.cells, x, q.criteria)
    modifies p
    ensures Grown(old(p.m), p.m) && Handed(old(p.m), p.m, root, s, xs, Answer(s, q))
  {
    hide Denotes, Foot, Shaped, Private, Rooted, FindDocuments;
    match q {
      case Get(name, id) =>
        var out := p.GetDocument(root, name, id, s);
        xs := if out.Ok? then [out.value] else [];
      case All(name) =>
        var out := p.All(root, name, s);
        xs := if out.Ok? then out.value else [];
      case Find(name, criteria) =>
        var out := p.Find(root, name, x, s, criteria);
        xs := if out.Ok? then out.value else [];
      case Dump =>
        var out := p.Dump(root, s);
        xs := [out];
    }
  }

  /** Every call that the caller is permitted to make, on a state out of its reach, is a move. */
  method Make(p: Process, root: Item, move: Move, ghost s: Value, ghost known: set<Address>)
    returns (ghost after: Scene)
    requires Isolated(root, s, Scene(p.m, known)) && Committable(s) && Permitted(Scene(p.m, known), move)
    modifies p
    ensures after.m == p.m && Moved(root, Scene(old(p.m), known), after, move)
    ensures Isolated(root, After(s, move), after)
    ensures move.Call? && GoodRequest(move.r) ==> Committable(After(s, move))
    ensures !move.Call? ==> After(s, move) == s
  {
    hide Isolated, Denotes, Foot, Shaped, Did, Private, Closed, Apply, Returned, Answer, Gave, Handed, Rooted;
    ghost var before := Scene(p.m, known);
    IsolatedIs(root, s, before);
    match move {
      case Write(a, n) =>
        p.m := Memory(p.m.cells[a := n], if a == p.m.next then a + 1 else p.m.next);
        after := Scene(p.m, known + {a});
      case Call(x, r) =>
        ghost var xs := Perform(p, root, x, r, s, known);
        after := Learned(root, Applied(s, r), before, p.m, xs, Returned(s, r));
        assert Called(root, s, before, after, r, xs);
        if GoodRequest(r) {
          ApplyRefines(s, r);
        }
      case Ask(x, q) =>
        var xs := Consult(p, root, x, q, s);
        after := Learned(root, s, before, p.m, xs, Answer(s, q));
        assert Asked(root, s, before, after, q, xs);
    }
    MoveKeepsIsolated(root, s, before, after, move);
  }
}
