/** Python values as the serializer sees them. */
module Values {
  import opened Wrappers
  import opened Dicts
  import opened Host

  /** The envelope key of a tagged value. */
  const TYPE_KEY := "__jsondb_type__"

  /**
    `Other` is any value the serializer refuses by its type: a frozenset, a
    dict with a key that is not a string, or an object of an unknown class.
    The members of a set are listed in iteration order.
   */
  datatype Value =
    | Null
    | Bool(b: bool)
    | Int(i: int)
    | Float(f: int)
    | Str(s: string)
    | Scalar(kind: Kind, code: int)
    | Other
    | Set(members: seq<Value>)
    | Dict(entries: seq<Entry<Value>>)
    | List(items: seq<Value>)
    | Tuple(items: seq<Value>)

  predicate Hashable(v: Value) {
    match v
    case Scalar(k, c) => Py.hashable(k, c)
    case Set(_) => false
    case Dict(_) => false
    case List(_) => false
    case Tuple(items) => forall i :: 0 <= i < |items| ==> Hashable(items[i])
    case _ => true
  }

  datatype Extended = MinusInfinity | Finite(r: real) | PlusInfinity | NotANumber

  function SpecialNumber(s: Special): Extended {
    match s
    case PlusInfinite => PlusInfinity
    case MinusInfinite => MinusInfinity
    case _ => NotANumber
  }

  /** Booleans, integers, floats and Decimals compare by numeric value. */
  function Number(v: Value): Option<Extended> {
    match v
    case Bool(b) => Some(Finite(if b then 1.0 else 0.0))
    case Int(i) => Some(Finite(i as real))
    case Float(f) =>
      Some(if Py.isFinite(f) then Finite(Py.floatValue(f))
           else if f == Py.infinity then PlusInfinity
           else if f == Py.minusInfinity then MinusInfinity
           else NotANumber)
    case Scalar(k, c) =>
      if k != Decimal then None
      else Some(if Py.storable(k, c) then Finite(Py.decimalValue(c)) else SpecialNumber(Py.special(c)))
    case _ => None
  }

  /** Python's `a == b`, where it does not raise. */
  predicate PyEq(a: Value, b: Value)
    decreases a, 0
  {
    if Number(a).Some? || Number(b).Some? then Number(a) == Number(b) && Number(a) != Some(NotANumber)
    else match (a, b)
      case (Null, Null) => true
      case (Str(s), Str(t)) => s == t
      case (Scalar(k, c), Scalar(l, d)) => k == l && Py.equalityClass(k, c) == Py.equalityClass(l, d)
      case (List(xs), List(ys)) => |xs| == |ys| && forall i :: 0 <= i < |xs| ==> PyEq(xs[i], ys[i])
      case (Tuple(xs), Tuple(ys)) => |xs| == |ys| && forall i :: 0 <= i < |xs| ==> PyEq(xs[i], ys[i])
      case (Set(xs), Set(ys)) =>
        |xs| == |ys| && forall i :: 0 <= i < |xs| ==> EqualsOne(xs[i], ys)
      case (Dict(xs), Dict(ys)) =>
        |xs| == |ys| && forall i :: 0 <= i < |xs| ==> Has(ys, xs[i].key) && PyEq(xs[i].val, Get(ys, xs[i].key))
      case _ => false
  }

  predicate EqualsOne(x: Value, ys: seq<Value>)
    decreases x, 1
  {
    exists j :: 0 <= j < |ys| && PyEq(x, ys[j])
  }

  predicate IsSignalling(v: Value) {
    v.Scalar? && v.kind == Decimal && !Py.storable(Decimal, v.code) && Py.special(v.code) == SignallingNan
  }

  /**
    Python's `a == b` raises `decimal.InvalidOperation`: it compares a
    signalling NaN with a number, itself or inside containers that were equal
    up to there.
   */
  predicate EqRaises(a: Value, b: Value)
    decreases a, 1
  {
    match (a, b)
    case (List(xs), List(ys)) => |xs| == |ys| && ItemsRaise(xs, ys)
    case (Tuple(xs), Tuple(ys)) => |xs| == |ys| && ItemsRaise(xs, ys)
    case (Dict(xs), Dict(ys)) => |xs| == |ys| && EntriesRaise(xs, ys)
    case _ => Number(a).Some? && Number(b).Some? && (IsSignalling(a) || IsSignalling(b))
  }

  predicate ItemsRaise(xs: seq<Value>, ys: seq<Value>)
    decreases xs, 0
  {
    xs != [] && ys != [] && (EqRaises(xs[0], ys[0]) || (PyEq(xs[0], ys[0]) && ItemsRaise(xs[1..], ys[1..])))
  }

  predicate EntriesRaise(xs: seq<Entry<Value>>, ys: seq<Entry<Value>>)
    decreases xs, 0
  {
    && xs != [] && Has(ys, xs[0].key)
    && (EqRaises(xs[0].val, Get(ys, xs[0].key)) || (PyEq(xs[0].val, Get(ys, xs[0].key)) && EntriesRaise(xs[1..], ys)))
  }

  /** What Python guarantees of any value: unique dict keys, hashable and pairwise unequal set members. */
  ghost predicate WellFormed(v: Value) {
    match v
    case Set(ms) => Distinct(ms) && forall i :: 0 <= i < |ms| ==> Hashable(ms[i])
    case Dict(es) => UniqueKeys(es) && forall i :: 0 <= i < |es| ==> WellFormed(es[i].val)
    case List(items) => forall i :: 0 <= i < |items| ==> WellFormed(items[i])
    case Tuple(items) => forall i :: 0 <= i < |items| ==> WellFormed(items[i])
    case _ => true
  }

  ghost predicate Distinct(ms: seq<Value>) {
    forall i, j :: 0 <= i < |ms| && 0 <= j < |ms| && i != j ==> !PyEq(ms[i], ms[j])
  }

  /** `_reject_reserved_type_key` passes: no dict inside holds the envelope key. */
  predicate Clean(v: Value) {
    match v
    case Set(ms) => forall i :: 0 <= i < |ms| ==> Clean(ms[i])
    case Dict(es) => !Has(es, TYPE_KEY) && forall i :: 0 <= i < |es| ==> Clean(es[i].val)
    case List(items) => forall i :: 0 <= i < |items| ==> Clean(items[i])
    case Tuple(items) => forall i :: 0 <= i < |items| ==> Clean(items[i])
    case _ => true
  }

  /** `set(items)`: of members that are equal in Python the first is kept. */
  function Dedup(ms: seq<Value>): seq<Value> {
    if ms == [] then []
    else
      var r := Dedup(ms[..|ms| - 1]);
      if exists i :: 0 <= i < |r| && PyEq(r[i], ms[|ms| - 1]) then r else r + [ms[|ms| - 1]]
  }

  lemma {:induction false} PyEqSymmetric(a: Value, b: Value)
    requires Hashable(a) && Hashable(b)
    ensures PyEq(a, b) == PyEq(b, a)
  {
    if a.Tuple? && b.Tuple? && |a.items| == |b.items| {
      forall i | 0 <= i < |a.items| ensures PyEq(a.items[i], b.items[i]) == PyEq(b.items[i], a.items[i]) {
        PyEqSymmetric(a.items[i], b.items[i]);
      }
    }
  }

  lemma {:induction false} DedupIsDistinct(ms: seq<Value>)
    requires forall i :: 0 <= i < |ms| ==> Hashable(ms[i])
    ensures Distinct(Dedup(ms))
    ensures forall i :: 0 <= i < |Dedup(ms)| ==> Dedup(ms)[i] in ms
  {
    if ms != [] {
      var init, last := ms[..|ms| - 1], ms[|ms| - 1];
      DedupIsDistinct(init);
      var r := Dedup(init);
      if Dedup(ms) != r {
        forall i | 0 <= i < |r| ensures !PyEq(last, r[i]) {
          assert r[i] in init;
          PyEqSymmetric(last, r[i]);
        }
      }
    }
  }

  lemma {:induction false} DedupOfDistinct(ms: seq<Value>)
    requires Distinct(ms)
    ensures Dedup(ms) == ms
  {
    hide PyEq;
    if ms != [] {
      var init := ms[..|ms| - 1];
      DedupOfDistinct(init);
      assert forall i :: 0 <= i < |init| ==> init[i] == ms[i];
      assert ms == init + [ms[|ms| - 1]];
    }
  }

  // ---------- What a value denotes ----------

  /** A value up to dict order, set order and the difference between a list and a tuple. */
  datatype Meaning =
    | Atom(v: Value)
    | Sequence(items: seq<Meaning>)
    | Bag(members: set<Meaning>)
    | Mapping(fields: map<string, Meaning>)

  ghost function Mean(v: Value): Meaning {
    match v
    case Set(ms) => Bag(set i | 0 <= i < |ms| :: Mean(ms[i]))
    case Dict(es) => Mapping(AsMap(MeanEntries(es)))
    case List(items) => Sequence(seq(|items|, i requires 0 <= i < |items| => Mean(items[i])))
    case Tuple(items) => Sequence(seq(|items|, i requires 0 <= i < |items| => Mean(items[i])))
    case _ => Atom(v)
  }

  ghost function MeanEntries(es: seq<Entry<Value>>): seq<Entry<Meaning>> {
    seq(|es|, i requires 0 <= i < |es| => Entry(es[i].key, Mean(es[i].val)))
  }

  /** `v` without tuples, except inside sets: the shape of everything that was loaded. */
  ghost predicate Listed(v: Value) {
    match v
    case Dict(es) => forall i :: 0 <= i < |es| ==> Listed(es[i].val)
    case List(items) => forall i :: 0 <= i < |items| ==> Listed(items[i])
    case Tuple(_) => false
    case _ => true
  }

  /** Hashable values are told apart by what they denote. */
  lemma {:induction false} MeanOfHashable(a: Value, b: Value)
    requires Hashable(a) && Hashable(b) && Mean(a) == Mean(b)
    ensures a == b
  {
    if a.Tuple? {
      assert Mean(a).items == Mean(b).items;
      forall i | 0 <= i < |a.items| ensures a.items[i] == b.items[i] {
        assert Mean(a).items[i] == Mean(b).items[i];
        MeanOfHashable(a.items[i], b.items[i]);
      }
    }
  }
}
