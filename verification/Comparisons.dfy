/** What each query operator answers on the values that can be stored. */
module Comparisons {
  import opened Wrappers
  import opened Dicts
  import opened Host
  import opened Values
  import opened Errors
  import opened Storage
  import opened Query

  /** A document whose field is `a` satisfies `{field: {op: b}}`. */
  predicate Selects(a: Value, op: Op, b: Value) {
    Satisfies(Dict([Entry("field", a)]), One("field", op, b))
  }

  lemma SelectsIs(a: Value, op: Op, b: Value)
    ensures Selects(a, op, b) <==> OpHolds(a, true, op, b)
  {
    hide OpHolds, Satisfies;
    var document := Dict([Entry("field", a)]);
    OneMeans(document, "field", op, b);
    assert document.entries[0].key == "field";
  }

  /** What the comparing operators ask. */
  lemma OpsAre(a: Value, b: Value)
    ensures Selects(a, Eq, b) <==> PyEq(a, b)
    ensures Selects(a, Ne, b) <==> !PyEq(a, b)
    ensures Selects(a, Gt, b) <==> Ordered(Above, a, b) == Answer(true)
    ensures Selects(a, Gte, b) <==> Ordered(AtLeast, a, b) == Answer(true)
    ensures Selects(a, Lt, b) <==> Ordered(Below, a, b) == Answer(true)
    ensures Selects(a, Lte, b) <==> Ordered(AtMost, a, b) == Answer(true)
  {
    hide Selects, PyEq, Ordered, Contains, Truthy, Among;
    SelectsIs(a, Eq, b);
    SelectsIs(a, Ne, b);
    SelectsIs(a, Gt, b);
    SelectsIs(a, Gte, b);
    SelectsIs(a, Lt, b);
    SelectsIs(a, Lte, b);
  }

  /** Only the field counts; a missing one is unequal to everything, in no list, and not there. */
  lemma FieldDecides(document: Value, field: string, op: Op, b: Value)
    requires document.Dict?
    ensures Has(document.entries, field) ==>
      (Satisfies(document, One(field, op, b)) <==> Selects(Get(document.entries, field), op, b))
    ensures !Has(document.entries, field) ==>
      (Satisfies(document, One(field, op, b)) <==> op == Ne || op == Nin || (op == Exist && !Truthy(b)))
  {
    hide Satisfies, Selects, Has, Get, PyEq, Ordered, Contains, Truthy, Among;
    OneMeans(document, field, op, b);
    SelectsIs(GetOrNull(document.entries, field), op, b);
  }

  // ---------- Criteria ----------

  /** Without an operator the field must be there and equal. */
  lemma PlainFieldIsEquality(document: Value, field: string, expected: Value)
    requires document.Dict?
    requires expected.Dict? ==> forall i :: 0 <= i < |expected.entries| ==> !("$" <= expected.entries[i].key)
    ensures Satisfies(document, Dict([Entry(field, expected)])) <==>
      Has(document.entries, field) && Selects(Get(document.entries, field), Eq, expected)
  {
    hide Selects, PyEq;
    var criteria := Dict([Entry(field, expected)]);
    assert criteria.entries[0].key == field;
    if Has(document.entries, field) {
      SelectsIs(Get(document.entries, field), Eq, expected);
    }
  }

  /** An expression may not mix operators with other keys, and every operator must be known. */
  lemma MixedIsRefused(document: Value, field: string, expected: Value, i: nat, j: nat)
    requires document.Dict? && expected.Dict? && i < |expected.entries| && j < |expected.entries|
    requires "$" <= expected.entries[i].key && !("$" <= expected.entries[j].key)
    ensures Matched(document, Dict([Entry(field, expected)])) == Err(QueryError)
  {
    hide Operators, Equals, Has, GetOrNull;
    assert IsOperator(expected.entries[i].key) && !IsOperator(expected.entries[j].key);
    assert FieldResult(document, field, expected) == Err(QueryError);
  }

  lemma UnknownIsRefused(document: Value, field: string, op: string, x: Value)
    requires document.Dict? && "$" <= op
    requires op !in {"$eq", "$ne", "$gt", "$gte", "$lt", "$lte", "$in", "$nin", "$contains", "$exists"}
    ensures Matched(document, Dict([Entry(field, Dict([Entry(op, x)]))])) == Err(QueryError)
  {
    hide Equals, Has, GetOrNull, OpResult;
    var expected := Dict([Entry(op, x)]);
    assert IsOperator(expected.entries[0].key);
    assert IsExpression(expected) == Ok(true);
    assert FieldResult(document, field, expected) == Err(QueryError);
  }

  /** No criteria accept everything; criteria that are no dict are refused. */
  lemma NoCriteria(document: Value, criteria: Value)
    requires document.Dict?
    ensures Matched(document, Null) == Ok(true) && Matched(document, Dict([])) == Ok(true)
    ensures !criteria.Null? && !criteria.Dict? ==> Matched(document, criteria) == Err(QueryError)
  {
  }

  // ---------- Numbers ----------

  lemma NumbersAre(c: Comparison, a: Value, b: Value)
    requires Number(a).Some? && Number(b).Some?
    ensures Ordered(c, a, b) == OrderedNumbers(c, a, b)
    ensures PyEq(a, b) <==> Number(a) == Number(b) && Number(a) != Some(NotANumber)
  {
    hide OrderedNumbers, Number;
  }

  lemma OrderedFinite(c: Comparison, a: Value, b: Value, x: real, y: real)
    requires Number(a) == Some(Finite(x)) && Number(b) == Some(Finite(y))
    ensures Ordered(c, a, b) == Answer(
        match c
        case Above => x > y
        case AtLeast => x >= y
        case Below => x < y
        case AtMost => x <= y)
  {
    hide Number, IsDecimal, Ordered;
    NumbersAre(c, a, b);
  }

  lemma EqualFinite(a: Value, b: Value, x: real, y: real)
    requires Number(a) == Some(Finite(x)) && Number(b) == Some(Finite(y))
    ensures PyEq(a, b) <==> x == y
  {
    hide Number;
  }

  lemma NumbersCompare(a: Value, b: Value, x: real, y: real)
    requires Number(a) == Some(Finite(x)) && Number(b) == Some(Finite(y))
    ensures Selects(a, Gt, b) <==> x > y
    ensures Selects(a, Gte, b) <==> x >= y
    ensures Selects(a, Lt, b) <==> x < y
    ensures Selects(a, Lte, b) <==> x <= y
    ensures Selects(a, Eq, b) <==> x == y
    ensures Selects(a, Ne, b) <==> x != y
  {
    hide Selects, Number, Ordered, PyEq;
    OpsAre(a, b);
    EqualFinite(a, b, x, y);
    forall c: Comparison { OrderedFinite(c, a, b, x, y); }
  }

  lemma IntegersCompare(i: int, j: int)
    ensures Selects(Int(i), Gt, Int(j)) <==> i > j
    ensures Selects(Int(i), Gte, Int(j)) <==> i >= j
    ensures Selects(Int(i), Lt, Int(j)) <==> i < j
    ensures Selects(Int(i), Lte, Int(j)) <==> i <= j
    ensures Selects(Int(i), Eq, Int(j)) <==> i == j
    ensures Selects(Int(i), Ne, Int(j)) <==> i != j
  {
    hide Selects;
    NumbersCompare(Int(i), Int(j), i as real, j as real);
  }

  /** Booleans count as 0 and 1; floats and Decimals compare with integers by value. */
  lemma MixedNumbersCompare(b: bool, f: int, d: int, j: int)
    requires Py.isFinite(f) && Py.storable(Decimal, d)
    ensures Selects(Bool(b), Eq, Int(j)) <==> j == if b then 1 else 0
    ensures Selects(Float(f), Gt, Int(j)) <==> Py.floatValue(f) > j as real
    ensures Selects(Float(f), Eq, Int(j)) <==> Py.floatValue(f) == j as real
    ensures Selects(Scalar(Decimal, d), Gt, Int(j)) <==> Py.decimalValue(d) > j as real
    ensures Selects(Scalar(Decimal, d), Eq, Float(f)) <==> Py.decimalValue(d) == Py.floatValue(f)
  {
    hide Selects;
    NumbersCompare(Bool(b), Int(j), if b then 1.0 else 0.0, j as real);
    NumbersCompare(Float(f), Int(j), Py.floatValue(f), j as real);
    NumbersCompare(Scalar(Decimal, d), Int(j), Py.decimalValue(d), j as real);
    NumbersCompare(Scalar(Decimal, d), Float(f), Py.decimalValue(d), Py.floatValue(f));
  }

  lemma SpecialFloats()
    ensures Number(Float(Py.infinity)) == Some(PlusInfinity)
    ensures Number(Float(Py.minusInfinity)) == Some(MinusInfinity)
    ensures Number(Float(Py.nan)) == Some(NotANumber)
  {
  }

  lemma InfinityOrdered(c: Comparison, v: Value, a: Value, x: real)
    requires Number(a) == Some(Finite(x)) && !IsDecimal(a) && !IsDecimal(v)
    ensures Number(v) == Some(PlusInfinity) ==> Ordered(c, v, a) == Answer(!c.Upward()) && !PyEq(v, a)
    ensures Number(v) == Some(MinusInfinity) ==> Ordered(c, v, a) == Answer(c.Upward()) && !PyEq(v, a)
  {
    hide Number, IsDecimal, Ordered, PyEq;
    if Number(v).Some? {
      NumbersAre(c, v, a);
    }
  }

  lemma NanOrdered(c: Comparison, v: Value, a: Value)
    requires Number(v) == Some(NotANumber) && Number(a).Some? && !IsDecimal(a) && !IsDecimal(v)
    ensures Ordered(c, v, a) == Answer(false) && Ordered(c, a, v) == Answer(false) && !PyEq(v, a) && !PyEq(a, v)
  {
    hide Number, IsDecimal, Ordered, PyEq;
    NumbersAre(c, v, a);
    NumbersAre(c, a, v);
  }

  /** The infinities are beyond every number. */
  lemma InfinitiesCompare(a: Value, x: real)
    requires Number(a) == Some(Finite(x)) && !IsDecimal(a)
    ensures Selects(Float(Py.infinity), Gt, a) && Selects(Float(Py.infinity), Gte, a)
    ensures !Selects(Float(Py.infinity), Lt, a) && !Selects(Float(Py.infinity), Lte, a)
    ensures Selects(Float(Py.minusInfinity), Lt, a) && Selects(Float(Py.minusInfinity), Lte, a)
    ensures !Selects(Float(Py.minusInfinity), Gt, a) && !Selects(Float(Py.minusInfinity), Gte, a)
    ensures !Selects(Float(Py.infinity), Eq, a) && !Selects(Float(Py.minusInfinity), Eq, a)
  {
    hide Selects, Ordered, Number, PyEq;
    SpecialFloats();
    OpsAre(Float(Py.infinity), a);
    OpsAre(Float(Py.minusInfinity), a);
    forall c: Comparison
      ensures Ordered(c, Float(Py.infinity), a) == Answer(!c.Upward())
      ensures Ordered(c, Float(Py.minusInfinity), a) == Answer(c.Upward())
    {
      InfinityOrdered(c, Float(Py.infinity), a, x);
      InfinityOrdered(c, Float(Py.minusInfinity), a, x);
    }
    InfinityOrdered(Below, Float(Py.infinity), a, x);
    InfinityOrdered(Below, Float(Py.minusInfinity), a, x);
  }

  /** A float that is no number compares with nothing, itself included. */
  lemma NanCompares(a: Value)
    requires Number(a).Some? && !IsDecimal(a)
    ensures forall op :: op in {Gt, Gte, Lt, Lte, Eq} ==>
      !Selects(Float(Py.nan), op, a) && !Selects(a, op, Float(Py.nan))
    ensures Selects(Float(Py.nan), Ne, Float(Py.nan))
  {
    hide Selects, Ordered, PyEq, Number;
    SpecialFloats();
    OpsAre(Float(Py.nan), a);
    OpsAre(a, Float(Py.nan));
    OpsAre(Float(Py.nan), Float(Py.nan));
    NanOrdered(Below, Float(Py.nan), Float(Py.nan));
    forall c: Comparison { NanOrdered(c, Float(Py.nan), a); }
  }

  // ---------- Strings, dates and bytes ----------

  lemma {:induction false} LeqByDifference(s: string, t: string, k: nat)
    requires k <= |s| && k <= |t| && s[..k] == t[..k] && (k < |s| && k < |t| ==> s[k] != t[k])
    ensures Leq(s, t) <==> if k < |s| && k < |t| then s[k] < t[k] else |s| <= |t|
    decreases k
  {
    if k > 0 {
      assert s[0] == s[..k][0] == t[..k][0] == t[0];
      assert s[1..][..k - 1] == s[..k][1..] && t[1..][..k - 1] == t[..k][1..];
      LeqByDifference(s[1..], t[1..], k - 1);
    }
  }

  /** Strings compare by the first character that differs, and then by length. */
  lemma StringsCompare(s: string, t: string, k: nat)
    requires k <= |s| && k <= |t| && s[..k] == t[..k]
    requires k < |s| && k < |t| ==> s[k] != t[k]
    requires k == |s| || k == |t| || s[k] != t[k]
    ensures Selects(Str(s), Lt, Str(t)) <==> if k < |s| && k < |t| then s[k] < t[k] else |s| < |t|
    ensures Selects(Str(s), Lte, Str(t)) <==> if k < |s| && k < |t| then s[k] < t[k] else |s| <= |t|
    ensures Selects(Str(s), Gt, Str(t)) <==> if k < |s| && k < |t| then s[k] > t[k] else |s| > |t|
    ensures Selects(Str(s), Gte, Str(t)) <==> if k < |s| && k < |t| then s[k] > t[k] else |s| >= |t|
    ensures Selects(Str(s), Eq, Str(t)) <==> s == t
  {
    hide Selects, Leq;
    OpsAre(Str(s), Str(t));
    LeqByDifference(s, t, k);
    LeqByDifference(t, s, k);
    if k == |s| == |t| {
      assert s == s[..k] == t[..k] == t;
    }
  }

  /** Dates, datetimes and bytes compare as the platform does, and only with their own kind. */
  lemma ScalarsCompare(k: Kind, c: int, l: Kind, d: int)
    requires k != Decimal && l != Decimal
    ensures var a, b := Scalar(k, c), Scalar(l, d);
      && (Selects(a, Eq, b) <==> k == l && Py.equalityClass(k, c) == Py.equalityClass(l, d))
      && (Selects(a, Lt, b) <==> k == l && Py.less(k, c, d) == Some(true))
      && (Selects(a, Gt, b) <==> k == l && Py.less(k, d, c) == Some(true))
      && (Selects(a, Lte, b) <==>
            k == l && Py.less(k, c, d).Some? && (Py.less(k, c, d).value || Selects(a, Eq, b)))
      && (Selects(a, Gte, b) <==>
            k == l && Py.less(k, d, c).Some? && (Py.less(k, d, c).value || Selects(a, Eq, b)))
  {
    hide Selects;
    OpsAre(Scalar(k, c), Scalar(l, d));
  }

  /** Numbers are one type, each kind of tagged scalar is one, and a list is no tuple. */
  function TypeOf(v: Value): nat {
    match v
    case Null => 0
    case Bool(_) | Int(_) | Float(_) => 1
    case Str(_) => 2
    case Scalar(k, _) =>
      (match k case Decimal => 1 case DateTime => 3 case Date => 4 case Bytes => 5)
    case Set(_) => 6
    case Dict(_) => 7
    case List(_) => 8
    case Tuple(_) => 9
    case Other => 10
  }

  lemma TypesAreUnequal(a: Value, b: Value)
    requires TypeOf(a) != TypeOf(b)
    ensures !PyEq(a, b)
  {
  }

  lemma TypesAreUnordered(c: Comparison, a: Value, b: Value)
    requires TypeOf(a) != TypeOf(b)
    ensures Ordered(c, a, b) == Incomparable
  {
    hide PyEq;
  }

  /** Values of different types are unequal and do not compare. */
  lemma TypesDoNotMix(a: Value, b: Value)
    requires TypeOf(a) != TypeOf(b)
    ensures Selects(a, Ne, b) && !Selects(a, Eq, b)
    ensures !Selects(a, Gt, b) && !Selects(a, Gte, b) && !Selects(a, Lt, b) && !Selects(a, Lte, b)
  {
    hide Selects, Ordered, PyEq, TypeOf;
    OpsAre(a, b);
    TypesAreUnequal(a, b);
    forall c: Comparison { TypesAreUnordered(c, a, b); }
  }

  /** Dicts and None are never ordered. */
  lemma Unordered(a: Value, b: Value)
    requires a.Dict? || a.Null? || a.Other?
    ensures !Selects(a, Gt, b) && !Selects(a, Gte, b) && !Selects(a, Lt, b) && !Selects(a, Lte, b)
    ensures Selects(Null, Eq, Null)
  {
    hide Selects;
    OpsAre(a, b);
    OpsAre(Null, Null);
  }

  // ---------- Lists and tuples ----------

  /** The first `k` pairs are equal. */
  predicate SameUpTo(xs: seq<Value>, ys: seq<Value>, k: nat)
    requires k <= |xs| && k <= |ys|
  {
    forall i :: 0 <= i < k ==> Selects(xs[i], Eq, ys[i]) && !EqRaises(xs[i], ys[i])
  }

  lemma {:induction false} OrderedByDifference(op: Comparison, xs: seq<Value>, ys: seq<Value>, k: nat)
    requires k <= |xs| && k <= |ys| && forall i :: 0 <= i < k ==> PyEq(xs[i], ys[i]) && !EqRaises(xs[i], ys[i])
    ensures OrderedItems(op, xs, ys) == OrderedItems(op, xs[k..], ys[k..])
    decreases k
  {
    if k > 0 {
      OrderedByDifference(op, xs[1..], ys[1..], k - 1);
      assert xs[1..][k - 1..] == xs[k..] && ys[1..][k - 1..] == ys[k..];
    }
  }

  lemma SequencesCompare(a: Value, b: Value, xs: seq<Value>, ys: seq<Value>, k: nat)
    requires (a == List(xs) && b == List(ys)) || (a == Tuple(xs) && b == Tuple(ys))
    requires k <= |xs| && k <= |ys| && SameUpTo(xs, ys, k)
    ensures forall c: Comparison :: Ordered(c, a, b) == OrderedItems(c, xs[k..], ys[k..])
  {
    hide Selects, EqRaises, OrderedItems, PyEq;
    forall i | 0 <= i < k ensures PyEq(xs[i], ys[i]) {
      SelectsIs(xs[i], Eq, ys[i]);
    }
    forall c: Comparison ensures Ordered(c, a, b) == OrderedItems(c, xs[k..], ys[k..]) {
      OrderedByDifference(c, xs, ys, k);
    }
  }

  /** The first unequal pair decides. */
  lemma FirstDifferenceDecides(a: Value, b: Value, xs: seq<Value>, ys: seq<Value>, k: nat)
    requires (a == List(xs) && b == List(ys)) || (a == Tuple(xs) && b == Tuple(ys))
    requires k < |xs| && k < |ys| && SameUpTo(xs, ys, k)
    requires Selects(xs[k], Ne, ys[k]) && !EqRaises(xs[k], ys[k])
    ensures forall op :: op in {Gt, Gte, Lt, Lte} ==> (Selects(a, op, b) <==> Selects(xs[k], op, ys[k]))
  {
    hide Selects, EqRaises, PyEq, SameUpTo, Ordered;
    SequencesCompare(a, b, xs, ys, k);
    OpsAre(a, b);
    OpsAre(xs[k], ys[k]);
  }

  /** Without one, the longer list is the greater. */
  lemma LengthDecides(a: Value, b: Value, xs: seq<Value>, ys: seq<Value>)
    requires (a == List(xs) && b == List(ys)) || (a == Tuple(xs) && b == Tuple(ys))
    requires var k := if |xs| <= |ys| then |xs| else |ys|; SameUpTo(xs, ys, k)
    ensures Selects(a, Lt, b) <==> |xs| < |ys|
    ensures Selects(a, Lte, b) <==> |xs| <= |ys|
    ensures Selects(a, Gt, b) <==> |xs| > |ys|
    ensures Selects(a, Gte, b) <==> |xs| >= |ys|
  {
    hide Selects, EqRaises, PyEq, SameUpTo, Ordered;
    SequencesCompare(a, b, xs, ys, if |xs| <= |ys| then |xs| else |ys|);
    OpsAre(a, b);
  }

  /** Lists and tuples are equal item by item. */
  lemma EqualItems(a: Value, b: Value, xs: seq<Value>, ys: seq<Value>)
    requires (a == List(xs) && b == List(ys)) || (a == Tuple(xs) && b == Tuple(ys))
    ensures Selects(a, Eq, b) <==> |xs| == |ys| && forall i :: 0 <= i < |xs| ==> Selects(xs[i], Eq, ys[i])
  {
    hide Selects;
    SelectsIs(a, Eq, b);
    if |xs| == |ys| {
      forall i | 0 <= i < |xs| ensures Selects(xs[i], Eq, ys[i]) <==> PyEq(xs[i], ys[i]) {
        SelectsIs(xs[i], Eq, ys[i]);
      }
    }
  }

  // ---------- Dicts ----------

  lemma SubsetOfSameSize(a: set<string>, b: set<string>)
    requires a <= b && |a| == |b|
    ensures a == b
  {
    if b - a != {} {
      var k :| k in b - a;
      SmallerSet(a, b - {k});
    }
  }

  lemma {:induction false} SmallerSet(a: set<string>, b: set<string>)
    requires a <= b
    ensures |a| <= |b|
  {
    if a != {} {
      var k :| k in a;
      SmallerSet(a - {k}, b - {k});
    }
  }

  lemma FieldIs(xs: seq<Entry<Value>>, ys: seq<Entry<Value>>, i: nat)
    requires UniqueKeys(xs) && UniqueKeys(ys) && i < |xs|
    ensures xs[i].key in AsMap(xs) && AsMap(xs)[xs[i].key] == xs[i].val
    ensures Has(ys, xs[i].key) <==> xs[i].key in AsMap(ys)
    ensures Has(ys, xs[i].key) ==> AsMap(ys)[xs[i].key] == Get(ys, xs[i].key)
  {
    AtIndex(xs, i);
    HasIsKey(ys, xs[i].key);
  }

  /** Dicts are equal if they have the same keys and equal values, in any order. */
  lemma EqualFields(xs: seq<Entry<Value>>, ys: seq<Entry<Value>>)
    requires UniqueKeys(xs) && UniqueKeys(ys)
    ensures Selects(Dict(xs), Eq, Dict(ys)) <==>
      && AsMap(xs).Keys == AsMap(ys).Keys
      && forall k :: k in AsMap(xs) ==> Selects(AsMap(xs)[k], Eq, AsMap(ys)[k])
  {
    hide Selects, AsMap, Has, Get, UniqueKeys;
    SelectsIs(Dict(xs), Eq, Dict(ys));
    if PyEq(Dict(xs), Dict(ys)) {
      forall k | k in AsMap(xs) ensures k in AsMap(ys) && Selects(AsMap(xs)[k], Eq, AsMap(ys)[k]) {
        var i := IndexOfKey(xs, k);
        FieldIs(xs, ys, i);
        SelectsIs(AsMap(xs)[k], Eq, AsMap(ys)[k]);
      }
      KeysCount(xs);
      KeysCount(ys);
      SubsetOfSameSize(AsMap(xs).Keys, AsMap(ys).Keys);
    }
    if AsMap(xs).Keys == AsMap(ys).Keys && forall k :: k in AsMap(xs) ==> Selects(AsMap(xs)[k], Eq, AsMap(ys)[k]) {
      KeysCount(xs);
      KeysCount(ys);
      forall i | 0 <= i < |xs| ensures Has(ys, xs[i].key) && PyEq(xs[i].val, Get(ys, xs[i].key)) {
        FieldIs(xs, ys, i);
        SelectsIs(xs[i].val, Eq, Get(ys, xs[i].key));
      }
    }
  }

  // ---------- Sets ----------

  predicate IsMember(ys: seq<Value>, x: Value) {
    exists j :: 0 <= j < |ys| && Selects(ys[j], Eq, x)
  }

  /** Every member of `xs` is equal to one of `ys`. */
  predicate Includes(ys: seq<Value>, xs: seq<Value>) {
    forall i :: 0 <= i < |xs| ==> IsMember(ys, xs[i])
  }

  ghost predicate Members(ms: seq<Value>) {
    Distinct(ms) && forall i :: 0 <= i < |ms| ==> Hashable(ms[i])
  }

  lemma IncludesIs(ys: seq<Value>, xs: seq<Value>)
    ensures Includes(ys, xs) <==> IsSubset(xs, ys)
  {
    hide Selects, PyEq;
    if Includes(ys, xs) {
      forall i | 0 <= i < |xs| ensures Among(xs[i], ys) {
        assert IsMember(ys, xs[i]);
        var j :| 0 <= j < |ys| && Selects(ys[j], Eq, xs[i]);
        SelectsIs(ys[j], Eq, xs[i]);
      }
    }
    if IsSubset(xs, ys) {
      forall i | 0 <= i < |xs| ensures IsMember(ys, xs[i]) {
        assert Among(xs[i], ys);
        var j :| 0 <= j < |ys| && PyEq(ys[j], xs[i]);
        SelectsIs(ys[j], Eq, xs[i]);
      }
    }
  }

  lemma {:induction false} PyEqTransitive(a: Value, b: Value, c: Value)
    requires Hashable(a) && Hashable(b) && Hashable(c) && PyEq(a, b) && PyEq(b, c)
    ensures PyEq(a, c)
    decreases a
  {
    if a.Tuple? && b.Tuple? && c.Tuple? {
      forall i | 0 <= i < |a.items| ensures PyEq(a.items[i], c.items[i]) {
        PyEqTransitive(a.items[i], b.items[i], c.items[i]);
      }
    }
  }

  /** Included members are no more, and if they are as many the two sets are the same. */
  lemma {:induction false} InclusionCounts(xs: seq<Value>, ys: seq<Value>)
    requires Members(xs) && Members(ys) && IsSubset(xs, ys)
    ensures |xs| <= |ys|
    ensures |xs| == |ys| ==> IsSubset(ys, xs)
    decreases |xs|
  {
    hide PyEq, Hashable;
    if xs != [] {
      assert Among(xs[0], ys);
      var j :| 0 <= j < |ys| && PyEq(ys[j], xs[0]);
      var zs := ys[..j] + ys[j + 1..];
      WithoutOne(xs, ys, j);
      InclusionCounts(xs[1..], zs);
      if |xs| == |ys| {
        PyEqSymmetric(ys[j], xs[0]);
        forall i | 0 <= i < |ys| ensures Among(ys[i], xs) {
          if i != j {
            var i' := if i < j then i else i - 1;
            assert zs[i'] == ys[i] && Among(zs[i'], xs[1..]);
            var k :| 0 <= k < |xs[1..]| && PyEq(xs[1..][k], zs[i']);
            assert xs[k + 1] == xs[1..][k];
          }
        }
      }
    }
  }

  lemma WithoutOne(xs: seq<Value>, ys: seq<Value>, j: nat)
    requires xs != [] && Members(xs) && Members(ys) && IsSubset(xs, ys) && j < |ys| && PyEq(ys[j], xs[0])
    ensures var zs := ys[..j] + ys[j + 1..]; Members(xs[1..]) && Members(zs) && IsSubset(xs[1..], zs)
  {
    hide PyEq, Hashable;
    var zs := ys[..j] + ys[j + 1..];
    assert forall i :: 0 <= i < |zs| ==> zs[i] == if i < j then ys[i] else ys[i + 1];
    PyEqSymmetric(ys[j], xs[0]);
    forall i | 0 <= i < |xs[1..]| ensures Among(xs[1..][i], zs) {
      assert Among(xs[i + 1], ys);
      var l :| 0 <= l < |ys| && PyEq(ys[l], xs[i + 1]);
      if l == j {
        PyEqTransitive(xs[0], ys[j], xs[i + 1]);
      }
      assert zs[if l < j then l else l - 1] == ys[l];
    }
  }

  lemma SetsAreEqual(xs: seq<Value>, ys: seq<Value>)
    requires Members(xs) && Members(ys)
    ensures PyEq(Set(xs), Set(ys)) <==> |xs| == |ys| && IsSubset(xs, ys)
  {
    hide Hashable;
    if PyEq(Set(xs), Set(ys)) {
      forall i | 0 <= i < |xs| ensures Among(xs[i], ys) {
        assert EqualsOne(xs[i], ys);
        var j :| 0 <= j < |ys| && PyEq(xs[i], ys[j]);
        PyEqSymmetric(xs[i], ys[j]);
      }
    }
    if |xs| == |ys| && IsSubset(xs, ys) {
      forall i | 0 <= i < |xs| ensures EqualsOne(xs[i], ys) {
        assert Among(xs[i], ys);
        var j :| 0 <= j < |ys| && PyEq(ys[j], xs[i]);
        PyEqSymmetric(ys[j], xs[i]);
      }
    }
  }

  /** Sets compare by inclusion. */
  lemma SetsCompare(xs: seq<Value>, ys: seq<Value>)
    requires Members(xs) && Members(ys)
    ensures Selects(Set(xs), Lte, Set(ys)) <==> Includes(ys, xs)
    ensures Selects(Set(xs), Gte, Set(ys)) <==> Includes(xs, ys)
    ensures Selects(Set(xs), Lt, Set(ys)) <==> Includes(ys, xs) && !Includes(xs, ys)
    ensures Selects(Set(xs), Gt, Set(ys)) <==> Includes(xs, ys) && !Includes(ys, xs)
    ensures Selects(Set(xs), Eq, Set(ys)) <==> Includes(xs, ys) && Includes(ys, xs)
  {
    hide Selects, PyEq, Hashable, Includes, IsSubset, Members;
    OpsAre(Set(xs), Set(ys));
    IncludesIs(ys, xs);
    IncludesIs(xs, ys);
    if IsSubset(xs, ys) {
      InclusionCounts(xs, ys);
    }
    if IsSubset(ys, xs) {
      InclusionCounts(ys, xs);
    }
    SetsAreEqual(xs, ys);
  }

  // ---------- Membership ----------

  /** `$in` and `$nin`: some item of the list is equal to the field. */
  lemma InMeansEqual(a: Value, ys: seq<Value>)
    ensures Selects(a, In, List(ys)) <==> exists i :: 0 <= i < |ys| && Selects(ys[i], Eq, a)
    ensures Selects(a, Nin, List(ys)) <==> forall i :: 0 <= i < |ys| ==> Selects(ys[i], Ne, a)
  {
    hide Selects, PyEq;
    SelectsIs(a, In, List(ys));
    SelectsIs(a, Nin, List(ys));
    forall i | 0 <= i < |ys|
      ensures (Selects(ys[i], Eq, a) <==> PyEq(ys[i], a)) && (Selects(ys[i], Ne, a) <==> !PyEq(ys[i], a))
    {
      OpsAre(ys[i], a);
    }
  }

  lemma WithinSplits<T>(s: seq<T>, t: seq<T>)
    requires Within(s, t)
    ensures exists before, after :: t == before + s + after
  {
    var i :| 0 <= i <= |t| && s <= t[i..];
    assert t == t[..i] + s + t[i..][|s|..];
  }

  lemma WithinMeans<T>(s: seq<T>, t: seq<T>)
    ensures Within(s, t) <==> exists before, after :: t == before + s + after
  {
    hide Within;
    if Within(s, t) {
      WithinSplits(s, t);
    }
    if before, after :| t == before + s + after {
      IsWithin(s, before, after);
    }
  }

  lemma IsWithin<T>(s: seq<T>, before: seq<T>, after: seq<T>)
    ensures Within(s, before + s + after)
  {
    assert (before + s + after)[|before|..] == s + after;
  }

  /** `$contains` finds a substring. */
  lemma ContainsSubstring(t: string, s: string)
    ensures Selects(Str(t), Contain, Str(s)) <==> exists before, after :: t == before + s + after
  {
    hide Selects, Within;
    SelectsIs(Str(t), Contain, Str(s));
    WithinMeans(s, t);
  }

  /** `$contains` finds an equal item of a list or tuple, a member of a set, a key of a dict. */
  lemma ContainsItem(items: seq<Value>, es: seq<Entry<Value>>, e: Value, k: string)
    ensures Selects(List(items), Contain, e) <==> exists i :: 0 <= i < |items| && Selects(items[i], Eq, e)
    ensures Selects(Tuple(items), Contain, e) <==> exists i :: 0 <= i < |items| && Selects(items[i], Eq, e)
    ensures Selects(Set(items), Contain, e) <==>
      Hashable(e) && exists i :: 0 <= i < |items| && Selects(items[i], Eq, e)
    ensures Selects(Dict(es), Contain, Str(k)) <==> k in AsMap(es)
  {
    hide Selects, PyEq, Hashable;
    SelectsIs(List(items), Contain, e);
    SelectsIs(Tuple(items), Contain, e);
    SelectsIs(Set(items), Contain, e);
    SelectsIs(Dict(es), Contain, Str(k));
    HasIsKey(es, k);
    forall i | 0 <= i < |items| ensures Selects(items[i], Eq, e) <==> PyEq(items[i], e) {
      SelectsIs(items[i], Eq, e);
    }
  }

  /** In bytes it finds a byte, or bytes that follow one another. Nothing is contained in other values. */
  lemma ContainsBytes(c: int, d: int, i: int, other: Value, e: Value)
    requires TypeOf(other) in {0, 1, 3, 4, 10}
    ensures 0 <= i < 256 ==> (Selects(Scalar(Bytes, c), Contain, Int(i)) <==> i in Py.bytesOf(c))
    ensures Selects(Scalar(Bytes, c), Contain, Scalar(Bytes, d)) <==>
      exists before, after :: Py.bytesOf(c) == before + Py.bytesOf(d) + after
    ensures !Selects(other, Contain, e)
  {
    hide Selects, Within;
    SelectsIs(Scalar(Bytes, c), Contain, Int(i));
    SelectsIs(Scalar(Bytes, c), Contain, Scalar(Bytes, d));
    SelectsIs(other, Contain, e);
    WithinMeans(Py.bytesOf(d), Py.bytesOf(c));
  }

  /** The values Python counts as false. */
  predicate Falsy(v: Value) {
    || v in {Null, Bool(false), Int(0), Str(""), Set([]), Dict([]), List([]), Tuple([])}
    || (v.Float? && Py.isFinite(v.f) && Py.floatValue(v.f) == 0.0)
    || (IsDecimal(v) && Py.storable(Decimal, v.code) && Py.decimalValue(v.code) == 0.0)
    || (v.Scalar? && v.kind == Bytes && Py.bytesOf(v.code) == [])
  }

  lemma FalsyIs(e: Value)
    ensures Truthy(e) <==> !Falsy(e)
  {
    if e.Int? {
      assert e.i as real == 0.0 <==> e.i == 0;
    }
  }

  /** `$exists` asks whether the field is there, or is not. */
  lemma ExistsIs(document: Value, field: string, e: Value)
    requires document.Dict?
    ensures Satisfies(document, One(field, Exist, e)) <==> (Has(document.entries, field) <==> !Falsy(e))
  {
    hide Satisfies, Has, Truthy, Falsy;
    OneMeans(document, field, Exist, e);
    FalsyIs(e);
  }

  // ---------- Equality that raises ----------

  /** What `{field: {op: b}}` answers or raises on a document whose field is `a`. */
  function Asked(a: Value, op: Op, b: Value): Result<bool, DbError> {
    Matched(Dict([Entry("field", a)]), One("field", op, b))
  }

  lemma AskedIs(a: Value, op: Op, b: Value)
    ensures Asked(a, op, b) == OpResult(a, true, op, b)
  {
    hide OpResult;
    var document, expected := Dict([Entry("field", a)]), Dict([Entry(op.Name(), b)]);
    NameIsRead(op);
    assert document.entries[0].key == "field" && IsOperator(expected.entries[0].key);
    assert Operators(a, true, expected.entries) == OpResult(a, true, op, b) by {
      assert Operators(a, true, expected.entries[1..]) == Ok(true);
    }
    assert IsExpression(expected) == Ok(true);
    assert FieldResult(document, "field", expected) == Operators(a, true, expected.entries);
    var criteria := One("field", op, b);
    assert criteria.entries[0] == Entry("field", expected) && Fields(document, criteria.entries[1..]) == Ok(true);
  }

  /** Comparing `a` with `b` in a query raises `decimal.InvalidOperation`. */
  predicate Raises(a: Value, b: Value) {
    Asked(a, Eq, b) == Err(InvalidOperation)
  }

  lemma RaisesIs(a: Value, b: Value)
    ensures Raises(a, b) <==> EqRaises(a, b)
  {
    hide Asked, EqRaises, PyEq;
    AskedIs(a, Eq, b);
  }

  /** The pairs before the k-th are equal, and comparing that one raises. */
  predicate RaisesAtItem(xs: seq<Value>, ys: seq<Value>, k: nat)
    requires k < |xs| == |ys|
  {
    Raises(xs[k], ys[k]) && forall i :: 0 <= i < k ==> Selects(xs[i], Eq, ys[i])
  }

  lemma {:induction false} ItemsRaiseAt(xs: seq<Value>, ys: seq<Value>)
    requires |xs| == |ys|
    ensures ItemsRaise(xs, ys) <==> exists k :: 0 <= k < |xs| && RaisesAtItem(xs, ys, k)
  {
    hide EqRaises, PyEq, Raises, Selects;
    if xs != [] {
      ItemsRaiseAt(xs[1..], ys[1..]);
      RaisesIs(xs[0], ys[0]);
      OpsAre(xs[0], ys[0]);
      if EqRaises(xs[0], ys[0]) {
        assert RaisesAtItem(xs, ys, 0);
      }
      if PyEq(xs[0], ys[0]) && ItemsRaise(xs[1..], ys[1..]) {
        var k :| 0 <= k < |xs[1..]| && RaisesAtItem(xs[1..], ys[1..], k);
        forall i | 0 < i < k + 1 ensures Selects(xs[i], Eq, ys[i]) {
          assert xs[i] == xs[1..][i - 1] && ys[i] == ys[1..][i - 1];
        }
        assert RaisesAtItem(xs, ys, k + 1);
      }
      if k :| 0 < k < |xs| && RaisesAtItem(xs, ys, k) {
        assert Selects(xs[0], Eq, ys[0]);
        forall i | 0 <= i < k - 1 ensures Selects(xs[1..][i], Eq, ys[1..][i]) {
          assert xs[1..][i] == xs[i + 1] && ys[1..][i] == ys[i + 1];
        }
        assert RaisesAtItem(xs[1..], ys[1..], k - 1);
      }
    }
  }

  /** Comparing lists of one length raises at the first pair that cannot be compared, if the pairs before are equal. */
  lemma ListsRaise(a: Value, b: Value, xs: seq<Value>, ys: seq<Value>)
    requires (a == List(xs) && b == List(ys)) || (a == Tuple(xs) && b == Tuple(ys))
    ensures Raises(a, b) <==> |xs| == |ys| && exists k :: 0 <= k < |xs| && RaisesAtItem(xs, ys, k)
  {
    hide Raises, Selects;
    RaisesIs(a, b);
    if |xs| == |ys| {
      ItemsRaiseAt(xs, ys);
    }
  }

  /** The same for the fields of a dict, in its order. */
  predicate RaisesAtField(xs: seq<Entry<Value>>, ys: seq<Entry<Value>>, k: nat)
    requires k < |xs|
  {
    && Has(ys, xs[k].key) && Raises(xs[k].val, Get(ys, xs[k].key))
    && forall i :: 0 <= i < k ==> Has(ys, xs[i].key) && Selects(xs[i].val, Eq, Get(ys, xs[i].key))
  }

  lemma {:induction false} EntriesRaiseAt(xs: seq<Entry<Value>>, ys: seq<Entry<Value>>)
    ensures EntriesRaise(xs, ys) <==> exists k :: 0 <= k < |xs| && RaisesAtField(xs, ys, k)
  {
    hide EqRaises, PyEq, Raises, Selects, Has, Get;
    if xs != [] {
      EntriesRaiseAt(xs[1..], ys);
      if Has(ys, xs[0].key) {
        RaisesIs(xs[0].val, Get(ys, xs[0].key));
        OpsAre(xs[0].val, Get(ys, xs[0].key));
        if EqRaises(xs[0].val, Get(ys, xs[0].key)) {
          assert RaisesAtField(xs, ys, 0);
        }
        if PyEq(xs[0].val, Get(ys, xs[0].key)) && EntriesRaise(xs[1..], ys) {
          var k :| 0 <= k < |xs[1..]| && RaisesAtField(xs[1..], ys, k);
          assert forall i :: 0 < i <= k + 1 ==> xs[i] == xs[1..][i - 1];
          assert RaisesAtField(xs, ys, k + 1);
        }
      }
      if k :| 0 < k < |xs| && RaisesAtField(xs, ys, k) {
        assert Selects(xs[0].val, Eq, Get(ys, xs[0].key));
        assert forall i :: 0 <= i <= k - 1 ==> xs[1..][i] == xs[i + 1];
        assert RaisesAtField(xs[1..], ys, k - 1);
      }
    }
  }

  lemma DictsRaise(xs: seq<Entry<Value>>, ys: seq<Entry<Value>>)
    ensures Raises(Dict(xs), Dict(ys)) <==> |xs| == |ys| && exists k :: 0 <= k < |xs| && RaisesAtField(xs, ys, k)
  {
    hide Raises, Selects, Has, Get;
    RaisesIs(Dict(xs), Dict(ys));
    EntriesRaiseAt(xs, ys);
  }

  /** Between other values only a signalling NaN raises, and only against a number. */
  lemma AtomsRaise(a: Value, b: Value)
    requires !(a.List? && b.List?) && !(a.Tuple? && b.Tuple?) && !(a.Dict? && b.Dict?)
    ensures Raises(a, b) <==> TypeOf(a) == TypeOf(b) == 1 && (IsSignalling(a) || IsSignalling(b))
  {
    hide Raises, IsSignalling;
    RaisesIs(a, b);
  }

  /** Ordering lists raises where the first pair that is not equal cannot be compared, and answers otherwise. */
  lemma OrderingAsks(a: Value, b: Value, xs: seq<Value>, ys: seq<Value>, k: nat, op: Op)
    requires (a == List(xs) && b == List(ys)) || (a == Tuple(xs) && b == Tuple(ys))
    requires k <= |xs| && k <= |ys| && forall i :: 0 <= i < k ==> Asked(xs[i], Eq, ys[i]) == Ok(true)
    requires op in {Gt, Gte, Lt, Lte}
    ensures k == |xs| || k == |ys| ==> Asked(a, op, b).Ok?
    ensures k < |xs| && k < |ys| && Raises(xs[k], ys[k]) ==> Asked(a, op, b) == Err(InvalidOperation)
    ensures k < |xs| && k < |ys| && Asked(xs[k], Eq, ys[k]) == Ok(false) ==>
      Asked(a, op, b) == Asked(xs[k], op, ys[k])
  {
    hide Asked, EqRaises, PyEq, Ordered, Selects;
    AskedIs(a, op, b);
    forall i | 0 <= i < k ensures Selects(xs[i], Eq, ys[i]) && !EqRaises(xs[i], ys[i]) {
      AskedIs(xs[i], Eq, ys[i]);
      SelectsIs(xs[i], Eq, ys[i]);
    }
    SequencesCompare(a, b, xs, ys, k);
    if k < |xs| && k < |ys| {
      RaisesIs(xs[k], ys[k]);
      AskedIs(xs[k], Eq, ys[k]);
      AskedIs(xs[k], op, ys[k]);
    }
  }

  /** Looking for an integer that is no byte in bytes raises ValueError. */
  lemma NoByteIsRefused(c: int, i: int)
    ensures Asked(Scalar(Bytes, c), Contain, Int(i)) ==
      if 0 <= i <= 255 then Ok(i in Py.bytesOf(c)) else Err(ValueError)
  {
    hide Asked;
    AskedIs(Scalar(Bytes, c), Contain, Int(i));
  }
}
