/** json_database/query.py: criteria, operators, and what `find` returns. */
module Query {
  import opened Wrappers
  import opened Dicts
  import opened Host
  import opened Values
  import opened Serializer
  import opened Errors
  import opened Storage

  datatype Op = Eq | Ne | Gt | Gte | Lt | Lte | In | Nin | Contain | Exist {
    function Name(): string {
      match this
      case Eq => "$eq"
      case Ne => "$ne"
      case Gt => "$gt"
      case Gte => "$gte"
      case Lt => "$lt"
      case Lte => "$lte"
      case In => "$in"
      case Nin => "$nin"
      case Contain => "$contains"
      case Exist => "$exists"
    }
  }

  /** The operator of a name; none is an unsupported operator. */
  function OpOf(name: string): Option<Op> {
    if name == "$eq" then Some(Eq)
    else if name == "$ne" then Some(Ne)
    else if name == "$gt" then Some(Gt)
    else if name == "$gte" then Some(Gte)
    else if name == "$lt" then Some(Lt)
    else if name == "$lte" then Some(Lte)
    else if name == "$in" then Some(In)
    else if name == "$nin" then Some(Nin)
    else if name == "$contains" then Some(Contain)
    else if name == "$exists" then Some(Exist)
    else None
  }

  lemma NameIsRead(op: Op)
    ensures OpOf(op.Name()) == Some(op) && op.Name() != "" && op.Name()[0] == '$'
  {
    assert "$eq"[1] == 'e' && "$ne"[1] == 'n' && "$gt"[1] == 'g' && "$lt"[1] == 'l' && "$in"[1] == 'i';
    assert "$gte"[1] == 'g' && "$lte"[1] == 'l' && "$nin"[1] == 'n';
    assert |"$contains"| == 9 && |"$exists"| == 7;
  }

  // ---------- Python's comparisons ----------

  predicate ExtendedLess(a: Extended, b: Extended) {
    match (a, b)
    case (NotANumber, _) => false
    case (_, NotANumber) => false
    case (Finite(x), Finite(y)) => x < y
    case (MinusInfinity, _) => b != MinusInfinity
    case (_, PlusInfinity) => a != PlusInfinity
    case _ => false
  }

  /** `<`, `<=`, `>` and `>=`. */
  datatype Comparison = Below | AtMost | Above | AtLeast {
    predicate Strict() {
      Below? || Above?
    }

    predicate Upward() {
      Below? || AtMost?
    }
  }

  datatype Ordering = Answer(b: bool) | Incomparable | Invalid

  predicate IsDecimal(v: Value) {
    v.Scalar? && v.kind == Decimal
  }

  /** Ordering a Decimal with anything that is not a number raises. */
  function OrderedNumbers(op: Comparison, a: Value, b: Value): Ordering
    requires Number(a).Some? && Number(b).Some?
  {
    var x, y := Number(a).value, Number(b).value;
    if (IsDecimal(a) || IsDecimal(b)) && (x == NotANumber || y == NotANumber) then Invalid
    else
      Answer((if op.Upward() then ExtendedLess(x, y) else ExtendedLess(y, x))
             || (!op.Strict() && x == y && x != NotANumber))
  }

  function OrderedScalars(op: Comparison, a: Value, b: Value): Ordering
    requires a.Scalar? && b.Scalar? && a.kind == b.kind
  {
    match (if op.Upward() then Py.less(a.kind, a.code, b.code) else Py.less(a.kind, b.code, a.code))
    case None => Incomparable
    case Some(less) => Answer(less || (!op.Strict() && PyEq(a, b)))
  }

  predicate IsSubset(xs: seq<Value>, ys: seq<Value>) {
    forall i :: 0 <= i < |xs| ==> Among(xs[i], ys)
  }

  /** `a < b` and so on; a TypeError, or `decimal.InvalidOperation`. */
  function Ordered(op: Comparison, a: Value, b: Value): Ordering
    decreases a, 1
  {
    if Number(a).Some? && Number(b).Some? then OrderedNumbers(op, a, b)
    else match (a, b)
      case (Str(s), Str(t)) =>
        Answer((if op.Upward() then Leq(s, t) else Leq(t, s)) && (op.Strict() ==> s != t))
      case (Scalar(k, _), Scalar(l, _)) => if k == l then OrderedScalars(op, a, b) else Incomparable
      case (List(xs), List(ys)) => OrderedItems(op, xs, ys)
      case (Tuple(xs), Tuple(ys)) => OrderedItems(op, xs, ys)
      case (Set(xs), Set(ys)) =>
        Answer((if op.Upward() then IsSubset(xs, ys) else IsSubset(ys, xs)) && (op.Strict() ==> |xs| != |ys|))
      case _ => Incomparable
  }

  /** The first pair of different items decides, and then the lengths. */
  function OrderedItems(op: Comparison, xs: seq<Value>, ys: seq<Value>): Ordering
    decreases xs, 0
  {
    if xs == [] || ys == [] then
      Answer(
        match op
        case Below => |xs| < |ys|
        case AtMost => |xs| <= |ys|
        case Above => |xs| > |ys|
        case AtLeast => |xs| >= |ys|)
    else if EqRaises(xs[0], ys[0]) then Invalid
    else if PyEq(xs[0], ys[0]) then OrderedItems(op, xs[1..], ys[1..])
    else Ordered(op, xs[0], ys[0])
  }

  /** `_compare`: a TypeError counts as false. */
  function Comparing(op: Comparison, a: Value, b: Value): Result<bool, DbError> {
    match Ordered(op, a, b)
    case Answer(b) => Ok(b)
    case Incomparable => Ok(false)
    case Invalid => Err(InvalidOperation)
  }

  /** `a == b`. */
  function Equals(a: Value, b: Value): Result<bool, DbError> {
    if EqRaises(a, b) then Err(InvalidOperation) else Ok(PyEq(a, b))
  }

  /** `v in items`, where no comparison raises. */
  predicate Among(v: Value, items: seq<Value>) {
    exists i :: 0 <= i < |items| && PyEq(items[i], v)
  }

  /** `v in items`: up to the first equal item, or the first comparison that raises. */
  function InList(v: Value, items: seq<Value>): Result<bool, DbError> {
    if items == [] then Ok(false)
    else
      var found :- Equals(items[0], v);
      if found then Ok(true) else InList(v, items[1..])
  }

  predicate Within<T(==)>(s: seq<T>, t: seq<T>) {
    exists i :: 0 <= i <= |t| && s <= t[i..]
  }

  /** `expected in actual`, where it does not raise. */
  predicate Contains(actual: Value, expected: Value) {
    match actual
    case Str(t) => expected.Str? && Within(expected.s, t)
    case List(items) => Among(expected, items)
    case Tuple(items) => Among(expected, items)
    case Set(ms) => Hashable(expected) && Among(expected, ms)
    case Dict(es) => expected.Str? && Has(es, expected.s)
    case Scalar(Bytes, c) =>
      (match expected
       case Int(i) => i in Py.bytesOf(c)
       case Bool(b) => (if b then 1 else 0) in Py.bytesOf(c)
       case Scalar(Bytes, d) => Within(Py.bytesOf(d), Py.bytesOf(c))
       case _ => false)
    case _ => false
  }

  predicate IsBytes(v: Value) {
    v.Scalar? && v.kind == Bytes
  }

  /** An integer that is no byte. */
  predicate OutOfByte(v: Value) {
    v.Int? && !(0 <= v.i < 256)
  }

  /** `expected in actual`; a TypeError counts as false, a ValueError does not. */
  function Containing(actual: Value, expected: Value): Result<bool, DbError> {
    if actual.List? || actual.Tuple? then InList(expected, actual.items)
    else if IsBytes(actual) && OutOfByte(expected) then Err(ValueError)
    else Ok(Contains(actual, expected))
  }

  /** `bool(v)`. */
  predicate Truthy(v: Value) {
    match v
    case Null => false
    case Str(s) => s != ""
    case Set(ms) => ms != []
    case Dict(es) => es != []
    case List(items) => items != []
    case Tuple(items) => items != []
    case Scalar(Bytes, c) => Py.bytesOf(c) != []
    case _ => Number(v) != Some(Finite(0.0))
  }

  // ---------- What criteria mean ----------

  /** One operator on one field. A missing field is unequal to everything and in no list. */
  predicate OpHolds(actual: Value, exists_: bool, op: Op, expected: Value) {
    match op
    case Exist => exists_ == Truthy(expected)
    case Ne => !(exists_ && PyEq(actual, expected))
    case Nin => !(exists_ && expected.List? && Among(actual, expected.items))
    case Eq => exists_ && PyEq(actual, expected)
    case Gt => exists_ && Ordered(Above, actual, expected) == Answer(true)
    case Gte => exists_ && Ordered(AtLeast, actual, expected) == Answer(true)
    case Lt => exists_ && Ordered(Below, actual, expected) == Answer(true)
    case Lte => exists_ && Ordered(AtMost, actual, expected) == Answer(true)
    case In => exists_ && expected.List? && Among(actual, expected.items)
    case Contain => exists_ && Contains(actual, expected)
  }

  /** An unsupported operator holds of nothing. */
  predicate Holds(actual: Value, exists_: bool, name: string, expected: Value) {
    OpOf(name).Some? && OpHolds(actual, exists_, OpOf(name).value, expected)
  }

  predicate IsOperator(key: string) {
    key != "" && key[0] == '$'
  }

  predicate HasOperator(v: Value) {
    v.Dict? && exists i :: 0 <= i < |v.entries| && IsOperator(v.entries[i].key)
  }

  /** One field of the criteria. */
  predicate FieldHolds(document: Value, field: string, expected: Value)
    requires document.Dict?
  {
    var actual, exists_ := GetOrNull(document.entries, field), Has(document.entries, field);
    if HasOperator(expected) then
      forall i :: 0 <= i < |expected.entries| ==>
        Holds(actual, exists_, expected.entries[i].key, expected.entries[i].val)
    else exists_ && PyEq(actual, expected)
  }

  /** The conjunction over all fields and operators, without any order. */
  predicate Satisfies(document: Value, criteria: Value)
    requires document.Dict?
  {
    criteria.Dict? ==>
      forall i :: 0 <= i < |criteria.entries| ==> FieldHolds(document, criteria.entries[i].key, criteria.entries[i].val)
  }

  /** Nothing about the criteria can ever be refused. */
  predicate WellFormedOperator(name: string, expected: Value) {
    OpOf(name).Some? && (OpOf(name).value.In? || OpOf(name).value.Nin? ==> expected.List?)
  }

  predicate WellFormedField(expected: Value) {
    HasOperator(expected) ==>
      forall i :: 0 <= i < |expected.entries| ==>
        IsOperator(expected.entries[i].key) && WellFormedOperator(expected.entries[i].key, expected.entries[i].val)
  }

  predicate WellFormedCriteria(criteria: Value) {
    criteria.Null? ||
    (criteria.Dict? && forall i :: 0 <= i < |criteria.entries| ==> WellFormedField(criteria.entries[i].val))
  }

  // ---------- What the evaluator does ----------

  /** `_is_operator_expression`. */
  function IsExpression(v: Value): Result<bool, DbError> {
    if !HasOperator(v) then Ok(false)
    else if exists i :: 0 <= i < |v.entries| && !IsOperator(v.entries[i].key) then Err(QueryError)
    else Ok(true)
  }

  function Not(r: Result<bool, DbError>): Result<bool, DbError> {
    match r
    case Ok(b) => Ok(!b)
    case Err(e) => Err(e)
  }

  /** A supported operator: its answer, or what it raises. */
  function OpResult(actual: Value, exists_: bool, op: Op, expected: Value): Result<bool, DbError> {
    match op
    case Exist => Ok(Truthy(expected) == exists_)
    case Ne => if exists_ then Not(Equals(actual, expected)) else Ok(true)
    case Nin =>
      if !expected.List? then Err(QueryError)
      else if exists_ then Not(InList(actual, expected.items)) else Ok(true)
    case Eq => if exists_ then Equals(actual, expected) else Ok(false)
    case Gt => if exists_ then Comparing(Above, actual, expected) else Ok(false)
    case Gte => if exists_ then Comparing(AtLeast, actual, expected) else Ok(false)
    case Lt => if exists_ then Comparing(Below, actual, expected) else Ok(false)
    case Lte => if exists_ then Comparing(AtMost, actual, expected) else Ok(false)
    case In =>
      if !exists_ then Ok(false)
      else if expected.List? then InList(actual, expected.items) else Err(QueryError)
    case Contain => if exists_ then Containing(actual, expected) else Ok(false)
  }

  function Operator(actual: Value, exists_: bool, name: string, expected: Value): Result<bool, DbError> {
    match OpOf(name)
    case None => Err(QueryError)
    case Some(op) => OpResult(actual, exists_, op, expected)
  }

  /** `_matches_operators`, one operator at a time until one fails or raises. */
  function Operators(actual: Value, exists_: bool, ops: seq<Entry<Value>>): Result<bool, DbError> {
    if ops == [] then Ok(true)
    else
      var matched :- Operator(actual, exists_, ops[0].key, ops[0].val);
      if !matched then Ok(false) else Operators(actual, exists_, ops[1..])
  }

  function FieldResult(document: Value, field: string, expected: Value): Result<bool, DbError>
    requires document.Dict?
  {
    var actual, exists_ := GetOrNull(document.entries, field), Has(document.entries, field);
    var isExpression :- IsExpression(expected);
    if isExpression then Operators(actual, exists_, expected.entries)
    else if exists_ then Equals(actual, expected) else Ok(false)
  }

  function Fields(document: Value, fields: seq<Entry<Value>>): Result<bool, DbError>
    requires document.Dict?
    decreases |fields|
  {
    if fields == [] then Ok(true)
    else
      var matched :- FieldResult(document, fields[0].key, fields[0].val);
      if !matched then Ok(false) else Fields(document, fields[1..])
  }

  /** `matches`. */
  function Matched(document: Value, criteria: Value): Result<bool, DbError>
    requires document.Dict?
  {
    if criteria.Null? then Ok(true)
    else if !criteria.Dict? then Err(QueryError)
    else Fields(document, criteria.entries)
  }

  // ---------- The loops ----------

  method MatchesOperators(actual: Value, exists_: bool, ops: seq<Entry<Value>>) returns (r: Result<bool, DbError>)
    ensures r == Operators(actual, exists_, ops)
  {
    var i := 0;
    assert ops[0..] == ops;
    while i < |ops|
      invariant 0 <= i <= |ops|
      invariant Operators(actual, exists_, ops) == Operators(actual, exists_, ops[i..])
    {
      var op, expected := ops[i].key, ops[i].val;
      assert ops[i..][0] == ops[i] && ops[i..][1..] == ops[i + 1..];
      i := i + 1;
      var known := OpOf(op);
      if known.None? {
        return Err(QueryError);
      }
      if known.value.Exist? {
        if Truthy(expected) != exists_ {
          return Ok(false);
        }
        continue;
      }
      if known.value.Ne? {
        if exists_ {
          var equal :- Equals(actual, expected);
          if equal {
            return Ok(false);
          }
        }
        continue;
      }
      if known.value.Nin? {
        if !expected.List? {
          return Err(QueryError);
        }
        if exists_ {
          var listed :- InList(actual, expected.items);
          if listed {
            return Ok(false);
          }
        }
        continue;
      }
      if !exists_ {
        return Ok(false);
      }
      var holds := true;
      if known.value.Eq? {
        holds :- Equals(actual, expected);
      }
      if known.value.Gt? {
        holds :- Comparing(Above, actual, expected);
      }
      if known.value.Gte? {
        holds :- Comparing(AtLeast, actual, expected);
      }
      if known.value.Lt? {
        holds :- Comparing(Below, actual, expected);
      }
      if known.value.Lte? {
        holds :- Comparing(AtMost, actual, expected);
      }
      if known.value.In? {
        if !expected.List? {
          return Err(QueryError);
        }
        holds :- InList(actual, expected.items);
      }
      if known.value.Contain? {
        holds :- Containing(actual, expected);
      }
      if !holds {
        return Ok(false);
      }
    }
    r := Ok(true);
  }

  method Matches(document: Value, criteria: Value) returns (r: Result<bool, DbError>)
    requires document.Dict?
    ensures r == Matched(document, criteria)
  {
    if criteria.Null? {
      return Ok(true);
    }
    if !criteria.Dict? {
      return Err(QueryError);
    }
    var fields := criteria.entries;
    var i := 0;
    assert fields[0..] == fields;
    while i < |fields|
      invariant 0 <= i <= |fields|
      invariant Fields(document, fields) == Fields(document, fields[i..])
    {
      var field, expected := fields[i].key, fields[i].val;
      assert fields[i..][0] == fields[i] && fields[i..][1..] == fields[i + 1..];
      var exists_ := Has(document.entries, field);
      var actual := GetOrNull(document.entries, field);
      var isExpression :- IsExpression(expected);
      if isExpression {
        var matched :- MatchesOperators(actual, exists_, expected.entries);
        if !matched {
          return Ok(false);
        }
      } else {
        if !exists_ {
          return Ok(false);
        }
        var equal :- Equals(actual, expected);
        if !equal {
          return Ok(false);
        }
      }
      i := i + 1;
    }
    r := Ok(true);
  }

  /** The documents, in order, that satisfy the criteria. */
  function Kept(documents: seq<Value>, criteria: Value): seq<Value>
    requires forall i :: 0 <= i < |documents| ==> documents[i].Dict?
  {
    if documents == [] then []
    else (if Satisfies(documents[0], criteria) then [documents[0]] else []) + Kept(documents[1..], criteria)
  }

  /** What evaluating the documents in turn raises first, if anything. */
  function FirstRaised(documents: seq<Value>, criteria: Value): Option<DbError>
    requires forall i :: 0 <= i < |documents| ==> documents[i].Dict?
  {
    if documents == [] then None
    else match Matched(documents[0], criteria)
      case Err(e) => Some(e)
      case Ok(_) => FirstRaised(documents[1..], criteria)
  }

  /** What `filter_documents` raises, if anything: the empty document is evaluated first. */
  function Refusal(documents: seq<Value>, criteria: Value): Option<DbError>
    requires forall i :: 0 <= i < |documents| ==> documents[i].Dict?
  {
    FirstRaised([Dict([])] + documents, criteria)
  }

  lemma FilterStarts(documents: seq<Value>, criteria: Value)
    requires forall i :: 0 <= i < |documents| ==> documents[i].Dict?
    ensures Kept([], criteria) == []
    ensures criteria.Null? ==> Refusal(documents, criteria) == FirstRaised(documents, criteria)
    ensures match Matched(Dict([]), criteria)
      case Err(e) => Refusal(documents, criteria) == Some(e)
      case Ok(_) => Refusal(documents, criteria) == FirstRaised(documents, criteria)
  {
    var all := [Dict([])] + documents;
    assert all[0] == Dict([]) && all[1..] == documents;
  }

  /** Where in a list the chosen elements are, each taken once. */
  predicate Chosen<T(==)>(all: seq<T>, chosen: seq<T>, at: seq<nat>) {
    && |at| == |chosen| && (forall k :: 0 <= k < |at| ==> at[k] < |all| && chosen[k] == all[at[k]])
    && (forall j, k :: 0 <= j < k < |at| ==> at[j] < at[k])
  }

  /**
    `filter_documents`: exactly the documents that satisfy the criteria, unless
    evaluating one of them raises. `at` tells which objects of the list these are.
   */
  method FilterDocuments(documents: seq<Value>, criteria: Value) returns (r: Result<seq<Value>, DbError>, at: seq<nat>)
    requires forall i :: 0 <= i < |documents| ==> documents[i].Dict?
    ensures match Refusal(documents, criteria)
      case Some(e) => r == Err(e)
      case None => r == Ok(Kept(documents, criteria))
    ensures r.Ok? ==> Chosen(documents, r.value, at)
  {
    hide Satisfies, Fields, Operators, Kept, Matched, Refusal;
    FilterStarts(documents, criteria);
    at := [];
    if !criteria.Null? {
      var checked := Matches(Dict([]), criteria);
      if checked.Err? {
        return Err(checked.error), at;
      }
    }
    var kept: seq<Value> := [];
    var i := 0;
    assert documents[..0] == [] && documents[0..] == documents;
    while i < |documents|
      invariant 0 <= i <= |documents|
      invariant Refusal(documents, criteria) == FirstRaised(documents[i..], criteria)
      invariant kept == Kept(documents[..i], criteria) && Chosen(documents, kept, at)
      invariant forall k :: 0 <= k < |at| ==> at[k] < i
    {
      assert documents[i..][0] == documents[i] && documents[i..][1..] == documents[i + 1..];
      var matched := Matches(documents[i], criteria);
      if matched.Err? {
        return Err(matched.error), at;
      }
      MatchedIsSatisfied(documents[i], criteria);
      KeptNext(documents, criteria, i);
      if matched.value {
        kept, at := kept + [documents[i]], at + [i];
      }
      i := i + 1;
    }
    assert documents[..i] == documents;
    r := Ok(kept);
  }

  /** Where the first `n` documents are that the callable accepts. */
  predicate AcceptedAt(documents: seq<Value>, asks: Value -> Option<bool>, n: nat, at: seq<nat>)
    requires n <= |documents|
  {
    && (forall k :: 0 <= k < |at| ==> at[k] < n && asks(documents[at[k]]) == Some(true))
    && (forall i :: 0 <= i < n && asks(documents[i]) == Some(true) ==> i in at)
    && (forall j, k :: 0 <= j < k < |at| ==> at[j] < at[k])
  }

  /** How often a document occurs, if the callable accepts it. */
  function Accepted(documents: seq<Value>, asks: Value -> Option<bool>, d: Value): nat {
    if asks(d) == Some(true) then multiset(documents)[d] else 0
  }

  lemma AcceptedOneMore(documents: seq<Value>, asks: Value -> Option<bool>, i: nat)
    requires i < |documents|
    ensures forall d ::
      Accepted(documents[..i + 1], asks, d) ==
        Accepted(documents[..i], asks, d) + (if asks(d) == Some(true) && d == documents[i] then 1 else 0)
  {
    assert documents[..i + 1] == documents[..i] + [documents[i]];
  }

  lemma AcceptedNext(documents: seq<Value>, asks: Value -> Option<bool>, n: nat, at: seq<nat>)
    requires n < |documents| && AcceptedAt(documents, asks, n, at)
    ensures AcceptedAt(documents, asks, n + 1, if asks(documents[n]) == Some(true) then at + [n] else at)
  {
  }

  /**
    `run_predicate`, for a callable that answers or raises: exactly the
    documents it accepts, in the order of the list; `at` tells where they were.
   */
  method RunPredicate(documents: seq<Value>, asks: Value -> Option<bool>)
    returns (r: Result<seq<Value>, DbError>, at: seq<nat>)
    ensures r.Err? <==> exists i :: 0 <= i < |documents| && asks(documents[i]).None?
    ensures r.Err? ==> r.error == QueryError
    ensures r.Ok? ==> Chosen(documents, r.value, at) && AcceptedAt(documents, asks, |documents|, at)
    ensures r.Ok? ==> forall d :: multiset(r.value)[d] == Accepted(documents, asks, d)
  {
    hide AcceptedAt, Chosen, Accepted;
    var results: seq<Value> := [];
    at := [];
    var i := 0;
    NoneChosen(documents, asks);
    while i < |documents|
      invariant 0 <= i <= |documents|
      invariant forall j :: 0 <= j < i ==> asks(documents[j]).Some?
      invariant Chosen(documents, results, at) && AcceptedAt(documents, asks, i, at)
      invariant forall d :: multiset(results)[d] == Accepted(documents[..i], asks, d)
    {
      AcceptedOneMore(documents, asks, i);
      if asks(documents[i]).None? {
        return Err(QueryError), at;
      }
      AcceptedNext(documents, asks, i, at);
      if asks(documents[i]).value {
        ChosenNext(documents, asks, results, at, i);
        results, at := results + [documents[i]], at + [i];
      }
      i := i + 1;
    }
    assert documents[..i] == documents;
    r := Ok(results);
  }

  lemma NoneChosen(documents: seq<Value>, asks: Value -> Option<bool>)
    ensures Chosen(documents, [], []) && AcceptedAt(documents, asks, 0, [])
    ensures forall d :: Accepted(documents[..0], asks, d) == 0
  {
    assert documents[..0] == [];
  }

  lemma ChosenNext(documents: seq<Value>, asks: Value -> Option<bool>, results: seq<Value>, at: seq<nat>, i: nat)
    requires i < |documents| && Chosen(documents, results, at) && AcceptedAt(documents, asks, i, at)
    ensures Chosen(documents, results + [documents[i]], at + [i])
  {
  }

  // ---------- The evaluator means the conjunction ----------

  lemma {:induction false} InListIsAmong(v: Value, items: seq<Value>)
    requires InList(v, items).Ok?
    ensures InList(v, items).value <==> Among(v, items)
  {
    if items != [] {
      if !PyEq(items[0], v) {
        InListIsAmong(v, items[1..]);
      }
      assert forall i :: 0 < i < |items| ==> items[i] == items[1..][i - 1];
      assert Among(v, items[1..]) ==> Among(v, items) by {
        if i :| 0 <= i < |items[1..]| && PyEq(items[1..][i], v) {
          assert PyEq(items[i + 1], v);
        }
      }
    }
  }

  lemma ComparisonsMean(a: Value, b: Value)
    ensures forall c: Comparison :: Comparing(c, a, b).Ok? ==>
      (Comparing(c, a, b).value <==> Ordered(c, a, b) == Answer(true))
    ensures Equals(a, b).Ok? ==> (Equals(a, b).value <==> PyEq(a, b))
  {
    hide Ordered, PyEq, EqRaises;
  }

  lemma OpMeans(actual: Value, exists_: bool, op: Op, expected: Value)
    requires OpResult(actual, exists_, op, expected).Ok?
    ensures OpResult(actual, exists_, op, expected).value <==> OpHolds(actual, exists_, op, expected)
  {
    hide Truthy, Ordered, Contains, Containing, Comparing, Equals, PyEq, InList, Among;
    ComparisonsMean(actual, expected);
    if exists_ && (op.In? || op.Nin?) {
      InListIsAmong(actual, expected.items);
    } else if exists_ && op.Contain? {
      ContainingMeans(actual, expected);
    }
  }

  lemma OperatorMeans(actual: Value, exists_: bool, name: string, expected: Value)
    requires Operator(actual, exists_, name, expected).Ok?
    ensures Operator(actual, exists_, name, expected).value <==> Holds(actual, exists_, name, expected)
  {
    hide OpOf, OpResult, OpHolds;
    OpMeans(actual, exists_, OpOf(name).value, expected);
  }

  lemma ContainingMeans(actual: Value, expected: Value)
    requires Containing(actual, expected).Ok?
    ensures Containing(actual, expected).value <==> Contains(actual, expected)
  {
    if actual.List? || actual.Tuple? {
      InListIsAmong(expected, actual.items);
    }
  }

  lemma {:induction false} OperatorsMean(actual: Value, exists_: bool, ops: seq<Entry<Value>>)
    requires Operators(actual, exists_, ops).Ok?
    ensures Operators(actual, exists_, ops).value <==>
      forall i :: 0 <= i < |ops| ==> Holds(actual, exists_, ops[i].key, ops[i].val)
  {
    hide Holds, Operator;
    if ops != [] {
      OperatorMeans(actual, exists_, ops[0].key, ops[0].val);
      if Holds(actual, exists_, ops[0].key, ops[0].val) {
        OperatorsMean(actual, exists_, ops[1..]);
      }
      assert forall i :: 0 < i < |ops| ==> ops[i] == ops[1..][i - 1];
    }
  }

  lemma FieldMeans(document: Value, field: string, expected: Value)
    requires document.Dict? && FieldResult(document, field, expected).Ok?
    ensures FieldResult(document, field, expected).value <==> FieldHolds(document, field, expected)
  {
    if HasOperator(expected) {
      OperatorsMean(GetOrNull(document.entries, field), Has(document.entries, field), expected.entries);
    }
  }

  lemma {:induction false} FieldsMean(document: Value, fields: seq<Entry<Value>>)
    requires document.Dict? && Fields(document, fields).Ok?
    ensures Fields(document, fields).value <==>
      forall i :: 0 <= i < |fields| ==> FieldHolds(document, fields[i].key, fields[i].val)
    decreases |fields|
  {
    if fields != [] {
      FieldMeans(document, fields[0].key, fields[0].val);
      if FieldHolds(document, fields[0].key, fields[0].val) {
        FieldsMean(document, fields[1..]);
      }
      assert forall i :: 0 < i < |fields| ==> fields[i] == fields[1..][i - 1];
    }
  }

  /** If the evaluator answers, its answer is the conjunction of all conditions, whatever it left unread. */
  lemma MatchedIsSatisfied(document: Value, criteria: Value)
    requires document.Dict? && Matched(document, criteria).Ok?
    ensures Matched(document, criteria).value <==> Satisfies(document, criteria)
  {
    if criteria.Dict? {
      FieldsMean(document, criteria.entries);
    }
  }

  lemma {:induction false} KeptSnoc(documents: seq<Value>, criteria: Value)
    requires documents != [] && forall i :: 0 <= i < |documents| ==> documents[i].Dict?
    ensures var n := |documents| - 1;
      Kept(documents, criteria) ==
        Kept(documents[..n], criteria) + (if Satisfies(documents[n], criteria) then [documents[n]] else [])
  {
    var n := |documents| - 1;
    if n > 0 {
      KeptSnoc(documents[1..], criteria);
      assert documents[..n][1..] == documents[1..][..n - 1];
    }
  }

  lemma KeptNext(documents: seq<Value>, criteria: Value, i: nat)
    requires i < |documents| && forall i :: 0 <= i < |documents| ==> documents[i].Dict?
    ensures Kept(documents[..i + 1], criteria) ==
      Kept(documents[..i], criteria) + (if Satisfies(documents[i], criteria) then [documents[i]] else [])
  {
    KeptSnoc(documents[..i + 1], criteria);
    assert documents[..i + 1][..i] == documents[..i];
  }

  // ---------- When it raises ----------

  /** The operator at `i` raises after only operators that hold. */
  predicate RaisesAt(actual: Value, exists_: bool, ops: seq<Entry<Value>>, i: nat)
    requires i < |ops|
  {
    && Operator(actual, exists_, ops[i].key, ops[i].val).Err?
    && forall j :: 0 <= j < i ==> Operator(actual, exists_, ops[j].key, ops[j].val) == Ok(true)
  }

  lemma {:induction false} RaisesLater(actual: Value, exists_: bool, ops: seq<Entry<Value>>, i: nat)
    requires ops != [] && i < |ops[1..]| && Operator(actual, exists_, ops[0].key, ops[0].val) == Ok(true)
    ensures RaisesAt(actual, exists_, ops[1..], i) <==> RaisesAt(actual, exists_, ops, i + 1)
  {
    hide Operator;
    assert forall j :: 0 <= j < |ops[1..]| ==> ops[1..][j] == ops[j + 1];
    if RaisesAt(actual, exists_, ops[1..], i) {
      forall j | 0 <= j < i + 1 ensures Operator(actual, exists_, ops[j].key, ops[j].val) == Ok(true) {
        assert j > 0 ==> ops[j] == ops[1..][j - 1];
      }
    }
  }

  lemma {:induction false} OperatorsRaise(actual: Value, exists_: bool, ops: seq<Entry<Value>>) returns (i: nat)
    ensures Operators(actual, exists_, ops).Err? ==>
      && i < |ops| && RaisesAt(actual, exists_, ops, i)
      && Operators(actual, exists_, ops).error == Operator(actual, exists_, ops[i].key, ops[i].val).error
  {
    hide Operator;
    i := 0;
    if ops != [] && Operator(actual, exists_, ops[0].key, ops[0].val) == Ok(true) {
      i := OperatorsRaise(actual, exists_, ops[1..]);
      if Operators(actual, exists_, ops).Err? {
        RaisesLater(actual, exists_, ops, i);
        i := i + 1;
      }
    }
  }

  lemma {:induction false} OperatorsReach(actual: Value, exists_: bool, ops: seq<Entry<Value>>, i: nat)
    requires i < |ops| && RaisesAt(actual, exists_, ops, i)
    ensures Operators(actual, exists_, ops).Err?
  {
    hide Operator;
    if i > 0 {
      RaisesLater(actual, exists_, ops, i - 1);
      OperatorsReach(actual, exists_, ops[1..], i - 1);
    }
  }

  /** Exactly when one field raises: keys are mixed, or an operator or the comparison does. */
  predicate FieldRaises(document: Value, field: string, expected: Value)
    requires document.Dict?
  {
    var actual, exists_ := GetOrNull(document.entries, field), Has(document.entries, field);
    if !HasOperator(expected) then exists_ && EqRaises(actual, expected)
    else
      || (exists i :: 0 <= i < |expected.entries| && !IsOperator(expected.entries[i].key))
      || (exists i :: 0 <= i < |expected.entries| && RaisesAt(actual, exists_, expected.entries, i))
  }

  lemma FieldRaisesExactly(document: Value, field: string, expected: Value)
    requires document.Dict?
    ensures FieldResult(document, field, expected).Err? <==> FieldRaises(document, field, expected)
  {
    hide Operator, EqRaises, PyEq;
    if HasOperator(expected) {
      var actual, exists_ := GetOrNull(document.entries, field), Has(document.entries, field);
      var i := OperatorsRaise(actual, exists_, expected.entries);
      if k :| 0 <= k < |expected.entries| && RaisesAt(actual, exists_, expected.entries, k) {
        OperatorsReach(actual, exists_, expected.entries, k);
      }
    }
  }

  predicate FieldsRaiseAt(document: Value, fields: seq<Entry<Value>>, i: nat)
    requires document.Dict? && i < |fields|
  {
    && FieldRaises(document, fields[i].key, fields[i].val)
    && forall j :: 0 <= j < i ==>
      !FieldRaises(document, fields[j].key, fields[j].val) && FieldHolds(document, fields[j].key, fields[j].val)
  }

  lemma FieldsRaiseLater(document: Value, fields: seq<Entry<Value>>, i: nat)
    requires document.Dict? && fields != [] && i < |fields[1..]|
    requires !FieldRaises(document, fields[0].key, fields[0].val) && FieldHolds(document, fields[0].key, fields[0].val)
    ensures FieldsRaiseAt(document, fields[1..], i) <==> FieldsRaiseAt(document, fields, i + 1)
  {
    hide FieldRaises, FieldHolds;
    assert forall j :: 0 <= j < |fields[1..]| ==> fields[1..][j] == fields[j + 1];
    if FieldsRaiseAt(document, fields[1..], i) {
      forall j | 0 <= j < i + 1
        ensures !FieldRaises(document, fields[j].key, fields[j].val)
        ensures FieldHolds(document, fields[j].key, fields[j].val)
      {
        assert j > 0 ==> fields[j] == fields[1..][j - 1];
      }
    }
  }

  lemma {:induction false} FieldsRaise(document: Value, fields: seq<Entry<Value>>) returns (i: nat)
    requires document.Dict?
    ensures Fields(document, fields).Err? ==>
      && i < |fields| && FieldsRaiseAt(document, fields, i)
      && Fields(document, fields) == FieldResult(document, fields[i].key, fields[i].val)
    decreases |fields|
  {
    hide FieldResult, FieldRaises, FieldHolds;
    i := 0;
    if fields != [] {
      FieldRaisesExactly(document, fields[0].key, fields[0].val);
      if FieldResult(document, fields[0].key, fields[0].val) == Ok(true) {
        FieldMeans(document, fields[0].key, fields[0].val);
        i := FieldsRaise(document, fields[1..]);
        if Fields(document, fields).Err? {
          FieldsRaiseLater(document, fields, i);
          i := i + 1;
        }
      }
    }
  }

  lemma {:induction false} FieldsReach(document: Value, fields: seq<Entry<Value>>, i: nat)
    requires document.Dict? && i < |fields| && FieldsRaiseAt(document, fields, i)
    ensures Fields(document, fields).Err?
    decreases i
  {
    hide FieldResult, FieldRaises, FieldHolds;
    FieldRaisesExactly(document, fields[0].key, fields[0].val);
    if i > 0 {
      FieldMeans(document, fields[0].key, fields[0].val);
      FieldsRaiseLater(document, fields, i - 1);
      FieldsReach(document, fields[1..], i - 1);
    }
  }

  /**
    A dict of criteria raises exactly if some field raises and all fields
    before it hold, and then what that field raises.
   */
  lemma MatchedRaises(document: Value, criteria: Value)
    requires document.Dict? && criteria.Dict?
    ensures Matched(document, criteria).Err? <==>
      exists i :: 0 <= i < |criteria.entries| && FieldsRaiseAt(document, criteria.entries, i)
    ensures Matched(document, criteria).Err? ==>
      exists i :: 0 <= i < |criteria.entries| && FieldsRaiseAt(document, criteria.entries, i)
        && Matched(document, criteria) == FieldResult(document, criteria.entries[i].key, criteria.entries[i].val)
  {
    hide FieldResult, FieldsRaiseAt;
    var i := FieldsRaise(document, criteria.entries);
    if k :| 0 <= k < |criteria.entries| && FieldsRaiseAt(document, criteria.entries, k) {
      FieldsReach(document, criteria.entries, k);
    }
  }

  // ---------- Which comparisons raise ----------

  predicate IsContainer(v: Value) {
    v.List? || v.Tuple? || v.Dict? || v.Set?
  }

  /**
    Exactly when one operator raises, for a field and an argument that are no
    containers: a missing list is a QueryError; comparing a number with a
    signalling NaN, ordering numbers of which one is a Decimal and one not a
    number, and looking for a large integer in bytes raise errors that are none.
   */
  lemma OpRaisesExactly(actual: Value, exists_: bool, op: Op, expected: Value)
    requires !IsContainer(actual) && !IsContainer(expected)
    ensures OpResult(actual, exists_, op, expected).Err? ==>
      OpResult(actual, exists_, op, expected).error in {QueryError, InvalidOperation, ValueError}
    ensures OpResult(actual, exists_, op, expected) == Err(QueryError) <==> op == Nin || (op == In && exists_)
    ensures OpResult(actual, exists_, op, expected) == Err(InvalidOperation) <==>
      && exists_ && Number(actual).Some? && Number(expected).Some?
      && match op
         case Eq => IsSignalling(actual) || IsSignalling(expected)
         case Ne => IsSignalling(actual) || IsSignalling(expected)
         case Gt => NanAndDecimal(actual, expected)
         case Gte => NanAndDecimal(actual, expected)
         case Lt => NanAndDecimal(actual, expected)
         case Lte => NanAndDecimal(actual, expected)
         case _ => false
    ensures OpResult(actual, exists_, op, expected) == Err(ValueError) <==>
      exists_ && op == Contain && IsBytes(actual) && OutOfByte(expected)
  {
    hide Contains, Truthy, PyEq, Ordered, InList;
    forall c: Comparison ensures Ordered(c, actual, expected) == Invalid <==>
      Number(actual).Some? && Number(expected).Some? && NanAndDecimal(actual, expected)
    {
      OrderingRaisesExactly(c, actual, expected);
    }
  }

  lemma OrderingRaisesExactly(op: Comparison, a: Value, b: Value)
    requires !IsContainer(a) && !IsContainer(b)
    ensures Ordered(op, a, b) == Invalid <==> Number(a).Some? && Number(b).Some? && NanAndDecimal(a, b)
  {
    hide ExtendedLess, PyEq, Leq;
  }

  /** One of two numbers is a Decimal, and one is not a number. */
  predicate NanAndDecimal(a: Value, b: Value) {
    (IsDecimal(a) || IsDecimal(b)) && (Number(a) == Some(NotANumber) || Number(b) == Some(NotANumber))
  }

  /** Nothing inside is not a number. Stored documents are such values. */
  predicate NoNan(v: Value) {
    match v
    case Set(ms) => forall i :: 0 <= i < |ms| ==> NoNan(ms[i])
    case Dict(es) => forall i :: 0 <= i < |es| ==> NoNan(es[i].val)
    case List(items) => forall i :: 0 <= i < |items| ==> NoNan(items[i])
    case Tuple(items) => forall i :: 0 <= i < |items| ==> NoNan(items[i])
    case _ => Number(v) != Some(NotANumber)
  }

  lemma {:induction false} StorableHasNoNan(v: Value)
    requires Encodable(v)
    ensures NoNan(v)
  {
    match v
    case Set(ms) => forall i | 0 <= i < |ms| ensures NoNan(ms[i]) { StorableHasNoNan(ms[i]); }
    case Dict(es) => forall i | 0 <= i < |es| ensures NoNan(es[i].val) { StorableHasNoNan(es[i].val); }
    case List(items) => forall i | 0 <= i < |items| ensures NoNan(items[i]) { StorableHasNoNan(items[i]); }
    case Tuple(items) => forall i | 0 <= i < |items| ensures NoNan(items[i]) { StorableHasNoNan(items[i]); }
    case _ =>
  }

  lemma {:induction false} EqualityWorks(a: Value, b: Value)
    requires NoNan(a) && NoNan(b)
    ensures !EqRaises(a, b)
    decreases a, 1
  {
    match (a, b)
    case (List(xs), List(ys)) => ItemsWork(xs, ys);
    case (Tuple(xs), Tuple(ys)) => ItemsWork(xs, ys);
    case (Dict(xs), Dict(ys)) => EntriesWork(xs, ys);
    case _ =>
  }

  lemma {:induction false} ItemsWork(xs: seq<Value>, ys: seq<Value>)
    requires forall i :: 0 <= i < |xs| ==> NoNan(xs[i])
    requires forall i :: 0 <= i < |ys| ==> NoNan(ys[i])
    ensures !ItemsRaise(xs, ys)
    decreases xs, 0
  {
    if xs != [] && ys != [] {
      EqualityWorks(xs[0], ys[0]);
      ItemsWork(xs[1..], ys[1..]);
    }
  }

  lemma {:induction false} EntriesWork(xs: seq<Entry<Value>>, ys: seq<Entry<Value>>)
    requires forall i :: 0 <= i < |xs| ==> NoNan(xs[i].val)
    requires forall i :: 0 <= i < |ys| ==> NoNan(ys[i].val)
    ensures !EntriesRaise(xs, ys)
    decreases xs, 0
  {
    if xs != [] && Has(ys, xs[0].key) {
      HasIsKey(ys, xs[0].key);
      var i := FieldIndex(ys, xs[0].key);
      EqualityWorks(xs[0].val, Get(ys, xs[0].key));
      EntriesWork(xs[1..], ys);
    }
  }

  lemma {:induction false} FieldIndex(es: seq<Entry<Value>>, k: string) returns (i: nat)
    requires Has(es, k)
    ensures i < |es| && es[i].val == Get(es, k)
  {
    if es[0].key == k {
      i := 0;
    } else {
      i := FieldIndex(es[1..], k);
      i := i + 1;
    }
  }

  lemma {:induction false} OrderingWorks(op: Comparison, a: Value, b: Value)
    requires NoNan(a) && NoNan(b)
    ensures Ordered(op, a, b) != Invalid
    decreases a, 1
  {
    match (a, b)
    case (List(xs), List(ys)) => OrderedItemsWork(op, xs, ys);
    case (Tuple(xs), Tuple(ys)) => OrderedItemsWork(op, xs, ys);
    case _ =>
  }

  lemma {:induction false} OrderedItemsWork(op: Comparison, xs: seq<Value>, ys: seq<Value>)
    requires forall i :: 0 <= i < |xs| ==> NoNan(xs[i])
    requires forall i :: 0 <= i < |ys| ==> NoNan(ys[i])
    ensures OrderedItems(op, xs, ys) != Invalid
    decreases xs, 0
  {
    if xs != [] && ys != [] {
      EqualityWorks(xs[0], ys[0]);
      OrderingWorks(op, xs[0], ys[0]);
      OrderedItemsWork(op, xs[1..], ys[1..]);
    }
  }

  lemma {:induction false} InListWorks(v: Value, items: seq<Value>)
    requires NoNan(v) && forall i :: 0 <= i < |items| ==> NoNan(items[i])
    ensures InList(v, items).Ok?
  {
    if items != [] {
      EqualityWorks(items[0], v);
      InListWorks(v, items[1..]);
    }
  }

  predicate TameOperator(op: string, expected: Value) {
    NoNan(expected) && (OpOf(op) == Some(Contain) ==> !OutOfByte(expected))
  }

  lemma TameOperatorWorks(actual: Value, exists_: bool, op: string, expected: Value)
    requires NoNan(actual) && TameOperator(op, expected)
    ensures Operator(actual, exists_, op, expected).Err? ==>
      && Operator(actual, exists_, op, expected).error == QueryError
      && !WellFormedOperator(op, expected)
  {
    hide OpOf, OpResult, NoNan;
    if OpOf(op).Some? {
      OpWorks(actual, exists_, OpOf(op).value, expected);
    }
  }

  lemma OpWorks(actual: Value, exists_: bool, op: Op, expected: Value)
    requires NoNan(actual) && NoNan(expected) && (op.Contain? ==> !OutOfByte(expected))
    ensures OpResult(actual, exists_, op, expected).Err? ==>
      OpResult(actual, exists_, op, expected).error == QueryError && (op.In? || op.Nin?) && !expected.List?
  {
    hide Comparing, Equals, InList, Containing, Truthy, NoNan, OutOfByte;
    OperandsWork(actual, expected);
  }

  lemma OperandsWork(actual: Value, expected: Value)
    requires NoNan(actual) && NoNan(expected)
    ensures Equals(actual, expected).Ok?
    ensures forall c: Comparison :: Comparing(c, actual, expected).Ok?
    ensures expected.List? ==> InList(actual, expected.items).Ok?
    ensures !OutOfByte(expected) ==> Containing(actual, expected).Ok?
  {
    hide Ordered, EqRaises, PyEq, InList, Contains;
    EqualityWorks(actual, expected);
    forall c: Comparison ensures Ordered(c, actual, expected) != Invalid {
      OrderingWorks(c, actual, expected);
    }
    if expected.List? {
      InListWorks(actual, expected.items);
    }
    if actual.List? || actual.Tuple? {
      InListWorks(expected, actual.items);
    }
  }

  /** No argument is or holds anything that is not a number, and no `$contains` asks for an integer that is no byte. */
  predicate TameField(expected: Value) {
    if HasOperator(expected) then
      forall i :: 0 <= i < |expected.entries| ==> TameOperator(expected.entries[i].key, expected.entries[i].val)
    else NoNan(expected)
  }

  predicate TameCriteria(criteria: Value) {
    criteria.Dict? ==> forall i :: 0 <= i < |criteria.entries| ==> TameField(criteria.entries[i].val)
  }

  lemma {:induction false} DictHasNoNan(document: Value, field: string)
    requires document.Dict? && NoNan(document)
    ensures NoNan(GetOrNull(document.entries, field))
  {
    if Has(document.entries, field) {
      var i := FieldIndex(document.entries, field);
    }
  }

  lemma TameFieldWorks(document: Value, field: string, expected: Value)
    requires document.Dict? && NoNan(document) && TameField(expected)
    ensures FieldResult(document, field, expected).Err? ==>
      FieldResult(document, field, expected).error == QueryError && !WellFormedField(expected)
  {
    hide Operator, NoNan, PyEq, EqRaises, IsOperator, WellFormedOperator;
    var actual, exists_ := GetOrNull(document.entries, field), Has(document.entries, field);
    DictHasNoNan(document, field);
    if HasOperator(expected) {
      var i := OperatorsRaise(actual, exists_, expected.entries);
      if i < |expected.entries| {
        TameOperatorWorks(actual, exists_, expected.entries[i].key, expected.entries[i].val);
      }
    } else {
      EqualityWorks(actual, expected);
    }
  }

  /**
    On stored documents, tame criteria raise nothing but QueryError, and that
    only if they are malformed.
   */
  lemma TameCriteriaRaiseQueryErrors(document: Value, criteria: Value)
    requires document.Dict? && Encodable(document) && TameCriteria(criteria)
    ensures Matched(document, criteria).Err? ==>
      Matched(document, criteria).error == QueryError && !WellFormedCriteria(criteria)
  {
    StorableHasNoNan(document);
    if criteria.Dict? && Matched(document, criteria).Err? {
      hide NoNan, Encodable, FieldResult, WellFormedField, TameField;
      var i := FieldsRaise(document, criteria.entries);
      TameFieldWorks(document, criteria.entries[i].key, criteria.entries[i].val);
      FieldRaisesExactly(document, criteria.entries[i].key, criteria.entries[i].val);
    }
  }

  lemma {:induction false} SomeoneRaises(documents: seq<Value>, criteria: Value) returns (i: nat)
    requires forall i :: 0 <= i < |documents| ==> documents[i].Dict?
    ensures FirstRaised(documents, criteria).Some? ==>
      i < |documents| && Matched(documents[i], criteria) == Err(FirstRaised(documents, criteria).value)
  {
    hide Matched;
    i := 0;
    if documents != [] && Matched(documents[0], criteria).Ok? {
      i := SomeoneRaises(documents[1..], criteria);
      i := i + 1;
    }
  }

  /** `find` with tame and well-formed criteria never raises. */
  lemma WellFormedIsNeverRefused(documents: seq<Value>, criteria: Value)
    requires WellFormedCriteria(criteria) && TameCriteria(criteria)
    requires forall i :: 0 <= i < |documents| ==> documents[i].Dict? && Encodable(documents[i])
    ensures Refusal(documents, criteria) == None
  {
    hide Matched, WellFormedCriteria, TameCriteria;
    var all := [Dict([])] + documents;
    var i := SomeoneRaises(all, criteria);
    if i < |all| {
      assert Encodable(all[i]);
      TameCriteriaRaiseQueryErrors(all[i], criteria);
    }
  }

  /** A signalling NaN in well-formed criteria escapes as an error that is no QueryError. */
  lemma SignallingNanEscapes(field: string, number: int, nan: Value)
    requires !IsOperator(field) && IsSignalling(nan)
    ensures var criteria := Dict([Entry(field, nan)]);
      && WellFormedCriteria(criteria)
      && Refusal([Dict([Entry(field, Int(number))])], criteria) == Some(InvalidOperation)
  {
    var criteria := Dict([Entry(field, nan)]);
    var document := Dict([Entry(field, Int(number))]);
    assert FieldResult(Dict([]), field, criteria.entries[0].val) == Ok(false);
    assert Matched(Dict([]), criteria) == Ok(false);
    assert document.entries[0].key == field;
    assert FieldResult(document, field, criteria.entries[0].val) == Err(InvalidOperation);
    assert Matched(document, criteria) == Err(InvalidOperation);
    var all := [Dict([])] + [document];
    assert all[0] == Dict([]) && all[1..] == [document];
    assert FirstRaised([document], criteria) == Some(InvalidOperation);
  }

  /** Malformed criteria need not be refused: a field that does not match hides malformed ones after it. */
  lemma MalformedCanGoUnnoticed()
    ensures var criteria := Dict([Entry("a", Int(1)), Entry("b", Dict([Entry("$near", Int(1))]))]);
      !WellFormedCriteria(criteria) && Refusal([], criteria) == None && Kept([], criteria) == []
  {
    var inner := Dict([Entry("$near", Int(1))]);
    var criteria := Dict([Entry("a", Int(1)), Entry("b", inner)]);
    assert inner.entries[0].key == "$near" && "$near"[0] == '$';
    assert IsOperator(inner.entries[0].key);
    assert OpOf("$near") == None;
    assert !WellFormedField(criteria.entries[1].val);
    assert FieldResult(Dict([]), "a", Int(1)) == Ok(false);
    assert Fields(Dict([]), criteria.entries) == Ok(false);
    assert [Dict([])] + [] == [Dict([])];
    assert FirstRaised([Dict([])][1..], criteria) == None;
  }

  // ---------- What is kept ----------

  /** `find` keeps every occurrence of a matching document and nothing else. */
  lemma {:induction false} KeptExactly(documents: seq<Value>, criteria: Value, d: Value)
    requires d.Dict? && forall i :: 0 <= i < |documents| ==> documents[i].Dict?
    ensures multiset(Kept(documents, criteria))[d] == if Satisfies(d, criteria) then multiset(documents)[d] else 0
  {
    if documents != [] {
      KeptExactly(documents[1..], criteria, d);
      assert documents == [documents[0]] + documents[1..];
    }
  }

  // ---------- Order, and complements ----------

  /** The same criteria up to the order of fields, and of operators in a field. */
  ghost predicate Reordered(a: Value, b: Value) {
    && a.Dict? && b.Dict? && UniqueKeys(a.entries) && UniqueKeys(b.entries)
    && AsMap(a.entries).Keys == AsMap(b.entries).Keys
    && forall k :: k in AsMap(a.entries) ==> SameField(AsMap(a.entries)[k], AsMap(b.entries)[k])
  }

  ghost predicate SameField(x: Value, y: Value) {
    x == y || (HasOperator(x) && HasOperator(y) && UniqueKeys(x.entries) && UniqueKeys(y.entries)
               && AsMap(x.entries) == AsMap(y.entries))
  }

  lemma SameFieldHolds(document: Value, field: string, x: Value, y: Value)
    requires document.Dict? && SameField(x, y) && FieldHolds(document, field, x)
    ensures FieldHolds(document, field, y)
  {
    if x != y {
      var actual, exists_ := GetOrNull(document.entries, field), Has(document.entries, field);
      forall i | 0 <= i < |y.entries| ensures Holds(actual, exists_, y.entries[i].key, y.entries[i].val) {
        AtIndex(y.entries, i);
        var j := IndexOfKey(x.entries, y.entries[i].key);
        assert Holds(actual, exists_, x.entries[j].key, x.entries[j].val);
      }
    }
  }

  /** Neither the order of fields nor that of operators matters to what criteria mean. */
  lemma OrderDoesNotMatter(document: Value, a: Value, b: Value)
    requires document.Dict? && Reordered(a, b) && Satisfies(document, a)
    ensures Satisfies(document, b)
  {
    forall i | 0 <= i < |b.entries| ensures FieldHolds(document, b.entries[i].key, b.entries[i].val) {
      var k := b.entries[i].key;
      AtIndex(b.entries, i);
      var j := IndexOfKey(a.entries, k);
      assert FieldHolds(document, a.entries[j].key, a.entries[j].val);
      SameFieldHolds(document, k, a.entries[j].val, b.entries[i].val);
    }
  }

  function One(field: string, op: Op, expected: Value): Value {
    Dict([Entry(field, Dict([Entry(op.Name(), expected)]))])
  }

  lemma OneMeans(document: Value, field: string, op: Op, expected: Value)
    requires document.Dict?
    ensures Satisfies(document, One(field, op, expected)) <==>
      OpHolds(GetOrNull(document.entries, field), Has(document.entries, field), op, expected)
  {
    NameIsRead(op);
    hide OpOf, OpHolds;
    var inner := Dict([Entry(op.Name(), expected)]);
    assert inner.entries[0].key == op.Name();
    assert HasOperator(inner);
    assert One(field, op, expected).entries[0].val == inner;
  }

  /** On every document one of each pair of operators holds and the other does not. */
  lemma Complements(document: Value, field: string, x: Value, list: Value, yes: Value, no: Value)
    requires document.Dict? && list.List? && Truthy(yes) && !Truthy(no)
    ensures Satisfies(document, One(field, Ne, x)) <==> !Satisfies(document, One(field, Eq, x))
    ensures Satisfies(document, One(field, Nin, list)) <==> !Satisfies(document, One(field, In, list))
    ensures Satisfies(document, One(field, Exist, no)) <==> !Satisfies(document, One(field, Exist, yes))
  {
    hide Satisfies, Has;
    OneMeans(document, field, Ne, x);
    OneMeans(document, field, Eq, x);
    OneMeans(document, field, Nin, list);
    OneMeans(document, field, In, list);
    OneMeans(document, field, Exist, no);
    OneMeans(document, field, Exist, yes);
  }
}
