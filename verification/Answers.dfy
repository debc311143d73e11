/** When each operation succeeds and which error it raises, told from the values a caller passes. */
module Answers {
  import opened Wrappers
  import opened Dicts
  import opened Host
  import opened Values
  import opened Serializer
  import opened CanonicalText
  import opened Errors
  import opened Documents
  import opened DocumentProofs
  import opened Store

  // ---------- Documents ----------

  /** A value and everything inside it. */
  ghost function Everything(v: Value): set<Value>
    decreases v, 1
  {
    {v} +
    match v
    case Set(ms) => InItems(ms)
    case Dict(es) => InFields(es)
    case List(items) => InItems(items)
    case Tuple(items) => InItems(items)
    case _ => {}
  }

  ghost function InItems(vs: seq<Value>): set<Value>
    decreases vs, 0
  {
    if vs == [] then {} else Everything(vs[0]) + InItems(vs[1..])
  }

  ghost function InFields(es: seq<Entry<Value>>): set<Value>
    decreases es, 0
  {
    if es == [] then {} else Everything(es[0].val) + InFields(es[1..])
  }

  /** Of its own accord a value can be stored. */
  predicate Storable(u: Value) {
    match u
    case Float(f) => Py.isFinite(f)
    case Scalar(k, c) => Py.storable(k, c)
    case Other => false
    case _ => true
  }

  /** A dict in which everything can be stored and no dict uses the envelope key. */
  ghost predicate Fit(d: Value) {
    && d.Dict?
    && (forall u :: u in Everything(d) ==> Storable(u))
    && (forall u :: u in Everything(d) && u.Dict? ==> TYPE_KEY !in AsMap(u.entries))
  }

  ghost predicate AllStorable(s: set<Value>) {
    forall u :: u in s ==> Storable(u)
  }

  ghost predicate NoneReserved(s: set<Value>) {
    forall u :: u in s && u.Dict? ==> TYPE_KEY !in AsMap(u.entries)
  }

  lemma {:induction false} EncodableMeans(v: Value)
    ensures Encodable(v) <==> AllStorable(Everything(v))
    decreases v, 1
  {
    match v
    case Set(ms) => EncodableItems(ms);
    case Dict(es) => EncodableFields(es);
    case List(items) => EncodableItems(items);
    case Tuple(items) => EncodableItems(items);
    case _ =>
  }

  lemma {:induction false} EncodableItems(vs: seq<Value>)
    ensures (forall i :: 0 <= i < |vs| ==> Encodable(vs[i])) <==> AllStorable(InItems(vs))
    decreases vs, 0
  {
    hide Encodable, Everything, Storable;
    if vs != [] {
      EncodableMeans(vs[0]);
      EncodableItems(vs[1..]);
      assert (forall i :: 0 <= i < |vs| ==> Encodable(vs[i])) <==>
        Encodable(vs[0]) && forall i :: 0 <= i < |vs[1..]| ==> Encodable(vs[1..][i]) by {
        assert forall i :: 0 < i < |vs| ==> vs[i] == vs[1..][i - 1];
      }
    }
  }

  lemma {:induction false} EncodableFields(es: seq<Entry<Value>>)
    ensures (forall i :: 0 <= i < |es| ==> Encodable(es[i].val)) <==> AllStorable(InFields(es))
    decreases es, 0
  {
    hide Encodable, Everything, Storable;
    if es != [] {
      EncodableMeans(es[0].val);
      EncodableFields(es[1..]);
      assert (forall i :: 0 <= i < |es| ==> Encodable(es[i].val)) <==>
        Encodable(es[0].val) && forall i :: 0 <= i < |es[1..]| ==> Encodable(es[1..][i].val) by {
        assert forall i :: 0 < i < |es| ==> es[i] == es[1..][i - 1];
      }
    }
  }

  lemma {:induction false} CleanMeans(v: Value)
    ensures Clean(v) <==> NoneReserved(Everything(v))
    decreases v, 1
  {
    match v
    case Set(ms) => CleanItems(ms);
    case Dict(es) =>
      HasIsKey(es, TYPE_KEY);
      CleanFields(es);
    case List(items) => CleanItems(items);
    case Tuple(items) => CleanItems(items);
    case _ =>
  }

  lemma {:induction false} CleanItems(vs: seq<Value>)
    ensures (forall i :: 0 <= i < |vs| ==> Clean(vs[i])) <==> NoneReserved(InItems(vs))
    decreases vs, 0
  {
    hide Clean, Everything;
    if vs != [] {
      CleanMeans(vs[0]);
      CleanItems(vs[1..]);
      assert (forall i :: 0 <= i < |vs| ==> Clean(vs[i])) <==>
        Clean(vs[0]) && forall i :: 0 <= i < |vs[1..]| ==> Clean(vs[1..][i]) by {
        assert forall i :: 0 < i < |vs| ==> vs[i] == vs[1..][i - 1];
      }
    }
  }

  lemma {:induction false} CleanFields(es: seq<Entry<Value>>)
    ensures (forall i :: 0 <= i < |es| ==> Clean(es[i].val)) <==> NoneReserved(InFields(es))
    decreases es, 0
  {
    hide Clean, Everything;
    if es != [] {
      CleanMeans(es[0].val);
      CleanFields(es[1..]);
      assert (forall i :: 0 <= i < |es| ==> Clean(es[i].val)) <==>
        Clean(es[0].val) && forall i :: 0 <= i < |es[1..]| ==> Clean(es[1..][i].val) by {
        assert forall i :: 0 < i < |es| ==> es[i] == es[1..][i - 1];
      }
    }
  }

  /** `validate_document` accepts exactly the dicts in which everything can be stored. */
  lemma ValidDocumentIsFit(d: Value)
    ensures ValidDocument(d) <==> Fit(d)
  {
    hide Clean, Encodable, Everything, Storable;
    EncodableMeans(d);
    CleanMeans(d);
  }

  // ---------- What an operation complains about ----------

  /** The fields of a document as a map. */
  ghost function Fields(d: Value): map<string, Meaning> {
    if d.Dict? then Mean(d).fields else map[]
  }

  ghost predicate New(d: Value) {
    Fit(d) && "id" !in Fields(d)
  }

  ghost function Absent(db: Collected, name: string, id: Value): Option<DbError> {
    if !id.Str? || id.s == "" || !ValidName(name) then Some(ValidationError)
    else if name in db && id.s in db[name] then None
    else Some(NotFoundError)
  }

  ghost function PairComplaint(docs: Docs, p: Value): Option<DbError> {
    if !((p.List? || p.Tuple?) && |p.items| == 2) || !p.items[0].Str? || p.items[0].s == "" then Some(ValidationError)
    else if p.items[0].s !in docs then Some(NotFoundError)
    else if New(p.items[1]) then None
    else Some(ValidationError)
  }

  /** The complaint about the first pair that has one. */
  ghost function FirstComplaint(docs: Docs, ps: seq<Value>): Option<DbError> {
    if ps == [] then None
    else if PairComplaint(docs, ps[0]).Some? then PairComplaint(docs, ps[0])
    else FirstComplaint(docs, ps[1..])
  }

  ghost function ReplaceComplaint(db: Collected, name: string, id: Value, d: Value): Option<DbError> {
    if !Fit(d) then Some(ValidationError)
    else if id.Str? then
      if "id" in Fields(d) && Fields(d)["id"] != Atom(Str(id.s)) then Some(ValidationError)
      else Absent(db, name, id)
    else if Has(d.entries, "id") && EqRaises(Get(d.entries, "id"), id) then Some(InvalidOperation)
    else Some(ValidationError)
  }

  /** The error an operation raises on a database; none means that it succeeds. */
  ghost function Complaint(db: Collected, r: Request): Option<DbError> {
    match r
    case Insert(name, d, _) => if New(d) && ValidName(name) then None else Some(ValidationError)
    case Update(name, id, u) => if New(u) then Absent(db, name, id) else Some(ValidationError)
    case Replace(name, id, d) => ReplaceComplaint(db, name, id, d)
    case Delete(name, id) => Absent(db, name, id)
    case Upsert(name, id, d) =>
      if !id.Str? || id.s == "" || !Fit(d) || !ValidName(name) then Some(ValidationError)
      else if "id" in Fields(d) && Fields(d)["id"] != Atom(Str(id.s)) then Some(ValidationError)
      else None
    case BulkInsert(name, ds, _) =>
      if ds.List? && (forall i :: 0 <= i < |ds.items| ==> New(ds.items[i])) && ValidName(name) then None
      else Some(ValidationError)
    case BulkUpdate(name, ps) =>
      if !ps.List? || !ValidName(name) then Some(ValidationError)
      else if name !in db then Some(NotFoundError)
      else FirstComplaint(db[name], ps.items)
  }

  lemma NewIsNew(d: Value)
    requires d.Dict? ==> UniqueKeys(d.entries)
    ensures NewDocument(d) <==> New(d)
  {
    hide Fit;
    ValidDocumentIsFit(d);
    if d.Dict? {
      HasIsKey(d.entries, "id");
      MeanAt(d.entries, "id");
    }
  }

  /** The id in a body is the one it is stored under, or there is none. */
  lemma BodyIdMeans(d: Value, i: string)
    requires d.Dict? && UniqueKeys(d.entries)
    ensures BodyIdMatches(d, Str(i)) <==> !("id" in Fields(d) && Fields(d)["id"] != Atom(Str(i)))
    ensures !BodyIdRaises(d, Str(i))
  {
    HasIsKey(d.entries, "id");
    MeanAt(d.entries, "id");
  }

  lemma NotAStringMatchesNothing(db: Collected, name: string, id: Value)
    requires !id.Str?
    ensures Store.Missing(db, name, id) == Some(ValidationError)
  {
  }

  lemma MissingIsAbsent(db: Collected, name: string, id: Value)
    ensures Store.Missing(db, name, id) == Absent(db, name, id)
  {
  }

  ghost function ErrorOf<T>(r: Result<T, DbError>): Option<DbError> {
    match r
    case Ok(_) => None
    case Err(e) => Some(e)
  }

  lemma ReplaceAnswers(db: Collected, name: string, id: Value, d: Value)
    requires WellFormed(d)
    ensures ErrorOf(ActReplace(db, name, id, d)) == ReplaceComplaint(db, name, id, d)
  {
    hide Fit, ValidDocument, BodyIdMatches, BodyIdRaises, Fields, Store.Missing, Absent;
    ValidDocumentIsFit(d);
    if Fit(d) {
      DictIsKeyed(d);
      MissingIsAbsent(db, name, id);
      if id.Str? {
        BodyIdMeans(d, id.s);
      } else {
        RaisesIs(d, id);
        NotAStringMatchesNothing(db, name, id);
      }
    }
  }

  lemma RaisesIs(d: Value, id: Value)
    requires d.Dict?
    ensures BodyIdRaises(d, id) <==> Has(d.entries, "id") && EqRaises(Get(d.entries, "id"), id)
  {
  }

  lemma DictIsKeyed(d: Value)
    requires WellFormed(d) && (ValidDocument(d) || Fit(d))
    ensures d.Dict? && UniqueKeys(d.entries)
  {
  }

  lemma UpsertAnswers(db: Collected, name: string, id: Value, d: Value)
    requires WellFormed(d)
    ensures ErrorOf(ActUpsert(db, name, id, d)) == Complaint(db, Upsert(name, id, d))
  {
    hide Fit, ValidDocument, BodyIdMatches, Fields;
    ValidDocumentIsFit(d);
    if Fit(d) && id.Str? {
      DictIsKeyed(d);
      BodyIdMeans(d, id.s);
    }
  }

  lemma KeyedIfDict(v: Value)
    requires WellFormed(v)
    ensures v.Dict? ==> UniqueKeys(v.entries)
  {
  }

  lemma {:induction false} PairsAnswer(docs: Docs, ps: seq<Value>)
    requires forall i :: 0 <= i < |ps| ==> WellFormed(ps[i])
    ensures PairsError(docs, ps) == FirstComplaint(docs, ps)
  {
    hide WellFormed, New, NewDocument;
    if ps != [] {
      PairsAnswer(docs, ps[1..]);
      if IsPair(ps[0]) {
        SecondIsWellFormed(ps[0]);
        KeyedIfDict(ps[0].items[1]);
        NewIsNew(ps[0].items[1]);
      }
    }
  }

  lemma SecondIsWellFormed(p: Value)
    requires WellFormed(p) && IsPair(p)
    ensures WellFormed(p.items[1])
  {
  }

  lemma BulkInsertAnswers(db: Collected, name: string, ds: Value, draw: nat -> string)
    requires WellFormed(ds)
    ensures ErrorOf(ActBulkInsert(db, name, ds, draw)) == Complaint(db, BulkInsert(name, ds, draw))
  {
    hide New, NewDocument, PutStamped;
    if ds.List? {
      forall i | 0 <= i < |ds.items| ensures NewDocument(ds.items[i]) <==> New(ds.items[i]) {
        KeyedIfDict(ds.items[i]);
        NewIsNew(ds.items[i]);
      }
    }
  }

  lemma BulkUpdateAnswers(db: Collected, name: string, ps: Value)
    requires WellFormed(ps)
    ensures ErrorOf(ActBulkUpdate(db, name, ps)) == Complaint(db, BulkUpdate(name, ps))
  {
    hide PairsError, FirstComplaint, MergePairs;
    if ps.List? && name in db {
      PairsAnswer(db[name], ps.items);
    }
  }

  lemma ActAnswers(db: Collected, r: Request)
    requires GoodRequest(r)
    ensures ErrorOf(Act(db, r)) == Complaint(db, r)
  {
    hide New, NewDocument, Store.Missing, Absent, ActReplace, ActUpsert, ActBulkInsert, ActBulkUpdate, ReplaceComplaint;
    match r
    case Insert(name, d, _) =>
      KeyedIfDict(d);
      NewIsNew(d);
    case Update(name, id, u) =>
      KeyedIfDict(u);
      NewIsNew(u);
      MissingIsAbsent(db, name, id);
    case Replace(name, id, d) => ReplaceAnswers(db, name, id, d);
    case Delete(name, id) => MissingIsAbsent(db, name, id);
    case Upsert(name, id, d) => UpsertAnswers(db, name, id, d);
    case BulkInsert(name, ds, draw) => BulkInsertAnswers(db, name, ds, draw);
    case BulkUpdate(name, ps) => BulkUpdateAnswers(db, name, ps);
  }

  /**
    An operation on a state succeeds, or raises the error, that the values in
    the request and the map of maps it works on call for.
   */
  lemma AnswersExactly(state: Value, r: Request)
    requires Committable(state) && GoodRequest(r)
    ensures ErrorOf(Documents.Apply(state, r)) == Complaint(Content(state), r)
  {
    hide Documents.Apply, Act, Complaint, Content, Committable, GoodRequest;
    ApplyRefines(state, r);
    ActAnswers(Content(state), r);
  }

  /** `replace` and `upsert` refuse a document that names another id, and nothing else about a fit document. */
  lemma OtherIdIsRefused(state: Value, name: string, i: string, d: Value)
    requires Committable(state) && WellFormed(d) && Fit(d) && i != ""
    ensures var another := "id" in Fields(d) && Fields(d)["id"] != Atom(Str(i));
      && ErrorOf(UpsertDocument(state, name, Str(i), d)) ==
        (if another || !ValidName(name) then Some(ValidationError) else None)
      && ErrorOf(ReplaceDocument(state, name, Str(i), d)) ==
        (if another || !ValidName(name) then Some(ValidationError)
         else if name in Content(state) && i in Content(state)[name] then None
         else Some(NotFoundError))
  {
    hide UpsertDocument, ReplaceDocument, Content, Committable, Fit, Fields;
    AnswersExactly(state, Upsert(name, Str(i), d));
    AnswersExactly(state, Replace(name, Str(i), d));
  }
}
