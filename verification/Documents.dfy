/** json_database/collection.py: what each operation makes of the state it is given. */
module Documents {
  import opened Wrappers
  import opened Dicts
  import opened Values
  import opened Serializer
  import opened Errors
  import opened Storage
  import opened LoadTheorems

  /** A call on a collection. Ids and documents are whatever the caller passed; new ids come from `uuid4`. */
  datatype Request =
    | Insert(name: string, document: Value, uuid: string)
    | Update(name: string, id: Value, updates: Value)
    | Replace(name: string, id: Value, document: Value)
    | Delete(name: string, id: Value)
    | Upsert(name: string, id: Value, document: Value)
    | BulkInsert(name: string, documents: Value, draw: nat -> string)
    | BulkUpdate(name: string, pairs: Value)

  /** `validate_document` does not raise. */
  predicate ValidDocument(v: Value) {
    v.Dict? && Clean(v) && Encodable(v)
  }

  /** `_validate_document_id` does not raise. */
  predicate ValidId(v: Value) {
    v.Str? && v.s != ""
  }

  function EntriesOf(v: Value): seq<Entry<Value>> {
    if v.Dict? then v.entries else []
  }

  /** The documents of a collection; none if it is missing. */
  function DocumentsIn(state: Value, name: string): seq<Entry<Value>> {
    EntriesOf(GetOrNull(Collections(state), name))
  }

  /** The state with the documents of one collection replaced, the collection being created if missing. */
  function WithDocuments(state: Value, name: string, docs: seq<Entry<Value>>): Value {
    Dict(Put(EntriesOf(state), "collections", Dict(Put(Collections(state), name, Dict(docs)))))
  }

  function WithId(document: Value, id: string): Value
    requires document.Dict?
  {
    Dict(Put(document.entries, "id", Str(id)))
  }

  /** `document.update(updates)`. */
  function Merge(document: Value, updates: Value): Value {
    Dict(PutAll(EntriesOf(document), EntriesOf(updates)))
  }

  /** `_validate_body_id` does not raise. */
  predicate BodyIdMatches(document: Value, id: Value)
    requires document.Dict?
  {
    Has(document.entries, "id") ==> PyEq(Get(document.entries, "id"), id)
  }

  /** `_validate_body_id` raises because the ids cannot be compared. */
  predicate BodyIdRaises(document: Value, id: Value)
    requires document.Dict?
  {
    Has(document.entries, "id") && EqRaises(Get(document.entries, "id"), id)
  }

  /** The error `_get_document_ref` raises, if any. */
  function LookupError(state: Value, name: string, id: Value): Option<DbError> {
    if !ValidId(id) || !ValidName(name) then Some(ValidationError)
    else if !Has(Collections(state), name) || !Has(DocumentsIn(state, name), id.s) then Some(NotFoundError)
    else None
  }

  function InsertDocument(state: Value, name: string, document: Value, uuid: string): Result<Value, DbError> {
    if !ValidDocument(document) || Has(document.entries, "id") || !ValidName(name) then Err(ValidationError)
    else Ok(WithDocuments(state, name, Put(DocumentsIn(state, name), uuid, WithId(document, uuid))))
  }

  function UpdateDocument(state: Value, name: string, id: Value, updates: Value): Result<Value, DbError> {
    if !ValidDocument(updates) || Has(updates.entries, "id") then Err(ValidationError)
    else match LookupError(state, name, id)
      case Some(e) => Err(e)
      case None =>
        var docs := DocumentsIn(state, name);
        Ok(WithDocuments(state, name, Put(docs, id.s, Merge(GetOrNull(docs, id.s), updates))))
  }

  function ReplaceDocument(state: Value, name: string, id: Value, document: Value): Result<Value, DbError> {
    if !ValidDocument(document) then Err(ValidationError)
    else if BodyIdRaises(document, id) then Err(InvalidOperation)
    else if !BodyIdMatches(document, id) then Err(ValidationError)
    else match LookupError(state, name, id)
      case Some(e) => Err(e)
      case None => Ok(WithDocuments(state, name, Put(DocumentsIn(state, name), id.s, WithId(document, id.s))))
  }

  function DeleteDocument(state: Value, name: string, id: Value): Result<Value, DbError> {
    match LookupError(state, name, id)
    case Some(e) => Err(e)
    case None => Ok(WithDocuments(state, name, Remove(DocumentsIn(state, name), id.s)))
  }

  function UpsertDocument(state: Value, name: string, id: Value, document: Value): Result<Value, DbError> {
    if !ValidId(id) || !ValidDocument(document) || !BodyIdMatches(document, id) || !ValidName(name) then
      Err(ValidationError)
    else Ok(WithDocuments(state, name, Put(DocumentsIn(state, name), id.s, WithId(document, id.s))))
  }

  // ---------- Bulk operations ----------

  predicate NewDocument(v: Value) {
    ValidDocument(v) && !Has(v.entries, "id")
  }

  function PutNew(docs: seq<Entry<Value>>, news: seq<Value>, uuids: seq<string>): seq<Entry<Value>>
    requires |news| == |uuids| && forall i :: 0 <= i < |news| ==> news[i].Dict?
    decreases |news|
  {
    if news == [] then docs else PutNew(Put(docs, uuids[0], WithId(news[0], uuids[0])), news[1..], uuids[1..])
  }

  function Drawn(draw: nat -> string, n: nat): seq<string> {
    seq(n, i requires 0 <= i => draw(i))
  }

  /** `draw(i)` is the id drawn for the i-th document. */
  function BulkInsertDocuments(state: Value, name: string, documents: Value, draw: nat -> string)
    : Result<Value, DbError>
  {
    if !documents.List? then Err(ValidationError)
    else if exists i :: 0 <= i < |documents.items| && !NewDocument(documents.items[i]) then Err(ValidationError)
    else if !ValidName(name) then Err(ValidationError)
    else
      Ok(WithDocuments(state, name, PutNew(DocumentsIn(state, name), documents.items, Drawn(draw, |documents.items|))))
  }

  predicate IsPair(v: Value) {
    (v.List? || v.Tuple?) && |v.items| == 2
  }

  /** The error the first pass of `bulk_update` raises for one item, if any. */
  function PairError(docs: seq<Entry<Value>>, item: Value): Option<DbError> {
    if !IsPair(item) || !ValidId(item.items[0]) then Some(ValidationError)
    else if !Has(docs, item.items[0].s) then Some(NotFoundError)
    else if !NewDocument(item.items[1]) then Some(ValidationError)
    else None
  }

  function FirstError(docs: seq<Entry<Value>>, items: seq<Value>): Option<DbError> {
    if items == [] then None
    else match PairError(docs, items[0])
      case Some(e) => Some(e)
      case None => FirstError(docs, items[1..])
  }

  predicate GoodPair(item: Value) {
    IsPair(item) && ValidId(item.items[0]) && NewDocument(item.items[1])
  }

  /** The second pass of `bulk_update`. */
  function MergeAll(docs: seq<Entry<Value>>, items: seq<Value>): seq<Entry<Value>>
    requires forall i :: 0 <= i < |items| ==> GoodPair(items[i])
    decreases |items|
  {
    if items == [] then docs
    else
      assert GoodPair(items[0]);
      var id := items[0].items[0].s;
      MergeAll(Put(docs, id, Merge(GetOrNull(docs, id), items[0].items[1])), items[1..])
  }

  lemma {:induction false} NoErrorMeansGood(docs: seq<Entry<Value>>, items: seq<Value>)
    ensures FirstError(docs, items).None? <==>
      forall i :: 0 <= i < |items| ==> GoodPair(items[i]) && Has(docs, items[i].items[0].s)
  {
    if items != [] {
      NoErrorMeansGood(docs, items[1..]);
      assert forall i :: 0 < i < |items| ==> items[i] == items[1..][i - 1];
    }
  }

  function BulkUpdateDocuments(state: Value, name: string, pairs: Value): Result<Value, DbError> {
    if !pairs.List? || !ValidName(name) then Err(ValidationError)
    else if !Has(Collections(state), name) then Err(NotFoundError)
    else match FirstError(DocumentsIn(state, name), pairs.items)
      case Some(e) => Err(e)
      case None =>
        NoErrorMeansGood(DocumentsIn(state, name), pairs.items);
        Ok(WithDocuments(state, name, MergeAll(DocumentsIn(state, name), pairs.items)))
  }

  /** The new state, or the error that leaves the state as it was. */
  function Apply(state: Value, r: Request): Result<Value, DbError> {
    match r
    case Insert(name, document, uuid) => InsertDocument(state, name, document, uuid)
    case Update(name, id, updates) => UpdateDocument(state, name, id, updates)
    case Replace(name, id, document) => ReplaceDocument(state, name, id, document)
    case Delete(name, id) => DeleteDocument(state, name, id)
    case Upsert(name, id, document) => UpsertDocument(state, name, id, document)
    case BulkInsert(name, documents, draw) => BulkInsertDocuments(state, name, documents, draw)
    case BulkUpdate(name, pairs) => BulkUpdateDocuments(state, name, pairs)
  }
}
