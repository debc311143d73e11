/** json_database/storage.py: preparing a commit, the five-stage load, and the checksum inside the state it covers. */
module Storage {
  import opened Wrappers
  import opened Dicts
  import opened Host
  import opened Values
  import opened JsonText
  import opened Serializer
  import opened CanonicalText
  import opened Errors

  const FORMAT := "json_database"
  const VERSION := 1

  /** What a process finds at the database path. */
  datatype Disk = Missing | Unreadable | NotUtf8 | Text(text: string)

  /** `d.get(k)`. */
  function GetOrNull(es: seq<Entry<Value>>, k: string): Value {
    if Has(es, k) then Get(es, k) else Null
  }

  function SetDefault(es: seq<Entry<Value>>, k: string, v: Value): seq<Entry<Value>> {
    if Has(es, k) then es else Put(es, k, v)
  }

  // ---------- Shape of a state ----------

  predicate GoodMeta(meta: Value, requireChecksum: bool) {
    && meta.Dict?
    && PyEq(GetOrNull(meta.entries, "format"), Str(FORMAT))
    && PyEq(GetOrNull(meta.entries, "version"), Int(VERSION))
    && (requireChecksum ==> GetOrNull(meta.entries, "content_sha256").Str?)
  }

  predicate GoodDocument(id: string, document: Value) {
    id != "" && document.Dict? && PyEq(GetOrNull(document.entries, "id"), Str(id))
  }

  predicate GoodCollection(name: string, documents: Value) {
    && ValidName(name) && documents.Dict?
    && forall i :: 0 <= i < |documents.entries| ==> GoodDocument(documents.entries[i].key, documents.entries[i].val)
  }

  predicate GoodCollections(collections: Value) {
    && collections.Dict?
    && forall i :: 0 <= i < |collections.entries| ==>
      GoodCollection(collections.entries[i].key, collections.entries[i].val)
  }

  /** `_validate_state_shape` does not raise. */
  predicate Shaped(state: Value, requireChecksum: bool) {
    && state.Dict?
    && GoodMeta(GetOrNull(state.entries, "meta"), requireChecksum)
    && GoodCollections(GetOrNull(state.entries, "collections"))
  }

  /** Comparing `meta.version` raises: it is a signalling NaN, and the checks before it pass. */
  predicate VersionRaises(state: Value) {
    state.Dict? &&
    var meta := GetOrNull(state.entries, "meta");
    && meta.Dict? && PyEq(GetOrNull(meta.entries, "format"), Str(FORMAT))
    && EqRaises(GetOrNull(meta.entries, "version"), Int(VERSION))
  }

  /** The error `_validate_state_shape` raises, if any. */
  function ShapeError(state: Value, requireChecksum: bool): Option<DbError> {
    if VersionRaises(state) then Some(InvalidOperation)
    else if Shaped(state, requireChecksum) then None
    else Some(DatabaseFormatError)
  }

  /** A state with the right shape is compared without an error. */
  lemma ShapeErrorIs(state: Value, requireChecksum: bool)
    ensures ShapeError(state, requireChecksum).None? <==> Shaped(state, requireChecksum)
    ensures ShapeError(state, requireChecksum).Some? ==>
      ShapeError(state, requireChecksum).value ==
        (if VersionRaises(state) then InvalidOperation else DatabaseFormatError)
  {
    hide GoodCollections;
  }

  // ---------- Raw validation ----------

  /** `_validate_raw_value_for_reserved_keys` does not raise. */
  predicate RawValue(j: Json) {
    match j
    case JObj(fs) =>
      if Has(fs, TYPE_KEY) then |fs| == 2 && Has(fs, "value")
      else forall i :: 0 <= i < |fs| ==> RawValue(fs[i].val)
    case JArr(items) => forall i :: 0 <= i < |items| ==> RawValue(items[i])
    case _ => true
  }

  predicate RawDocument(id: string, document: Json) {
    && id != ""
    && (document.JObj? ==>
          && !(Has(document.fields, "id") && Get(document.fields, "id") == JStr(""))
          && !Has(document.fields, TYPE_KEY)
          && forall i :: 0 <= i < |document.fields| ==> RawValue(document.fields[i].val))
  }

  predicate RawCollection(name: string, documents: Json) {
    && ValidName(name)
    && (documents.JObj? ==>
          forall i :: 0 <= i < |documents.fields| ==> RawDocument(documents.fields[i].key, documents.fields[i].val))
  }

  /** `_validate_raw_document_fields` does not raise. */
  predicate RawState(parsed: Json) {
    parsed.JObj? && Has(parsed.fields, "collections") && Get(parsed.fields, "collections").JObj? ==>
      var cs := Get(parsed.fields, "collections").fields;
      forall i :: 0 <= i < |cs| ==> RawCollection(cs[i].key, cs[i].val)
  }

  // ---------- Checksum ----------

  /** The state with `content_sha256` set in its meta block. */
  function WithChecksum(state: Value, checksum: Value): Value
    requires state.Dict? && GetOrNull(state.entries, "meta").Dict?
  {
    var meta := GetOrNull(state.entries, "meta").entries;
    Dict(Put(state.entries, "meta", Dict(Put(meta, "content_sha256", checksum))))
  }

  /** `compute_checksum`: hashes the canonical text with the checksum field nulled. */
  function Checksum(state: Value): Result<string, DbError>
    requires state.Dict? && GetOrNull(state.entries, "meta").Dict?
  {
    var canonical := WithChecksum(state, Null);
    if Encodable(canonical) then Ok(Py.sha256(CanonicalDump(canonical))) else Err(SerializationError)
  }

  function StoredChecksum(state: Value): string
    requires Shaped(state, true)
  {
    GetOrNull(GetOrNull(state.entries, "meta").entries, "content_sha256").s
  }

  // ---------- Commit ----------

  /** The meta block `_prepare_for_commit` writes before it computes the checksum. */
  function PreparedMeta(meta: seq<Entry<Value>>, now: Value): seq<Entry<Value>> {
    var m1 := SetDefault(meta, "format", Str(FORMAT));
    var m2 := SetDefault(m1, "version", Int(VERSION));
    var m3 := SetDefault(m2, "created_at", now);
    Put(Put(m3, "updated_at", now), "content_sha256", Null)
  }

  function Unsealed(state: Value, now: Value): (r: Value)
    requires Shaped(state, false)
    ensures r.Dict? && GetOrNull(r.entries, "meta").Dict?
  {
    Dict(Put(state.entries, "meta", Dict(PreparedMeta(GetOrNull(state.entries, "meta").entries, now))))
  }

  /** `_prepare_for_commit`. */
  function Prepare(state: Value, now: Value): Result<Value, DbError> {
    if ShapeError(state, false).Some? then Err(ShapeError(state, false).value)
    else
      var unsealed := Unsealed(state, now);
      var sum :- Checksum(unsealed);
      var prepared := WithChecksum(unsealed, Str(sum));
      if ShapeError(prepared, true).Some? then Err(ShapeError(prepared, true).value) else Ok(prepared)
  }

  /** The text `_commit_unlocked` hands to `atomic_write`. */
  function Commit(state: Value, now: Value): Result<string, DbError> {
    var prepared :- Prepare(state, now);
    if Encodable(prepared) then Ok(Dumps(FILE, Enc(prepared)) + "\n") else Err(SerializationError)
  }

  // ---------- Load ----------

  function EmptyMeta(now: Value, checksum: Value): Value {
    Dict([
      Entry("format", Str(FORMAT)), Entry("version", Int(VERSION)), Entry("created_at", now),
      Entry("updated_at", now), Entry("content_sha256", checksum)])
  }

  function EmptyWith(now: Value, checksum: Value): Value {
    Dict([Entry("meta", EmptyMeta(now, checksum)), Entry("collections", Dict([]))])
  }

  /** `make_empty_state`. The clock's value can always be encoded. */
  function EmptyState(now: Value): Value {
    var unsealed := EmptyWith(now, Null);
    EmptyWith(now, if Encodable(unsealed) then Str(Py.sha256(CanonicalDump(unsealed))) else Null)
  }

  /** The stages of `load` before the checksum: read, parse, raw validation, decode, shape. */
  function Admit(disk: Disk): (r: Result<Value, DbError>)
    ensures r.Ok? ==> Shaped(r.value, true)
  {
    match disk
    case Missing => Err(StorageError)
    case Unreadable => Err(StorageError)
    case NotUtf8 => Err(DatabaseFormatError)
    case Text(text) =>
      if text == "" then Err(DatabaseFormatError)
      else match Loads(text)
        case None => Err(DatabaseFormatError)
        case Some(parsed) =>
          if !RawState(parsed) then Err(DatabaseFormatError)
          else match Decode(parsed)
            case None => Err(DatabaseFormatError)
            case Some(state) =>
              match ShapeError(state, true)
              case Some(e) => Err(e)
              case None => Ok(state)
  }

  /** `load`. */
  function Load(disk: Disk, now: Value): Result<Value, DbError> {
    if disk.Missing? then Ok(EmptyState(now))
    else
      var state :- Admit(disk);
      var actual :- Checksum(state);
      if StoredChecksum(state) == actual then Ok(state) else Err(IntegrityError(StoredChecksum(state), actual))
  }

  datatype Status = IsOk | IsMissing | IsCorrupt(expected: string, actual: string) | IsFormat | IsStorage

  /** `check_integrity`: the error, if any, is one it lets escape. */
  function CheckIntegrity(disk: Disk, now: Value): Result<Status, DbError> {
    if disk.Missing? then Ok(IsMissing)
    else match Load(disk, now)
      case Ok(_) => Ok(IsOk)
      case Err(IntegrityError(expected, actual)) => Ok(IsCorrupt(expected, actual))
      case Err(DatabaseFormatError) => Ok(IsFormat)
      case Err(StorageError) => Ok(IsStorage)
      case Err(e) => Err(e)
  }
}
