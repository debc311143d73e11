/** json_database/storage.py: the raising loops of the validators, and the steps that prepare a commit. */
module StorageSteps {
  import opened Wrappers
  import opened Dicts
  import opened Host
  import opened Values
  import opened JsonText
  import opened Serializer
  import opened CanonicalText
  import opened Errors
  import opened Storage
  import opened StorageProofs

  // ---------- Validation ----------

  method ValidateDocuments(documents: seq<Entry<Value>>) returns (r: Result<(), DbError>)
    ensures r.Ok? <==> forall i :: 0 <= i < |documents| ==> GoodDocument(documents[i].key, documents[i].val)
    ensures r.Err? ==> r.error == DatabaseFormatError
  {
    var i := 0;
    while i < |documents|
      invariant 0 <= i <= |documents|
      invariant forall j :: 0 <= j < i ==> GoodDocument(documents[j].key, documents[j].val)
    {
      var id, document := documents[i].key, documents[i].val;
      if id == "" {
        return Err(DatabaseFormatError);
      }
      if !document.Dict? {
        return Err(DatabaseFormatError);
      }
      if !PyEq(GetOrNull(document.entries, "id"), Str(id)) {
        return Err(DatabaseFormatError);
      }
      i := i + 1;
    }
    r := Ok(());
  }

  /** `_validate_state_shape`. */
  method ValidateStateShape(state: Value, requireChecksum: bool) returns (r: Result<(), DbError>)
    ensures match ShapeError(state, requireChecksum)
      case Some(e) => r == Err(e)
      case None => r == Ok(())
  {
    if !state.Dict? {
      return Err(DatabaseFormatError);
    }
    var meta, collections := GetOrNull(state.entries, "meta"), GetOrNull(state.entries, "collections");
    if !meta.Dict? || !PyEq(GetOrNull(meta.entries, "format"), Str(FORMAT)) {
      return Err(DatabaseFormatError);
    }
    var version := GetOrNull(meta.entries, "version");
    if EqRaises(version, Int(VERSION)) {
      return Err(InvalidOperation);
    }
    if !PyEq(version, Int(VERSION)) || (requireChecksum && !GetOrNull(meta.entries, "content_sha256").Str?) {
      return Err(DatabaseFormatError);
    }
    if !collections.Dict? {
      return Err(DatabaseFormatError);
    }
    var i := 0;
    while i < |collections.entries|
      invariant 0 <= i <= |collections.entries|
      invariant forall j :: 0 <= j < i ==> GoodCollection(collections.entries[j].key, collections.entries[j].val)
    {
      var name, documents := collections.entries[i].key, collections.entries[i].val;
      if !ValidName(name) || !documents.Dict? {
        return Err(DatabaseFormatError);
      }
      var _ :- ValidateDocuments(documents.entries);
      i := i + 1;
    }
    r := Ok(());
  }

  method ValidateRawDocuments(documents: seq<Entry<Json>>) returns (r: Result<(), DbError>)
    ensures r.Ok? <==> forall i :: 0 <= i < |documents| ==> RawDocument(documents[i].key, documents[i].val)
    ensures r.Err? ==> r.error == DatabaseFormatError
  {
    var i := 0;
    while i < |documents|
      invariant 0 <= i <= |documents|
      invariant forall j :: 0 <= j < i ==> RawDocument(documents[j].key, documents[j].val)
    {
      if !RawDocument(documents[i].key, documents[i].val) {
        return Err(DatabaseFormatError);
      }
      i := i + 1;
    }
    r := Ok(());
  }

  /** `_validate_raw_document_fields`: silent about anything that is not a dict. */
  method ValidateRawDocumentFields(parsed: Json) returns (r: Result<(), DbError>)
    ensures r == if RawState(parsed) then Ok(()) else Err(DatabaseFormatError)
  {
    if !parsed.JObj? || !Has(parsed.fields, "collections") {
      return Ok(());
    }
    var collections := Get(parsed.fields, "collections");
    if !collections.JObj? {
      return Ok(());
    }
    var i := 0;
    while i < |collections.fields|
      invariant 0 <= i <= |collections.fields|
      invariant forall j :: 0 <= j < i ==> RawCollection(collections.fields[j].key, collections.fields[j].val)
    {
      var name, documents := collections.fields[i].key, collections.fields[i].val;
      if !ValidName(name) {
        return Err(DatabaseFormatError);
      }
      if documents.JObj? {
        var _ :- ValidateRawDocuments(documents.fields);
      }
      i := i + 1;
    }
    r := Ok(());
  }

  // ---------- Preparing a commit ----------

  /** `compute_checksum`: works on a copy, so the state keeps its own checksum. */
  method ComputeChecksum(state: Value) returns (r: Result<string, DbError>)
    requires state.Dict? && GetOrNull(state.entries, "meta").Dict?
    ensures r == Checksum(state)
  {
    var canonical := state.entries;
    var meta := GetOrNull(canonical, "meta").entries;
    meta := Put(meta, "content_sha256", Null);
    canonical := Put(canonical, "meta", Dict(meta));
    if !Encodable(Dict(canonical)) {
      return Err(SerializationError);
    }
    r := Ok(Py.sha256(CanonicalDump(Dict(canonical))));
  }

  /**
    `_prepare_for_commit`: what it returns has the stamped meta block and a
    checksum that is its own, and the collections of the state it was given.
   */
  method PrepareForCommit(state: Value, now: Value) returns (r: Result<Value, DbError>)
    requires WellFormed(state) && now.Scalar?
    ensures r == Prepare(state, now)
    ensures r.Ok? ==>
      && Shaped(r.value, true) && Checksum(r.value) == Ok(StoredChecksum(r.value))
      && GetOrNull(r.value.entries, "collections") == GetOrNull(state.entries, "collections")
  {
    var _ :- ValidateStateShape(state, false);
    var prepared := state.entries;
    var meta := GetOrNull(prepared, "meta").entries;
    meta := SetDefault(meta, "format", Str(FORMAT));
    meta := SetDefault(meta, "version", Int(VERSION));
    meta := SetDefault(meta, "created_at", now);
    meta := Put(meta, "updated_at", now);
    meta := Put(meta, "content_sha256", Null);
    prepared := Put(prepared, "meta", Dict(meta));
    assert Dict(prepared) == Unsealed(state, now);
    var sum :- ComputeChecksum(Dict(prepared));
    meta := Put(meta, "content_sha256", Str(sum));
    prepared := Put(prepared, "meta", Dict(meta));
    assert Dict(prepared) == WithChecksum(Unsealed(state, now), Str(sum));
    var _ :- ValidateStateShape(Dict(prepared), true);
    PreparedFacts(state, now);
    r := Ok(Dict(prepared));
  }
}
