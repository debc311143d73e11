/** The theorems about `load`: which commits come back, which edits are caught, when a check raises. */
module LoadTheorems {
  import opened Wrappers
  import opened Dicts
  import opened Host
  import opened Values
  import opened JsonText
  import opened JsonProofs
  import opened Serializer
  import opened SerializerProofs
  import opened Canonical
  import opened CanonicalText
  import opened Errors
  import opened Storage
  import opened StorageProofs

  // ---------- Document ids that collide with the envelope key ----------

  function Collections(state: Value): seq<Entry<Value>> {
    if state.Dict? && GetOrNull(state.entries, "collections").Dict? then GetOrNull(state.entries, "collections").entries
    else []
  }

  /** Some document is stored under the id that marks a tagged value. */
  predicate ReservedId(state: Value) {
    exists i :: 0 <= i < |Collections(state)| &&
      Collections(state)[i].val.Dict? && Has(Collections(state)[i].val.entries, TYPE_KEY)
  }

  /** No reserved key anywhere, except that a document id may be one. */
  ghost predicate CleanButIds(state: Value) {
    && state.Dict? && !Has(state.entries, TYPE_KEY)
    && (forall i :: 0 <= i < |state.entries| && state.entries[i].key != "collections" ==> Clean(state.entries[i].val))
    && (forall i :: 0 <= i < |Collections(state)| ==> CleanDocuments(Collections(state)[i].val))
  }

  ghost predicate CleanDocuments(c: Value) {
    c.Dict? && forall j :: 0 <= j < |c.entries| ==> Clean(c.entries[j].val)
  }

  lemma CleanUnlessReserved(state: Value)
    requires WellFormed(state) && Shaped(state, false) && CleanButIds(state) && !ReservedId(state)
    ensures Clean(state)
  {
    var cs := Collections(state);
    forall i | 0 <= i < |cs| ensures Clean(cs[i].val) && cs[i].key != TYPE_KEY {
      assert CleanDocuments(cs[i].val);
      assert GoodCollection(cs[i].key, cs[i].val);
      assert "__" <= TYPE_KEY;
    }
    NoReservedName(cs);
    HasIsKey(state.entries, "collections");
    forall i | 0 <= i < |state.entries| && state.entries[i].key == "collections" ensures Clean(state.entries[i].val) {
      AtIndex(state.entries, i);
    }
  }

  lemma {:induction false} NoReservedName(cs: seq<Entry<Value>>)
    requires forall i :: 0 <= i < |cs| ==> cs[i].key != TYPE_KEY
    ensures !Has(cs, TYPE_KEY)
  {
    HasIsKey(cs, TYPE_KEY);
    NotAKey(cs, TYPE_KEY);
  }

  lemma DictFails(es: seq<Entry<Value>>, i: nat)
    requires UniqueKeys(es) && Encodable(Dict(es)) && !Has(es, TYPE_KEY)
    requires i < |es| && Decode(Enc(es[i].val)).None?
    ensures Decode(Enc(Dict(es))).None?
  {
    var fs := EncFields(es);
    EncodedKeys(es, TYPE_KEY);
    HasIsKey(es, TYPE_KEY);
    HasIsKey(fs, TYPE_KEY);
    assert fs[i].val == Enc(es[i].val);
    DecodesEachField(fs);
    assert Enc(Dict(es)) == JObj(fs);
  }

  lemma ReservedCollectionFails(c: Value)
    requires WellFormed(c) && Encodable(c) && c.Dict? && Has(c.entries, TYPE_KEY)
    requires forall j :: 0 <= j < |c.entries| ==> c.entries[j].val.Dict?
    ensures Decode(Enc(c)).None?
  {
    var fs := EncFields(c.entries);
    HasIsKey(c.entries, TYPE_KEY);
    HasIsKey(fs, TYPE_KEY);
    EncodedKeys(c.entries, TYPE_KEY);
    var i := EncodedAt(c.entries, TYPE_KEY);
    assert Get(fs, TYPE_KEY).JObj?;
    EnvelopeDecodes(fs);
    assert Enc(c) == JObj(fs);
  }

  /** The decoder refuses a state with such an id: it meets a tag that is not a string. */
  lemma ReservedIdFails(p: Value)
    requires WellFormed(p) && Encodable(p) && Shaped(p, true) && ReservedId(p) && !Has(p.entries, TYPE_KEY)
    ensures Decode(Enc(p)).None?
  {
    var cs := Collections(p);
    var i :| 0 <= i < |cs| && cs[i].val.Dict? && Has(cs[i].val.entries, TYPE_KEY);
    GetWellFormed(p.entries, "collections");
    GetEncodable(p.entries, "collections");
    assert GoodCollection(cs[i].key, cs[i].val);
    forall j | 0 <= j < |cs[i].val.entries| ensures cs[i].val.entries[j].val.Dict? {
      assert GoodDocument(cs[i].val.entries[j].key, cs[i].val.entries[j].val);
    }
    ReservedCollectionFails(cs[i].val);
    ValidNamesOnly(cs);
    DictFails(cs, i);
    HasIsKey(p.entries, "collections");
    var k := IndexOfKey(p.entries, "collections");
    DictFails(p.entries, k);
  }

  lemma ValidNamesOnly(cs: seq<Entry<Value>>)
    requires GoodCollections(Dict(cs))
    ensures !Has(cs, TYPE_KEY)
  {
    forall i | 0 <= i < |cs| ensures cs[i].key != TYPE_KEY {
      assert GoodCollection(cs[i].key, cs[i].val);
      assert "__" <= TYPE_KEY;
    }
    NoReservedName(cs);
  }

  lemma UndecodableIsRefused(p: Value, later: Value)
    requires WellFormed(p) && Encodable(p) && Decode(Enc(p)).None?
    ensures Load(Text(FileText(p)), later) == Err(DatabaseFormatError)
  {
    EncIsPrintable(p);
    LoadsDumps(FILE, Enc(p));
    DecodeSorted(Enc(p));
  }

  /**
    A committed state can be loaded again exactly when no document id equals
    the envelope key; it is then returned up to the order of dicts and sets and
    to tuples outside sets.
   */
  lemma CommitThenLoad(state: Value, now: Value, later: Value)
    requires WellFormed(state) && CleanButIds(state) && now.Scalar? && Commit(state, now).Ok?
    ensures Load(Text(Commit(state, now).value), later).Ok? <==> !ReservedId(state)
    ensures !ReservedId(state) ==>
      var w := Load(Text(Commit(state, now).value), later).value;
      Mean(w) == Mean(Prepare(state, now).value) && Listed(w) && Clean(w) && WellFormed(w) && Encodable(w)
  {
    if ReservedId(state) {
      ReservedIdIsRefused(state, now, later);
    } else {
      CleanUnlessReserved(state);
      CommitThenLoadClean(state, now, later);
    }
  }

  lemma ReservedIdIsRefused(state: Value, now: Value, later: Value)
    requires WellFormed(state) && state.Dict? && !Has(state.entries, TYPE_KEY) && ReservedId(state)
    requires now.Scalar? && Commit(state, now).Ok?
    ensures Load(Text(Commit(state, now).value), later) == Err(DatabaseFormatError)
  {
    PreparedFacts(state, now);
    var p := Prepare(state, now).value;
    PreparedHasNoEnvelope(state, now);
    assert Collections(p) == Collections(state);
    ReservedIdFails(p);
    UndecodableIsRefused(p, later);
  }

  lemma PreparedHasNoEnvelope(state: Value, now: Value)
    requires Prepare(state, now).Ok? && !Has(state.entries, TYPE_KEY)
    ensures !Has(Prepare(state, now).value.entries, TYPE_KEY)
  {
    var es := state.entries;
    var u := Unsealed(state, now);
    assert TYPE_KEY[0] != "meta"[0];
    GetPutOther(es, "meta", GetOrNull(u.entries, "meta"), TYPE_KEY);
    GetPutOther(u.entries, "meta", GetOrNull(Prepare(state, now).value.entries, "meta"), TYPE_KEY);
  }

  // ---------- What was loaded ----------

  /** Everything the rest of the program relies on in a loaded state. */
  ghost predicate Sound(state: Value) {
    WellFormed(state) && Clean(state) && Encodable(state) && Shaped(state, true)
  }

  lemma AdmittedIsDecoded(disk: Disk)
    requires Admit(disk).Ok?
    ensures Decoded(Admit(disk).value)
  {
    LoadsKeyedOnce(disk.text);
    DecodeImage(Loads(disk.text).value);
  }

  /** The checksum of an admitted state can be computed exactly when its numbers are finite. */
  lemma ChecksumNeedsFiniteNumbers(disk: Disk)
    requires Admit(disk).Ok?
    ensures Checksum(Admit(disk).value).Ok? <==> FiniteNumbers(Admit(disk).value)
  {
    var s := Admit(disk).value;
    AdmittedIsDecoded(disk);
    SealMeans(s, Null);
    SealedWithItsOwn(s);
    if Encodable(WithChecksum(s, Null)) {
      SealEncodable(s, Null, Str(StoredChecksum(s)));
    }
  }

  /** A loaded file is sound, so it can be committed again and loads back as what it denotes. */
  lemma LoadedCanBeCommitted(disk: Disk, t: Value, now: Value, later: Value)
    requires !disk.Missing? && Load(disk, t).Ok?
    requires now.Scalar? && Encodable(now)
    ensures Sound(Load(disk, t).value) && Listed(Load(disk, t).value)
    ensures Commit(Load(disk, t).value, now).Ok?
    ensures var w := Load(Text(Commit(Load(disk, t).value, now).value), later);
      w.Ok? && Mean(w.value) == Mean(Prepare(Load(disk, t).value, now).value)
  {
    var s := Load(disk, t).value;
    AdmittedIsDecoded(disk);
    ChecksumNeedsFiniteNumbers(disk);
    ShapeWithoutChecksum(s);
    CommitSucceeds(s, now);
    CommitThenLoadClean(s, now, later);
  }

  lemma ShapeWithoutChecksum(s: Value)
    requires Shaped(s, true)
    ensures Shaped(s, false)
  {
  }

  /**
    Unless two different texts with one hash are at hand, replacing a file by
    another one that carries the same checksum goes unnoticed exactly when both
    denote the same state outside the checksum field.
   */
  lemma EditIsDetected(before: Disk, after: Disk, t: Value)
    requires !before.Missing? && Load(before, t).Ok?
    requires Admit(after).Ok? && FiniteNumbers(Admit(after).value)
    requires StoredChecksum(Admit(after).value) == StoredChecksum(Load(before, t).value)
    ensures var s, s' := Load(before, t).value, Admit(after).value;
      && Encodable(WithChecksum(s, Null)) && Encodable(WithChecksum(s', Null))
      && var a, a' := CanonicalDump(WithChecksum(s, Null)), CanonicalDump(WithChecksum(s', Null));
      && ((a != a' && Py.sha256(a) == Py.sha256(a'))
          || (Load(after, t).Ok? <==> Mean(WithChecksum(s, Null)) == Mean(WithChecksum(s', Null))))
      && (Load(after, t).Err? ==> Load(after, t) == Err(IntegrityError(StoredChecksum(s), Py.sha256(a'))))
  {
    AdmittedIsSound(before);
    AdmittedIsSound(after);
    var s, s' := Admit(before).value, Admit(after).value;
    NulledTexts(s, s');
    assert Checksum(s) == Ok(Py.sha256(CanonicalDump(WithChecksum(s, Null))));
    assert Checksum(s') == Ok(Py.sha256(CanonicalDump(WithChecksum(s', Null))));
    LoadCompares(before, t);
    LoadCompares(after, t);
  }

  lemma LoadCompares(disk: Disk, t: Value)
    requires Admit(disk).Ok? && Checksum(Admit(disk).value).Ok?
    ensures var s := Admit(disk).value;
      Load(disk, t) ==
        if StoredChecksum(s) == Checksum(s).value then Ok(s)
        else Err(IntegrityError(StoredChecksum(s), Checksum(s).value))
  {
  }

  lemma AdmittedIsSound(disk: Disk)
    requires Admit(disk).Ok?
    ensures Checksum(Admit(disk).value).Ok? || FiniteNumbers(Admit(disk).value) ==> Sound(Admit(disk).value)
  {
    AdmittedIsDecoded(disk);
    ChecksumNeedsFiniteNumbers(disk);
  }

  lemma NulledTexts(s: Value, s': Value)
    requires Sound(s) && Sound(s')
    ensures Encodable(WithChecksum(s, Null)) && Encodable(WithChecksum(s', Null))
    ensures CanonicalDump(WithChecksum(s, Null)) == CanonicalDump(WithChecksum(s', Null))
       <==> Mean(WithChecksum(s, Null)) == Mean(WithChecksum(s', Null))
  {
    SealMeans(s, Null);
    SealMeans(s', Null);
    CanonicalDumpIsMeaning(WithChecksum(s, Null), WithChecksum(s', Null));
  }

  // ---------- The empty state ----------

  lemma EmptyMetaKeys(now: Value, c: Value)
    ensures var es := EmptyMeta(now, c).entries; UniqueKeys(es) && !Has(es, TYPE_KEY)
  {
    var es := EmptyMeta(now, c).entries;
    assert es[0].key[0] == 'f' && es[1].key[0] == 'v' && es[2].key[1] == 'r';
    assert es[3].key[0] == 'u' && es[4].key[1] == 'o';
    assert es[2].key[0] == 'c' && es[4].key[0] == 'c';
    forall i, j | 0 <= i < j < |es| ensures es[i].key != es[j].key {
    }
    UniqueByIndex(es);
    forall i | 0 <= i < |es| ensures es[i].key != TYPE_KEY {
    }
    NoReservedName(es);
  }

  /** The state of a missing file is a meta block stamped now, and no collections. */
  lemma EmptyStateIs(now: Value)
    ensures var s := EmptyState(now); var m := MetaMap(s);
      && s.Dict? && "collections" in AsMap(s.entries) && AsMap(s.entries)["collections"] == Dict([])
      && m.Keys == {"format", "version", "created_at", "updated_at", "content_sha256"}
      && m["format"] == Str("json_database") && m["version"] == Int(1)
      && m["created_at"] == now && m["updated_at"] == now
  {
    hide EmptyMeta, AsMap, UniqueKeys, CanonicalDump;
    var c := if Encodable(EmptyWith(now, Null)) then Str(Py.sha256(CanonicalDump(EmptyWith(now, Null)))) else Null;
    EmptyKeys(now, c);
    EmptyParts(now, c);
    var es := EmptyWith(now, c).entries;
    AtIndex(es, 1);
    EmptyMetaMap(now, c);
    assert MetaMap(Dict(es)) == AsMap(EmptyMeta(now, c).entries);
    assert EmptyState(now) == Dict(es);
  }

  lemma EmptyMetaMap(now: Value, c: Value)
    ensures EmptyMeta(now, c).Dict?
    ensures var m := AsMap(EmptyMeta(now, c).entries);
      && m.Keys == {"format", "version", "created_at", "updated_at", "content_sha256"}
      && m["format"] == Str("json_database") && m["version"] == Int(1)
      && m["created_at"] == now && m["updated_at"] == now && m["content_sha256"] == c
  {
    hide AsMap, UniqueKeys;
    var es := EmptyMeta(now, c).entries;
    EmptyMetaKeys(now, c);
    AtIndex(es, 0);
    AtIndex(es, 1);
    AtIndex(es, 2);
    AtIndex(es, 3);
    AtIndex(es, 4);
    forall k | k in AsMap(es) ensures k in {"format", "version", "created_at", "updated_at", "content_sha256"} {
      var i := IndexOfKey(es, k);
    }
  }

  lemma EmptyMetaIsGood(now: Value, sum: string)
    requires now.Scalar? && Encodable(now)
    ensures var m := EmptyMeta(now, Str(sum)); WellFormed(m) && Clean(m) && Encodable(m) && GoodMeta(m, true)
  {
    hide Has, UniqueKeys, GoodMeta;
    var es := EmptyMeta(now, Str(sum)).entries;
    EmptyMetaKeys(now, Str(sum));
    forall i | 0 <= i < |es| ensures WellFormed(es[i].val) && Clean(es[i].val) && Encodable(es[i].val) {
    }
    EmptyMetaFields(now, sum);
  }

  lemma EmptyMetaFields(now: Value, sum: string)
    ensures GoodMeta(EmptyMeta(now, Str(sum)), true)
  {
    var es := EmptyMeta(now, Str(sum)).entries;
    FieldAt(es, 0);
    FieldAt(es, 1);
    FieldAt(es, 4);
  }

  lemma {:induction false} FieldAt(es: seq<Entry<Value>>, i: nat)
    requires i < |es| && forall j :: 0 <= j < i ==> es[j].key != es[i].key
    ensures Has(es, es[i].key) && Get(es, es[i].key) == es[i].val
  {
    if i > 0 {
      FieldAt(es[1..], i - 1);
    }
  }

  lemma EmptyParts(now: Value, c: Value)
    ensures var es := EmptyWith(now, c).entries;
      && Has(es, "meta") && Get(es, "meta") == EmptyMeta(now, c)
      && Has(es, "collections") && Get(es, "collections") == Dict([])
  {
    var es := EmptyWith(now, c).entries;
    assert es[0].key[0] == 'm' && es[1].key[0] == 'c';
    FieldAt(es, 0);
    FieldAt(es, 1);
  }

  lemma EmptyKeys(now: Value, c: Value)
    ensures var es := EmptyWith(now, c).entries; UniqueKeys(es) && !Has(es, TYPE_KEY)
  {
    var es := EmptyWith(now, c).entries;
    assert es[0].key[0] == 'm' && es[1].key[0] == 'c' && TYPE_KEY[0] == '_';
    forall i, j | 0 <= i < j < |es| ensures es[i].key != es[j].key {
    }
    UniqueByIndex(es);
    forall i | 0 <= i < |es| ensures es[i].key != TYPE_KEY {
    }
    NoReservedName(es);
  }

  lemma EmptyIsWellFormed(now: Value, sum: string)
    requires now.Scalar? && Encodable(now)
    ensures var s := EmptyWith(now, Str(sum)); WellFormed(s) && Clean(s) && Encodable(s)
  {
    hide EmptyMeta;
    var es := EmptyWith(now, Str(sum)).entries;
    EmptyMetaIsGood(now, sum);
    EmptyKeys(now, Str(sum));
    forall i | 0 <= i < |es| ensures WellFormed(es[i].val) && Clean(es[i].val) && Encodable(es[i].val) {
      assert i == 0 || es[i].val == Dict([]);
    }
  }

  lemma EmptyIsSound(now: Value, sum: string)
    requires now.Scalar? && Encodable(now)
    ensures Sound(EmptyWith(now, Str(sum)))
  {
    hide EmptyMeta, WellFormed, Clean, Encodable, GoodMeta;
    EmptyIsWellFormed(now, sum);
    EmptyMetaIsGood(now, sum);
    EmptyParts(now, Str(sum));
  }

  lemma {:induction false} PutAtIndex(es: seq<Entry<Value>>, i: nat, v: Value)
    requires i < |es| && forall j :: 0 <= j < i ==> es[j].key != es[i].key
    ensures Put(es, es[i].key, v) == es[i := Entry(es[i].key, v)]
  {
    if i > 0 {
      PutAtIndex(es[1..], i - 1, v);
    }
  }

  lemma EmptyChecksumField(now: Value, c: Value, d: Value)
    ensures var ms := EmptyMeta(now, c).entries;
      && Has(ms, "content_sha256") && Get(ms, "content_sha256") == c
      && Dict(Put(ms, "content_sha256", d)) == EmptyMeta(now, d)
  {
    var ms := EmptyMeta(now, c).entries;
    assert ms[0].key[0] == 'f' && ms[1].key[0] == 'v' && ms[3].key[0] == 'u' && ms[4].key[0] == 'c';
    assert ms[2].key[1] == 'r' && ms[4].key[1] == 'o';
    FieldAt(ms, 4);
    PutAtIndex(ms, 4, d);
    assert Put(ms, "content_sha256", d) == EmptyMeta(now, d).entries;
  }

  lemma EmptyResealed(now: Value, c: Value, d: Value)
    ensures GetOrNull(EmptyWith(now, c).entries, "meta").Dict?
    ensures WithChecksum(EmptyWith(now, c), d) == EmptyWith(now, d)
  {
    var es := EmptyWith(now, c).entries;
    EmptyParts(now, c);
    EmptyChecksumField(now, c, d);
    PutAtIndex(es, 0, EmptyMeta(now, d));
    assert es[0 := Entry("meta", EmptyMeta(now, d))] == EmptyWith(now, d).entries;
  }

  /** The state of a missing file is sound and carries its own checksum. */
  lemma EmptyStateIsSound(now: Value)
    requires now.Scalar? && Encodable(now)
    ensures Sound(EmptyState(now)) && Collections(EmptyState(now)) == []
    ensures Checksum(EmptyState(now)) == Ok(StoredChecksum(EmptyState(now)))
  {
    EmptyIsSound(now, "");
    SealMeans(EmptyWith(now, Str("")), Null);
    EmptyResealed(now, Str(""), Null);
    var sum := Py.sha256(CanonicalDump(EmptyWith(now, Null)));
    EmptyIsSound(now, sum);
    EmptyParts(now, Str(sum));
    EmptyChecksumField(now, Str(sum), Null);
    EmptyResealed(now, Str(sum), Null);
  }
}
