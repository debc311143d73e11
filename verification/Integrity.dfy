/** What `check_integrity` reports of a file, and what it lets escape. */
module Integrity {
  import opened Wrappers
  import opened Dicts
  import opened Host
  import opened Values
  import opened JsonText
  import opened JsonProofs
  import opened Serializer
  import opened SerializerProofs
  import opened Canonical
  import opened CanonicalText
  import opened Errors
  import opened Storage
  import opened LoadTheorems

  // ---------- What check_integrity lets escape ----------

  /** The tree in the file, if it is a JSON text. */
  function ParsedFile(disk: Disk): Option<Json> {
    if disk.Text? && disk.text != "" then Loads(disk.text) else None
  }

  /** The state in the file, if raw validation lets it pass and it decodes. */
  function DecodedFile(disk: Disk): Option<Value> {
    var parsed :- ParsedFile(disk);
    if RawState(parsed) then Decode(parsed) else None
  }

  /** A file that decodes to a state of the right shape. */
  predicate IsDatabase(disk: Disk) {
    DecodedFile(disk).Some? && Shaped(DecodedFile(disk).value, true)
  }

  /** The hash of the state in the file with its checksum field nulled. */
  function Recomputed(disk: Disk): string
    requires IsDatabase(disk) && Encodable(WithChecksum(DecodedFile(disk).value, Null))
  {
    Py.sha256(CanonicalDump(WithChecksum(DecodedFile(disk).value, Null)))
  }

  /** The file decodes to a state whose version is a signalling NaN. */
  predicate RaisesAtVersion(disk: Disk) {
    DecodedFile(disk).Some? && VersionRaises(DecodedFile(disk).value)
  }

  lemma AdmitIs(disk: Disk)
    ensures Admit(disk).Ok? <==> IsDatabase(disk)
    ensures Admit(disk).Ok? ==> Admit(disk).value == DecodedFile(disk).value
    ensures Admit(disk) == Err(StorageError) <==> disk.Missing? || disk.Unreadable?
    ensures Admit(disk) == Err(InvalidOperation) <==> RaisesAtVersion(disk)
    ensures Admit(disk).Err? ==> Admit(disk).error in {StorageError, DatabaseFormatError, InvalidOperation}
  {
    hide Loads, RawState, Decode, Shaped, VersionRaises;
    if DecodedFile(disk).Some? {
      ShapeErrorIs(DecodedFile(disk).value, true);
    }
  }

  lemma CheckIntegrityIs(disk: Disk, now: Value)
    ensures CheckIntegrity(disk, now).Err? <==>
      Admit(disk) == Err(InvalidOperation) || (Admit(disk).Ok? && Checksum(Admit(disk).value).Err?)
    ensures CheckIntegrity(disk, now).Err? ==>
      CheckIntegrity(disk, now).error == (if Admit(disk).Err? then InvalidOperation else SerializationError)
  {
    AdmitIs(disk);
    hide Admit, RaisesAtVersion, EmptyState, CanonicalDump, Encodable, WithChecksum;
  }

  /**
    `check_integrity` lets an error escape exactly when the file is well formed
    but holds a number that is not finite, or when its version is a signalling
    NaN, which cannot be compared.
   */
  lemma CheckIntegrityRaises(disk: Disk, now: Value)
    ensures CheckIntegrity(disk, now).Err? <==>
      RaisesAtVersion(disk) || (Admit(disk).Ok? && !FiniteNumbers(Admit(disk).value))
    ensures CheckIntegrity(disk, now).Err? ==>
      CheckIntegrity(disk, now).error == (if RaisesAtVersion(disk) then InvalidOperation else SerializationError)
  {
    hide CheckIntegrity, Admit, RaisesAtVersion, Checksum, FiniteNumbers;
    CheckIntegrityIs(disk, now);
    AdmitIs(disk);
    if Admit(disk).Ok? {
      ChecksumNeedsFiniteNumbers(disk);
    }
  }

  // ---------- What check_integrity reports ----------

  /**
    Each report of `check_integrity`, exactly: a missing file, one that cannot
    be read, one that is no database, one whose stored checksum is not the
    recomputed one, and one where the two are equal.
   */
  lemma CheckIntegrityReports(disk: Disk, now: Value)
    ensures CheckIntegrity(disk, now) == Ok(IsMissing) <==> disk.Missing?
    ensures CheckIntegrity(disk, now) == Ok(IsStorage) <==> disk.Unreadable?
    ensures CheckIntegrity(disk, now) == Ok(IsFormat) <==>
      && (disk.NotUtf8? || disk.Text?) && !IsDatabase(disk)
      && !RaisesAtVersion(disk)
    ensures CheckIntegrity(disk, now) == Ok(IsOk) <==>
      && IsDatabase(disk) && FiniteNumbers(DecodedFile(disk).value)
      && Encodable(WithChecksum(DecodedFile(disk).value, Null))
      && StoredChecksum(DecodedFile(disk).value) == Recomputed(disk)
    ensures forall e, a :: CheckIntegrity(disk, now) == Ok(IsCorrupt(e, a)) <==>
      && IsDatabase(disk) && FiniteNumbers(DecodedFile(disk).value)
      && Encodable(WithChecksum(DecodedFile(disk).value, Null))
      && e == StoredChecksum(DecodedFile(disk).value) && a == Recomputed(disk) && e != a
  {
    hide Admit, ParsedFile, DecodedFile, RawState, Decode, Shaped, VersionRaises, FiniteNumbers, EmptyState,
      CanonicalDump, WithChecksum;
    AdmitIs(disk);
    if Admit(disk).Ok? {
      ChecksumNeedsFiniteNumbers(disk);
    }
    if disk.NotUtf8? || disk.Unreadable? || disk.Missing? {
      NoText(disk);
    }
  }

  lemma NoText(disk: Disk)
    requires !disk.Text?
    ensures DecodedFile(disk).None?
  {
  }

  /** An edit under an unchanged checksum is reported, with both checksums, exactly if it changes the meaning. */
  lemma EditIsReported(before: Disk, after: Disk, t: Value, now: Value, s: Value, s': Value)
    requires !before.Missing? && Load(before, t) == Ok(s)
    requires IsDatabase(after) && FiniteNumbers(s') && DecodedFile(after) == Some(s')
    requires Shaped(s, true) && StoredChecksum(s') == StoredChecksum(s)
    ensures Encodable(WithChecksum(s, Null)) && Encodable(WithChecksum(s', Null))
    ensures var a, a' := CanonicalDump(WithChecksum(s, Null)), CanonicalDump(WithChecksum(s', Null));
      (a != a' && Py.sha256(a) == Py.sha256(a'))
      || CheckIntegrity(after, now) ==
        (if Mean(WithChecksum(s, Null)) == Mean(WithChecksum(s', Null)) then Ok(IsOk)
         else Ok(IsCorrupt(StoredChecksum(s), Py.sha256(a'))))
  {
    hide CheckIntegrity, Admit, Shaped, FiniteNumbers, WithChecksum, CanonicalDump, Mean, Encodable, ParsedFile,
      RawState, Decode;
    AdmitIs(after);
    EditIsDetected(before, after, t);
    CheckFollowsLoad(after, t, now);
  }

  lemma CheckFollowsLoad(disk: Disk, t: Value, now: Value)
    requires !disk.Missing?
    ensures Load(disk, t).Ok? ==> CheckIntegrity(disk, now) == Ok(IsOk)
    ensures Load(disk, t).Err? && Load(disk, t).error.IntegrityError? ==>
      CheckIntegrity(disk, now) == Ok(IsCorrupt(Load(disk, t).error.expected, Load(disk, t).error.actual))
  {
    hide Admit, Checksum, Shaped;
  }

  // ---------- A file whose version cannot be compared ----------

  function SignallingMeta(t: string): seq<Entry<Json>> {
    [Entry("format", JStr(FORMAT)), Entry("version", Tagged("decimal", JStr(t)))]
  }

  /** A file with the right format whose version is tagged as a Decimal with text `t`. */
  function SignallingFile(t: string): string {
    Dumps(FILE, JObj([Entry("meta", JObj(SignallingMeta(t)))])) + "\n"
  }

  lemma HasOne<T>(a: Entry<T>, k: string)
    ensures Has([a], k) <==> a.key == k
    ensures a.key == k ==> Get([a], k) == a.val
  {
    assert [a][1..] == [];
  }

  lemma HasPair<T>(a: Entry<T>, b: Entry<T>, k: string)
    ensures Has([a, b], k) <==> a.key == k || b.key == k
    ensures a.key == k ==> Get([a, b], k) == a.val
    ensures a.key != k && b.key == k ==> Get([a, b], k) == b.val
  {
    assert [a, b][1..] == [b];
    HasOne(b, k);
  }

  lemma SortedPair(a: Entry<Json>, b: Entry<Json>)
    requires SortKeys(a.val) == a.val && SortKeys(b.val) == b.val && Leq(a.key, b.key)
    ensures SortKeys(JObj([a, b])) == JObj([a, b])
  {
    var s := SortedFields([a, b]);
    assert s == [a, b] && s[1..] == [b] && s[1..][1..] == [];
    assert Sort(s[1..]) == [b];
    assert Sort(s) == [a] + [b];
    SortKeysIs([a, b]);
  }

  lemma SignallingMetaIsSorted(t: string)
    ensures SortKeys(JObj(SignallingMeta(t))) == JObj(SignallingMeta(t)) && Printable(JObj(SignallingMeta(t)))
  {
    hide SortKeys, Tagged;
    var fs := SignallingMeta(t);
    assert "format"[0] == 'f' && "version"[0] == 'v';
    TaggedIsSorted("decimal", JStr(t));
    TaggedPrintable("decimal", JStr(t));
    StringIsSorted(FORMAT);
    StringIsSorted(t);
    assert Leq(fs[0].key, fs[1].key);
    SortedPair(fs[0], fs[1]);
    UniquePair(fs[0], fs[1]);
  }

  lemma StringIsSorted(s: string)
    ensures SortKeys(JStr(s)) == JStr(s)
  {
  }

  lemma UniquePair(a: Entry<Json>, b: Entry<Json>)
    requires a.key != b.key
    ensures UniqueKeys([a, b])
  {
    assert [a, b][1..] == [b] && [b][1..] == [];
  }

  lemma SignallingFileLoads(t: string)
    ensures Loads(SignallingFile(t)) == Some(JObj([Entry("meta", JObj(SignallingMeta(t)))]))
    ensures SignallingFile(t) != ""
  {
    var es := [Entry("meta", JObj(SignallingMeta(t)))];
    SignallingMetaIsSorted(t);
    assert es[1..] == [];
    var s := SortedFields(es);
    assert s == es && s[1..] == [];
    assert Sort(s) == es;
    SortKeysIs(es);
    hide Loads, Dumps, Print;
    LoadsDumps(FILE, JObj(es));
  }

  lemma DecodesFirst(e: Entry<Json>, rest: seq<Entry<Json>>)
    requires Decode(e.val).Some? && DecodeFields(rest).Some?
    ensures DecodeFields([e] + rest) == Some([Entry(e.key, Decode(e.val).value)] + DecodeFields(rest).value)
  {
    assert ([e] + rest)[1..] == rest;
  }

  lemma SignallingMetaDecodes(t: string, nan: Value)
    requires nan.Scalar? && nan.kind == Decimal && Py.parse(Decimal, t) == Some(nan.code)
    ensures Decode(JObj(SignallingMeta(t))) == Some(Dict([Entry("format", Str(FORMAT)), Entry("version", nan)]))
  {
    var fs := SignallingMeta(t);
    TaggedDecodes("decimal", JStr(t));
    DecodesTag(Decimal);
    assert Decode(fs[1].val) == Some(nan);
    DecodesFirst(fs[1], []);
    DecodesFirst(fs[0], [fs[1]]);
    assert fs == [fs[0]] + [fs[1]] && [fs[1]] == [fs[1]] + [];
    assert "format"[0] == 'f' && "version"[0] == 'v' && TYPE_KEY[0] == '_';
    HasPair(fs[0], fs[1], TYPE_KEY);
    var vs := [Entry("format", Str(FORMAT)), Entry("version", nan)];
    assert [vs[0]] + ([vs[1]] + []) == vs;
    PlainDecodes(fs);
  }

  lemma SignallingStateDecodes(t: string, nan: Value)
    requires nan.Scalar? && nan.kind == Decimal && Py.parse(Decimal, t) == Some(nan.code)
    ensures var es := [Entry("meta", JObj(SignallingMeta(t)))];
      && RawState(JObj(es))
      && Decode(JObj(es)) == Some(Dict([Entry("meta", Dict([Entry("format", Str(FORMAT)), Entry("version", nan)]))]))
  {
    var es := [Entry("meta", JObj(SignallingMeta(t)))];
    SignallingMetaDecodes(t, nan);
    DecodesFirst(es[0], []);
    assert es == [es[0]] + [];
    assert "meta"[0] == 'm' && "collections"[0] == 'c' && TYPE_KEY[0] == '_';
    HasOne(es[0], TYPE_KEY);
    HasOne(es[0], "collections");
    assert DecodeFields(es).value == [Entry("meta", Decode(es[0].val).value)];
    PlainDecodes(es);
  }

  lemma SignallingStateRaises(nan: Value)
    requires IsSignalling(nan)
    ensures VersionRaises(Dict([Entry("meta", Dict([Entry("format", Str(FORMAT)), Entry("version", nan)]))]))
  {
    var meta := [Entry("format", Str(FORMAT)), Entry("version", nan)];
    assert "format"[0] == 'f' && "version"[0] == 'v';
    HasPair(meta[0], meta[1], "version");
    HasPair(meta[0], meta[1], "format");
    HasOne(Entry("meta", Dict(meta)), "meta");
  }

  /** That file meets the condition: `check_integrity` raises on it. */
  lemma SignallingVersionRaises(t: string, nan: Value, now: Value)
    requires IsSignalling(nan) && Py.parse(Decimal, t) == Some(nan.code)
    ensures CheckIntegrity(Text(SignallingFile(t)), now) == Err(InvalidOperation)
  {
    SignallingFileLoads(t);
    SignallingStateDecodes(t, nan);
    SignallingStateRaises(nan);
    hide CheckIntegrity, SignallingFile, SignallingMeta, Loads, Decode, RawState, VersionRaises;
    CheckIntegrityRaises(Text(SignallingFile(t)), now);
  }
}
