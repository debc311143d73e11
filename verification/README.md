# A verified model of a JSON document store

This project models `json_database`, a pure Python document database that keeps
collections of documents in one JSON file, and proves what the program promises
of it. The model follows the program's own layers:

- **Values and text.** `Values` are Python values as the serializer sees them.
  `JsonText` holds the three printers the program uses (pretty file text,
  canonical text, and the ASCII text that orders the members of a set) and a
  full parser for the grammar of sections 4 to 7 of RFC 8259 together with the
  three non-standard number names that Python's parser accepts; `JsonProofs` and
  `JsonGrammar` say what they print and read. `Serializer` is
  the tagged encoding and its decoder, `Encoding` its loops.
- **Storage.** `Storage` is the checksum inside the state it covers, the commit
  and the five-stage load; `StorageSteps` has the raising validators and the
  step-by-step preparation of a commit. `RawFiles` says which files raw
  validation and the decoder refuse, `Integrity` what `check_integrity` reports.
- **Documents.** `Documents` says what each collection operation makes of a
  state; `Store` relates that to a plain map of maps, and `Answers` says when an
  operation succeeds and which error it raises. `Heaps`, `DeepCopies`,
  `InPlace` and `CollectionOps` run the same operations and the reads on objects
  in memory, with deep copies at every boundary, and `Isolation` draws the
  consequence for callers. `Loading` makes the objects of a loaded file.
- **Processes.** `Protocol` is a step machine for any number of processes that
  lock, read, write, rename and release, with lock-free readers, process deaths
  and power failures. The file system has inodes, a directory with a durable
  and several possible states, and a lock holder per inode. `Machines`,
  `AtomicWrites` and `Engines` are the program's own code on that machine. Other
  processes take steps in between by a schedule that is part of the machine and
  arbitrary: each point of the program has a turn of its own in it, so their
  steps at two points are independent. `Locks` is the polling loop.
- **Transactions and queries.** `Transactions` and `Lifecycles` are the
  transaction and database objects; `Query` is the evaluator, and `Comparisons`
  says what each operator answers on the values that can be stored.
- **Everything together.** `Sessions` follows a load, any operations, a commit
  and the next load. `EndToEnd` puts the protocol and the sessions together: in
  every reachable state of any number of processes the file holds what the
  committed actions make of the initial database one after the other.

Strings are sequences of characters; a file is a text, or bytes that are no
UTF-8 text, or unreadable. What the Python library does with floats, Decimals,
dates, base64 and SHA-256 is an unknown set of functions: `Host.Py` is any one
that meets the laws in `Host.Lawful`, and `Host.Example` proves that the laws can
be met. Decimals include the infinities and both kinds of NaN; comparing with a
signalling one raises, and so the model's comparisons may raise. Nothing about
SHA-256 is assumed, so results that need it say "or two different texts with one
hash". `json.dumps` with `sort_keys` and `dict` are written out; a `dict` is a
list of entries in insertion order.

Where the obvious theorem is false of the code, the code is kept and the exact
condition is proved:

- `upsert` accepts the document id `__jsondb_type__`, and the commit of such a
  state writes a file that does not load again until the next forced init
  (`Sessions.ReservedIdBreaksLoad`, `LoadTheorems.CommitThenLoad`,
  `EndToEnd.FileIsFoldOfCommits`).
- `check_integrity`, documented to return a report, raises exactly on a well
  formed file that holds a non-finite number, and on one whose version field is a
  signalling NaN (`Integrity.CheckIntegrityRaises`,
  `Integrity.SignallingVersionRaises`).
- The package's error for queries is QueryError; comparing with a Decimal NaN
  raises InvalidOperation all the same, and `$contains` on bytes may raise ValueError
  (`Query.OpRaisesExactly`, `Query.SignallingNanEscapes`,
  `Query.TameCriteriaRaiseQueryErrors`).
- When the unlock call fails, a write raises its OSError although the commit may
  have been made, and an exiting transaction keeps its lock object
  (`EndToEnd.WriteIsOperation`, `Transactions.Transaction.Exit`).
- `bulk_insert` of an empty list creates a missing collection, which no number
  of single inserts does (`Store.BulkInsertIsInserts`).
- `find` is documented to validate criteria even when nothing would match; a
  field that does not match hides malformed ones after it
  (`Query.MatchedRaises`, `Query.MalformedCanGoUnnoticed`).
- A second `__exit__` of an old transaction clears the mark of another one that
  goes on holding the lock (`Lifecycles.ExitKeeps`).
- A commit whose directory fsync failed is acknowledged and can be lost
  (`ProtocolTraces.UnsyncedCommitCanBeLost`); one whose fsync succeeded cannot
  (`ProtocolTheorems.SyncedCommitsLast`).

The collection-name pattern of the code also accepts one final newline; the
model follows the code. `Errors.ValidName` is the whole rule.

`dafny verify dfyconfig.toml` checks the project.

## Model

| member | source | states |
|---|---|---|
| EndToEnd.FileIsFoldOfCommits | json_database/storage.py:84-95 | In every reachable state, with any interleaving, failures and power losses and any requests, the file at the path is the fold over the committed transactions, writes and inits in lock order, acting on a map of maps: it loads as that map, or, after a document was stored under the reserved id and until the next init, not at all |
| EndToEnd.UnreservedStaysFine | json_database/collection.py:278-280 | As long as no request names the reserved id, the fold never reaches the broken state: the file always loads |
| EndToEnd.ReadsSeeAPrefix | json_database/storage.py:62-82 | What a lock-free read returns is the effect of a prefix of the committed actions no older than the start of the read, and loads as that, or is refused if that prefix broke the file |
| EndToEnd.PowerLossLeavesAPrefix | json_database/atomic.py:52-101 | After a power loss the file is the effect of a prefix of the actions that includes every commit secured by a directory fsync |
| EndToEnd.OutcomeHolds | json_database/storage.py:90-95 | A locked operation that commits on a file holding some database leaves a file holding the action's effect on it, whatever ids the requests name |
| EndToEnd.TransactionIsOperation | json_database/transaction.py:64-81 | A clean exit publishes what the transaction's operation in the protocol makes of the file, and is no error if the lock came free and every call works; after an error the file is as it was, unless it is the OSError of a failing unlock |
| EndToEnd.WriteIsOperation | json_database/database.py:175-178 | The same for one autocommitted write |
| ProtocolProofs.StepKeepsInv | json_database/storage.py:62-95 | Every step of every process, every death and every power loss keeps the invariant of files, directory states, history, lock table and processes |
| ProtocolProofs.RunKeepsInv | json_database/storage.py:62-95 | The invariant holds after every run |
| ProtocolTheorems.MutualExclusion | json_database/lock.py:67-110 | In every reachable state at most one process is past the lock, and all open lock handles are on one inode |
| ProtocolTheorems.LockNeverLeaks | json_database/lock.py:95-110 | The lock is taken exactly when some live process holds it: deaths and releases always free it |
| ProtocolTheorems.Serializable | json_database/storage.py:90-95 | The path holds the replay of all commits in lock-acquisition order, and each commit wrote what its operation makes of exactly what its predecessors left |
| ProtocolTheorems.NoLostUpdates | json_database/storage.py:90-95 | Without a power loss the history of commits only grows |
| ProtocolTheorems.SuccessMeansCommitted | json_database/atomic.py:70-101 | A locked operation that has ended reports success if and only if its own commit is in the history |
| ProtocolTheorems.OnlyReplaceChangesPath | json_database/atomic.py:83-101 | No step but the rename changes what is at the path, and the rename replaces it by the operation's outcome |
| ProtocolTheorems.CrashSafe | json_database/atomic.py:70-86 | Whatever directory state and whatever garbage in unsynced files a power loss leaves, the path is as at first or holds exactly the bytes of one commit, none older than the last synced one |
| ProtocolTheorems.SyncedCommitsLast | json_database/atomic.py:118-130 | After a successful directory fsync, no later run with any failures undoes the commit |
| ProtocolTraces.UnsyncedCommitCanBeLost | json_database/atomic.py:118-130 | After a failed directory fsync the commit is acknowledged all the same, and a power loss can take it back |
| ProtocolTheorems.ReadsAreSnapshots | json_database/storage.py:279-289 | A read cut into exists, open and any number of partial reads returns one whole version that was current during the read |
| ProtocolTheorems.ReadsNeverGoBack | json_database/storage.py:62-82 | A process never reads an older version after a newer one, unless it dies or the power fails in between |
| ProtocolTheorems.InitNeverOverwrites | json_database/storage.py:84-88 | A non-forced init that commits is the first commit and found no file, so at most one does and none overwrites |
| ProtocolTraces.UnlinkingAdmitsTwoHolders | docs/adr/0009-lock-file-persists.md:17-28 | With a release that unlinks the lock file, the trace of the decision record leads to two holders on different inodes |
| AtomicWrites.Fill | json_database/atomic.py:74-78 | Writing in any number of pieces with other processes in between ends with the whole data synced, or with a failure and nothing committed |
| AtomicWrites.WriteTemp | json_database/atomic.py:70-78 | Up to the rename nothing is committed: the process ends with a synced temporary file of a free name holding the data, or with a failure exactly if a call failed |
| AtomicWrites.FreeName | json_database/atomic.py:71 | A name for the temporary file that the directory does not have is found, whatever is there |
| AtomicWrites.SyncDirectory | json_database/atomic.py:118-130 | Whether the directory fsync works or not, nothing else changes and the write counts as done |
| AtomicWrites.Publish | json_database/atomic.py:83-86 | The rename adds exactly this commit on top of the history, whether or not the directory fsync works |
| AtomicWrites.AtomicWrite | json_database/atomic.py:52-101 | With others running by any schedule: success leaves exactly the data at the path as one new commit, and is certain if no call before the directory fsync fails; a failing call leaves path and history as they were, as an OSError from mkdir and a StorageError from everything after it |
| Engines.Acquire | json_database/lock.py:67-93 | Ends holding the lock; or idle with no handle open, as an OSError if the lock file cannot be opened, or as a LockError while another process holds the lock |
| Engines.Release | json_database/lock.py:95-110 | Ends with the lock free and the handle closed, also when the unlock call fails and only the close frees the lock |
| Engines.ReadAll | json_database/storage.py:279-289 | Reading in pieces while others commit ends with the whole contents of one version |
| Engines.Load | json_database/storage.py:62-68 | What is returned is the contents of a version current during the call; only a file that is there and cannot be read is an error; while the lock is held nobody commits |
| Engines.Snapshot | json_database/storage.py:62-82 | A lock-free read of a readable file always returns, and returns the contents of a version no older than the last commit before the call |
| Engines.Update | json_database/storage.py:90-95 | Once it has the lock, it fails with the error of the load or the mutator, or commits what the mutator makes of the file the lock was obtained on, exactly once and as the very next commit, unless a call of the write fails; each failure has its error, a failing unlock has the last word, and the lock is free at the end |
| Engines.CreateEmpty | json_database/storage.py:84-88 | Once it has the lock, it refuses an existing file unless forced, and otherwise commits the empty database as the very next commit unless a call of the write fails |
| Machines.Machine.Others | json_database/lock.py:67-110 | Whatever steps the schedule has for this turn, other processes take them as far as they can; the process keeps its own state, the holder of the lock sees no commit, and published files stay as they are |
| Locks.PollsLeft | json_database/lock.py:76-93 | Before the deadline fewer polls than ceil(timeout / interval) can have been made |
| Locks.PositiveFiniteMeans | json_database/lock.py:15-22 | Exactly the positive finite booleans, integers and floats are accepted as times |
| Locks.FileLock.Make | json_database/lock.py:46-53 | A lock is made if and only if both times are positive and finite |
| Locks.FileLock.Acquire | json_database/lock.py:67-93 | Gets the lock if and only if it becomes free before the deadline, after at most ceil(timeout / interval) + 1 tries; a LockError comes only after a failed try at or past the deadline, with no handle left open |
| Locks.FileLock.Release | json_database/lock.py:95-110 | Lets go and closes even when the unlock call raises |
| JsonProofs.ParsePrinted | json_database/serializer.py:52-67 | Parsing any printed tree, in any of the three styles and before any suitable rest, gives back the tree and the rest |
| JsonProofs.LoadsDumps | json_database/serializer.py:52-67 | Loading a dumped tree gives the tree with its keys sorted |
| JsonProofs.DumpsInjective | json_database/serializer.py:94-101 | Each printer tells any two trees apart that differ in more than key order |
| JsonProofs.ArrayFormat | json_database/serializer.py:52-67 | Items of an array on lines of their own, or without any white space |
| JsonProofs.ObjectFormat | json_database/serializer.py:52-67 | The same for fields, with a space after the colon in the pretty text only |
| JsonProofs.IndentationIs | json_database/serializer.py:52-67 | Two spaces for each level in the pretty text, no line breaks in the others |
| JsonProofs.EscapesAre | json_database/serializer.py:52-67 | Which characters are escaped and how, and that other alphabets are left as they are |
| JsonGrammar.OnlySpaceAround | json_database/serializer.py:37-45 | Around a text there may be white space before and after, and anything else after it is refused |
| JsonGrammar.PlainIsRead | json_database/serializer.py:37-45 | Plain characters are read up to the closing quote, a control character among them is refused |
| JsonGrammar.EscapesAreRead | json_database/serializer.py:37-45 | Which letters follow a backslash and what they stand for; every other one is refused |
| JsonGrammar.CodesAreRead | json_database/serializer.py:37-45 | A hexadecimal code stands for its character, two halves of a pair for one; one half alone is refused |
| JsonGrammar.NumbersAreRead | json_database/serializer.py:37-45 | Every number of the grammar is read whole, as a float if and only if it has a fraction or an exponent |
| JsonGrammar.LeadingZeroIsRefused | json_database/serializer.py:37-45 | No digit follows a leading zero |
| JsonGrammar.WordsAreRead | json_database/serializer.py:37-45 | The three words of JSON and the three non-finite numbers that Python reads |
| SerializerProofs.RoundTrip | json_database/serializer.py:69-163 | Decoding what was encoded gives the same value with tuples outside sets turned into lists and the members of sets in some order |
| SerializerProofs.MemberRoundTrip | json_database/serializer.py:166-181 | A member of a set comes back exactly, nested tuples included |
| SerializerProofs.MembersApart | json_database/serializer.py:94-101 | Two members with one sort text are equal, so the sort key orders a set without ties |
| Canonical.NormalisedKeeps | json_database/serializer.py:113-181 | What decoding makes of a value denotes the same, has no tuples outside sets and can be stored again |
| CanonicalText.EncodeIsStable | json_database/serializer.py:69-111 | Encoding what was decoded gives the same tree again, and decoding that changes nothing more |
| CanonicalText.TextRoundTrip | json_database/serializer.py:37-67 | From value to text and back through the parser and the decoder, in any style, the value denotes the same |
| CanonicalText.SameMeaningSameTree | json_database/serializer.py:94-101 | Dict order, set order and list against tuple make no difference to the sorted tree |
| CanonicalText.CanonicalDumpIsMeaning | json_database/serializer.py:34-67 | Two storable values have the same canonical text if and only if they denote the same |
| CanonicalText.CanonicalTextIsALine | json_database/serializer.py:34-67 | The hashed text reads back as the sorted tree and ends its line |
| CanonicalText.DecodeImage | json_database/serializer.py:113-181 | Of any parsed file, what the decoder accepts has no envelope key, no bad set member, no tuple outside a set, and can be encoded unless a number is not finite |
| Encoding.Encode | json_database/serializer.py:69-111 | The encoding loops accept exactly the storable values and build the specified tree |
| Encoding.DecodeSet | json_database/serializer.py:155-163 | The decoding and coercing loop is one pass of decoding and one of coercing |
| StorageSteps.ValidateStateShape | json_database/storage.py:176-223 | The nested raising loops accept exactly the well-shaped states, and otherwise raise a DatabaseFormatError, or InvalidOperation from the version comparison |
| StorageSteps.ValidateRawDocumentFields | json_database/storage.py:149-174 | The raising loops over the parsed file accept exactly the specified trees |
| RawFiles.RawStateMeans | json_database/storage.py:149-174 | Raw validation accepts a file if and only if its collection names and ids are valid and no document holds the envelope key, an empty id, or inside an envelope with other fields |
| RawFiles.EnvelopeDecodesExactly | json_database/serializer.py:119-163 | An object with the envelope key decodes if and only if it is one of the five tags with a payload of the right type, and then as that value |
| RawFiles.CoerceMeans | json_database/serializer.py:166-181 | Lists become tuples at every depth, other hashable values stay, everything else is refused as a set member |
| RawFiles.DedupKeeps | json_database/serializer.py:155-163 | Every decoded member is in the set, or an equal one that came before it |
| StorageSteps.ComputeChecksum | json_database/storage.py:292-302 | The hash of the canonical text of the state with its checksum field nulled, or a SerializationError |
| StorageSteps.PrepareForCommit | json_database/storage.py:127-139 | What it returns is well shaped, carries its own checksum and has the collections it was given |
| StorageProofs.PreparedMetaIs | json_database/storage.py:127-135 | A prepared state differs from the given one in the time of the update, the checksum, and the time of creation if there was none, and in nothing else |
| StorageProofs.ShapeByMeaning | json_database/storage.py:176-223 | The shape check depends only on what a state denotes |
| StorageProofs.EncodedIsRaw | json_database/storage.py:254-276 | Raw validation never refuses the encoding of a storable document value |
| StorageProofs.CommitSucceeds | json_database/storage.py:122-147 | A well-shaped storable state is always committed |
| StorageProofs.CommitThenLoadClean | json_database/storage.py:62-82 | Committed bytes of a state without reserved keys pass all five stages of load, which returns what was prepared, up to dict and set order and with lists for tuples outside sets |
| LoadTheorems.CommitThenLoad | json_database/storage.py:62-139 | A committed state loads again if and only if no document id is the envelope key, and then as what was prepared, with lists for tuples outside sets |
| LoadTheorems.LoadedCanBeCommitted | json_database/storage.py:62-82 | Whatever load accepts can be committed again, and what load then returns denotes what was prepared from it |
| Integrity.CheckIntegrityRaises | json_database/storage.py:97-120 | check_integrity raises if and only if the version field is a signalling NaN in an otherwise readable file with the right format, and then InvalidOperation, or the file is admitted but holds a non-finite number, and then a SerializationError |
| Integrity.CheckIntegrityReports | json_database/storage.py:97-120 | Each report exactly: missing, unreadable, no database, corrupt with the stored and the recomputed checksum when they differ, and ok when they are equal |
| Integrity.EditIsReported | json_database/storage.py:104-113 | Unless two texts have one hash, an edit under an unchanged checksum is reported as corrupt, with both checksums, if and only if it changes what the file denotes |
| Integrity.SignallingVersionRaises | json_database/storage.py:184-191 | A concrete file of each signalling NaN that makes check_integrity raise InvalidOperation |
| LoadTheorems.EditIsDetected | json_database/storage.py:225-234 | A file edited under an unchanged checksum loads if and only if it denotes the same outside that field, or two texts with one hash are at hand; otherwise IntegrityError names both checksums |
| LoadTheorems.EmptyStateIsSound | json_database/storage.py:237-251 | The state of a missing file is sound and carries its own checksum |
| LoadTheorems.EmptyStateIs | json_database/storage.py:237-251 | It is a meta block of five fields stamped with the time, and no collections |
| DocumentProofs.WithDocumentsKeeps | json_database/collection.py:255-258 | Storing good documents in a validly named collection keeps everything the next commit needs |
| Store.ApplyRefines | json_database/collection.py:113-223 | Every operation, errors included, does to the nested dicts what the abstract one does to a map of maps, and keeps the state fit to be committed |
| Answers.AnswersExactly | json_database/collection.py:113-288 | Each operation succeeds, or raises the error, that the values in the request and the map of maps call for: what can be stored, which keys and ids are there, which names are valid |
| Answers.OtherIdIsRefused | json_database/collection.py:273-275 | replace and upsert raise ValidationError exactly if the body names another id or the collection name is invalid, and replace NotFoundError exactly if there is no such document |
| Answers.ValidDocumentIsFit | json_database/collection.py:226-252 | A document is valid if and only if it is a dict, everything in it can be stored, and no dict in it uses the envelope key |
| Errors.ValidNameMeans | json_database/collection.py:100-110 | A name is valid if and only if it consists of letters, digits, underscores and hyphens, but for one final newline, and does not begin with two underscores |
| Store.BulkUpdateIsUpdates | json_database/collection.py:203-223 | On an existing collection bulk_update succeeds if and only if every single update would, and then equals the updates one after the other, repeated ids included |
| Store.BulkInsertIsInserts | json_database/collection.py:187-200 | bulk_insert equals single inserts under the same ids, in effect and error, if and only if the list is not empty or the collection exists |
| CollectionOps.Process.DeepCopy | json_database/collection.py:113-126 | A deep copy denotes the same, reaches only new objects, changes no old one, and is one-to-one: shared objects stay shared and separate ones separate |
| DeepCopies.CopyOk | json_database/collection.py:113-149 | The recursive copy with a memo ends with a one-to-one map from the objects it met to new ones that match them part by part |
| DeepCopies.SharingIsKept | json_database/collection.py:113-149 | Two paths lead to one object in the copy if and only if they do in the original |
| DeepCopies.CopyApart | json_database/transaction.py:51 | What is separate in the original is separate in the copy, so the copy of a state is a state |
| CollectionOps.Process.EnsureCollection | json_database/collection.py:255-258 | Adds an empty collection in place if it is missing; nothing outside the state changes |
| CollectionOps.Process.StoreDocument | json_database/collection.py:117-121 | Stores a copy with the id set, owned by the state alone |
| CollectionOps.Process.Insert | json_database/collection.py:113-121 | In place: the specified new state, or the error and every object as it was |
| CollectionOps.Process.Upsert | json_database/collection.py:177-184 | The same for upsert |
| CollectionOps.Process.Lookup | json_database/collection.py:283-288 | The stored object itself, or the specified error |
| CollectionOps.Process.GetDocument | json_database/collection.py:124-126 | A copy of the stored object that shares nothing with the state, or the lookup error; no object changes |
| CollectionOps.Process.Update | json_database/collection.py:129-137 | The stored dict takes in copies of the updates, in place; the caller gets a copy of the result |
| CollectionOps.Process.Replace | json_database/collection.py:140-149 | The stored document is replaced by a copy; the caller gets another copy |
| CollectionOps.Process.Delete | json_database/collection.py:152-157 | The entry is gone; nothing else changes |
| CollectionOps.Process.All | json_database/collection.py:160-162 | Copies of all documents in order, sharing nothing with the state or with each other; none for a missing collection |
| CollectionOps.Process.Find | json_database/collection.py:165-168 | The copies of the documents that satisfy the criteria, in order, sharing nothing with the state, or the error of the evaluation |
| CollectionOps.Process.Dump | json_database/transaction.py:122-128 | A copy of the whole state that shares nothing with it |
| CollectionOps.Process.WorkingCopy | json_database/transaction.py:51 | The working copy of a transaction is a state of its own in new objects |
| CollectionOps.Process.BulkInsert | json_database/collection.py:187-200 | All documents are checked before the first is stored; on an error every object is as it was |
| CollectionOps.Process.BulkUpdate | json_database/collection.py:203-223 | All pairs are checked before the first merge; then the merges happen in list order, in place |
| Heaps.Framed | json_database/collection.py:113-149 | What an object denotes depends only on the objects it reaches |
| Heaps.NoCycle | json_database/collection.py:113-149 | An object that denotes a value is not among what its parts reach, so an in-place change of it leaves them alone |
| InPlace.CollectionReplaced | json_database/collection.py:255-270 | If only what one collection reaches has changed, the state is the one with those documents replaced |
| Isolation.CallerCannotInterfere | json_database/collection.py:113-223 | However a caller mixes the seven operations and get, all, find, where and dump with writes to any object it passed in, received or made, the state is what the operations alone make of it |
| Isolation.Make | json_database/collection.py:113-223 | Every operation, read and write on a state out of the caller's reach is such a move, and leaves the state out of reach: what a call hands out is proved apart from it, not assumed |
| Isolation.MoveKeepsIsolated | json_database/database.py:129-140 | A move leaves the state out of the caller's reach, and only an operation changes it |
| Isolation.ArgumentIsApart | json_database/collection.py:187-223 | What a caller can pass to an operation reaches no part of the state, as bulk_insert and bulk_update need |
| Isolation.Begin | json_database/transaction.py:45-56 | Loading a file and deep-copying it starts a transaction whose state is out of the caller's reach |
| Sessions.ApplyAllRefines | json_database/transaction.py:88-119 | Any sequence of operations on a working copy keeps it fit to be committed and acts on its content as on a map of maps |
| Sessions.SessionRoundTrip | json_database/storage.py:62-139 | Load, any operations, commit, load: the commit never fails, and the load returns the operations' effect unless a document has the reserved id, when it is a DatabaseFormatError |
| Sessions.ReservedIdBreaksLoad | json_database/collection.py:278-280 | After one successful operation the committed file loads if and only if the request did not name the envelope key as an id |
| Sessions.UpsertAcceptsReservedId | json_database/collection.py:177-184 | upsert accepts that id |
| Transactions.Engine.Update | json_database/storage.py:90-95 | The first call that fails decides the error and leaves the path alone; if none does, the path holds what the mutator made and the result is success; a failing unlock raises on top; the lock it took is free again |
| Transactions.Engine.CreateEmpty | json_database/storage.py:84-88 | A forced init, or one on a missing file, leaves an empty database unless a call fails; otherwise it is a StorageError |
| Transactions.UpdateActs | json_database/storage.py:90-95 | On a file that holds a database, an update ends as its operation does on the map of maps: with the operation's error, or with its result saved; on a broken file it is a DatabaseFormatError |
| Transactions.Transaction.Enter | json_database/transaction.py:45-62 | Nested entry is refused; otherwise it succeeds if and only if the lock comes free in time and the file loads, and after an error, a failing unlock included, the lock is not held |
| Transactions.Transaction.Exit | json_database/transaction.py:64-81 | Every exit ends the transaction and frees its lock; an exception leaves the path alone, a clean exit saves the content of the working copy unless a call fails, each with its error; a failing unlock raises after the commit and keeps the lock object |
| Transactions.Transaction.Operate | json_database/transaction.py:88-119 | An operation changes only the working copy; without an active transaction it is a TransactionError |
| Transactions.Database.ReadState | json_database/database.py:129-140 | Inside a transaction what its operations so far make of the state it began with, whatever is at the path by now; otherwise the database the file holds, or the format error if it is broken |
| Transactions.Database.Write | json_database/database.py:175-178 | Refused inside a transaction; otherwise it succeeds and saves the operation's effect on the database in the file if the operation succeeds and no call fails, and else raises the error of the operation or the call |
| Transactions.Database.Exit | json_database/database.py:63-93 | An open transaction is rolled back and its lock freed; that is an error unless an exception is passing |
| Transactions.RunTransaction | json_database/transaction.py:27-37 | Enter, any operations and a clean exit save the effect of all of them and succeed, unless a call fails, with its error |
| Lifecycles.EnterKeeps | json_database/transaction.py:45-62 | Active mark, working copy and lock stay in step over an enter |
| Lifecycles.ExitKeeps | json_database/transaction.py:64-81 | They stay in step over an exit if and only if the transaction is the active one or none is |
| Lifecycles.CloseKeeps | json_database/database.py:63-93 | They stay in step when the database is closed, which leaves no transaction active and the file unchanged |
| Lifecycles.Play | json_database/transaction.py:45-81 | Over any sequence of calls, reads and closings with matched enter and exit, failing unlocks included, they stay in step |
| Query.MatchesOperators | json_database/query.py:67-113 | The early-exit loop computes the specified result |
| Query.Matches | json_database/query.py:15-30 | The early-exit loop over fields computes the specified result |
| Query.FilterDocuments | json_database/query.py:33-37 | Exactly the documents that satisfy the criteria, in order, each taken once, unless evaluating the empty document or one of them raises, when it raises the first such error |
| Query.RunPredicate | json_database/query.py:40-50 | Exactly the documents the callable accepts, in the order of the list, each taken once; a QueryError if and only if the callable raises on one |
| Query.MatchedIsSatisfied | json_database/query.py:15-30 | Any answer the evaluator gives is the order-free conjunction of all conditions, read or unread |
| Query.MatchedRaises | json_database/query.py:15-113 | Evaluation raises if and only if some field raises and all fields before it hold, and it raises that field's error |
| Query.WellFormedIsNeverRefused | json_database/query.py:33-37 | Well-formed criteria that hold no NaN and in which no $contains asks for an integer that is no byte never raise on documents that can be stored |
| Query.OpRaisesExactly | json_database/query.py:67-120 | For each operator and any two values that are no containers, exactly when it raises and what: QueryError, InvalidOperation or ValueError |
| Query.TameCriteriaRaiseQueryErrors | json_database/query.py:15-30 | Criteria that hold no NaN and in which no $contains asks for an integer that is no byte raise nothing but QueryError on documents that can be stored, and only if malformed |
| Query.SignallingNanEscapes | json_database/query.py:28-29 | A signalling NaN in the criteria makes find raise InvalidOperation on any document with a number in that field |
| Query.MalformedCanGoUnnoticed | json_database/query.py:33-37 | Malformed criteria that are not refused |
| Query.KeptExactly | json_database/query.py:33-37 | Each document is kept as often as it occurs if it satisfies the criteria, and never otherwise |
| Query.OrderDoesNotMatter | json_database/query.py:20-30 | Reordering fields, or operators within a field, does not change what criteria mean |
| Query.Complements | json_database/query.py:67-91 | On every document $ne, $nin and $exists false are the complements of $eq, $in and $exists true |
| Comparisons.IntegersCompare | json_database/query.py:78-101 | The six comparing operators on integers are the six comparisons |
| Comparisons.NumbersCompare | json_database/query.py:78-120 | On any two finite numbers, whatever their types, the operators compare the values |
| Comparisons.MixedNumbersCompare | json_database/query.py:78-120 | Booleans count as 0 and 1, floats and Decimals by value |
| Comparisons.InfinitiesCompare | json_database/query.py:92-120 | The infinities are beyond every number |
| Comparisons.NanCompares | json_database/query.py:78-120 | A float that is no number is unequal to itself and compares with nothing |
| Comparisons.StringsCompare | json_database/query.py:92-120 | The first character that differs decides, and then the length |
| Comparisons.ScalarsCompare | json_database/query.py:92-120 | Dates, datetimes and bytes compare as the platform does, with their own kind only |
| Comparisons.TypesDoNotMix | json_database/query.py:116-120 | Values of different types are unequal and no ordering holds between them |
| Comparisons.FirstDifferenceDecides | json_database/query.py:94-120 | On lists and tuples the first unequal pair decides |
| Comparisons.LengthDecides | json_database/query.py:94-120 | Without one the longer list is the greater |
| Comparisons.EqualItems | json_database/query.py:92-93 | Lists and tuples are equal item by item |
| Comparisons.EqualFields | json_database/query.py:92-93 | Dicts are equal if and only if they have the same keys and equal values, in any order |
| Comparisons.SetsCompare | json_database/query.py:92-120 | Sets compare by inclusion, strictly or not, and are equal if each includes the other |
| Comparisons.InMeansEqual | json_database/query.py:83-106 | $in asks for an equal item of the list, and $nin for none |
| Comparisons.ContainsSubstring | json_database/query.py:107-112 | $contains finds exactly the substrings of a string |
| Comparisons.ContainsItem | json_database/query.py:107-112 | $contains finds an equal item of a list, tuple or set, and a key of a dict |
| Comparisons.ContainsBytes | json_database/query.py:107-112 | $contains finds a byte or a run of bytes, and nothing in other values |
| Comparisons.ExistsIs | json_database/query.py:74-77 | $exists holds if and only if the field is there and the argument is true, or is not and the argument is one of the values that Python counts as false |
| Comparisons.FieldDecides | json_database/query.py:23-91 | Only the value of the field counts, and a missing field is unequal to everything and in no list |
| Comparisons.PlainFieldIsEquality | json_database/query.py:28-29 | A field without operators asks for equality |
| Comparisons.MixedIsRefused | json_database/query.py:53-64 | Operators mixed with other keys are a QueryError |
| Comparisons.UnknownIsRefused | json_database/query.py:67-71 | An unsupported operator is a QueryError |
| Comparisons.ListsRaise | json_database/query.py:92-93 | Comparing lists raises if and only if they have one length and some pair raises after only equal ones |
| Comparisons.DictsRaise | json_database/query.py:92-93 | The same for the fields of a dict, in its order |
| Comparisons.AtomsRaise | json_database/query.py:92-93 | Between other values equality raises if and only if both are numbers and one is a signalling NaN |
| Comparisons.OrderingAsks | json_database/query.py:94-120 | Ordering lists raises if comparing the first pair that is not equal raises, and answers what that pair or the lengths answer otherwise |
| Comparisons.NoByteIsRefused | json_database/query.py:107-112 | $contains on bytes raises ValueError if and only if the integer is no byte |

## Left out

- `cli.py`, `scripts/demo.py`, argument parsing, exit codes, printing, error-message texts and the JSON Schema files: user interface over the library.
- Windows: `msvcrt` locks, the lock byte, and the retries on PermissionError, which run once on POSIX.
- File modes and `chmod`; the randomness of temporary file names and the limit on how many `mkstemp` draws; `os.close` failing after the rename.
- KeyboardInterrupt at arbitrary points, threads that share one database object, recursion depth, cyclic documents and digit limits on integers.
- The UTF-8 encoding itself: a file is a text or bytes that are no UTF-8 text, and lone surrogates are not strings of the model.
- UUID randomness: new ids are parameters, and need be neither new nor distinct for the results.
- Host.Py: `repr` of floats, Decimal text, ISO dates, base64 and SHA-256 are unknown functions that meet `Host.Lawful`; two datetimes with one ISO text are one value.
- Values.PyEq: equality of dates, datetimes and bytes is by an unknown equivalence; containers and `in` compare members by value alone, where Python first asks whether they are the same object; `Other` stands for frozensets, dicts with keys that are not strings, and unknown objects, and equals nothing.
- Query.Operators: criteria with keys that are not strings are refused at once, and not when their turn comes.
- Query.RunPredicate: a callable answers or raises; what it may do to the copies it is given is in `Isolation`.
- Locks.FileLock.Acquire: sleeping at least as long as asked for is an assumption on the clock; `mkdir` and `open` failing are one case.
- Protocol.StepBegin: an operation is given when it begins, although a transaction's is only known when it exits; until the commit no step depends on it.
- Protocol.StepReadEnd: the version number a read is labelled with is bookkeeping, and no step depends on it.
- Machines.Machine.Others: the process whose code runs does not die in between and the power does not fail; `Protocol` has both at every step.
- Engines.Update: the operation's mutator works on file contents; load and commit inside it are the functions of `Storage`.
- Transactions.Transaction.Operate: works on values; `CollectionOps` has the same operations on objects in memory, and `Isolation` the aliasing.
- Transactions.Database.ReadState: on values, like `Operate`; the copy it makes of a transaction's state is `CollectionOps.Process.Dump`.
- Transactions.Engine.Update: other processes act between calls only (`Lifecycles.Elsewhere`); their interleaving within calls is in `Engines` and `Protocol`.
- CollectionOps.Process.BulkInsert: requires that the list passed in reaches no part of the state; `Isolation.ArgumentIsApart` derives that for every caller, and `Isolation.Make` calls it so.
- `meta` and `collections`: parts of what `Dump` returns.
- DeepCopies.Copy: the memo is filled once the parts of an object have been copied, where Python fills it before; that differs for cyclic objects only. Objects with a `__deepcopy__` of their own are no values of the model.
