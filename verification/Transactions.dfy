/** json_database/transaction.py and database.py: the life of a transaction, and which state a call reads and writes. */
module Transactions {
  import opened Wrappers
  import opened Values
  import opened Errors
  import opened Storage
  import opened Documents
  import opened DocumentProofs
  import opened Store
  import opened Sessions
  import opened Locks
  import Protocol

  type Contents = Protocol.Contents

  /** What the world does during one call: waiting for the lock, the clock, and which system calls fail. */
  datatype Env = Env(
    wait: Wait, now: Value, readable: bool, makesDirectory: bool, writable: bool, unlockFails: bool)

  function Found(c: Contents, readable: bool): Disk {
    match c
    case None => Disk.Missing
    case Some(text) => if readable then Text(text) else Unreadable
  }

  lemma ReadingHolds(c: Contents, env: Env)
    ensures env.readable && GoodTime(env.now) ==>
      forall base :: Holds(c, base) ==>
        var r := Load(Found(c, true), env.now);
        && (r.Ok? <==> base.Fine?) && (r.Ok? ==> Content(r.value) == base.db)
        && (r.Err? ==> r.error == DatabaseFormatError)
  {
    hide Load, Holds, GoodTime, Content;
    if env.readable && GoodTime(env.now) {
      forall base | Holds(c, base)
        ensures var r := Load(Found(c, true), env.now);
          && (r.Ok? <==> base.Fine?) && (r.Ok? ==> Content(r.value) == base.db)
          && (r.Err? ==> r.error == DatabaseFormatError)
      {
        HoldsLoads(c, base, env.now);
      }
    }
  }

  /** The result of a commit, and what the path holds after it. */
  function Committing(state: Value, c: Contents, env: Env): (Result<(), DbError>, Contents) {
    match Commit(state, env.now)
    case Err(e) => (Err(e), c)
    case Ok(text) =>
      if !env.makesDirectory then (Err(OsError), c)
      else if env.writable then (Ok(()), Some(text))
      else (Err(StorageError), c)
  }

  /** `update` with a mutator: the result, and what the path holds after it. */
  ghost function Updating(
      c: Contents, mutate: Value -> Result<Value, DbError>, timeout: real, opening: Env, closing: Env)
    : (Result<(), DbError>, Contents)
  {
    if !FreeInTime(opening.wait, timeout) then (Err(AcquireError(opening.wait)), c)
    else match Load(Found(c, opening.readable), opening.now)
      case Err(e) => (Unlocking(Err(e), opening.unlockFails), c)
      case Ok(state) =>
        match mutate(state)
        case Err(e) => (Unlocking(Err(e), closing.unlockFails), c)
        case Ok(s) =>
          var (r, path) := Committing(s, c, closing);
          (Unlocking(r, closing.unlockFails), path)
  }

  // ---------- How a write ends ----------

  /** An error, and the path as it was. */
  ghost predicate Fails(
      e: DbError, unlockFails: bool, c: Contents, r: Result<(), DbError>, path: Contents)
  {
    r == Err(if unlockFails then OsError else e) && path == c
  }

  /** The path holds this database, unless making its directory or writing it fails. */
  ghost predicate Saves(
      db: Collected, env: Env, unlockFails: bool, c: Contents, r: Result<(), DbError>, path: Contents)
  {
    if !env.makesDirectory then Fails(OsError, unlockFails, c, r, path)
    else if !env.writable then Fails(StorageError, unlockFails, c, r, path)
    else Holds(path, After(db)) && (if unlockFails then r == Err(OsError) else r.Ok?)
  }

  /** Getting the lock fails. */
  ghost predicate NoLock(w: Wait, timeout: real, c: Contents, r: Result<(), DbError>, path: Contents) {
    path == c && r == Err(if w.opens then LockError else OsError) && (w.opens ==> forall i :: !FreeAt(w, timeout, i))
  }

  /** `update` with any mutator: the first call that fails decides, and without one the new state is saved. */
  ghost predicate UpdateEnds(
      mutate: Value -> Result<Value, DbError>, timeout: real, opening: Env, closing: Env,
      c: Contents, r: Result<(), DbError>, path: Contents)
  {
    NoLock(opening.wait, timeout, c, r, path) ||
    (&& opening.wait.opens && (exists i :: FreeAt(opening.wait, timeout, i))
     && match Load(Found(c, opening.readable), opening.now)
        case Err(e) => Fails(e, opening.unlockFails, c, r, path)
        case Ok(state) =>
          match mutate(state)
          case Err(e) => Fails(e, closing.unlockFails, c, r, path)
          case Ok(s) =>
            Committable(s) && GoodTime(closing.now) ==> Saves(Content(s), closing, closing.unlockFails, c, r, path))
  }

  /** An operation on the database that the path holds. */
  ghost predicate Ends(
      base: Base, act: Collected -> Result<Collected, DbError>, timeout: real, opening: Env, closing: Env,
      c: Contents, r: Result<(), DbError>, path: Contents)
  {
    NoLock(opening.wait, timeout, c, r, path) ||
    (&& opening.wait.opens && (exists i :: FreeAt(opening.wait, timeout, i))
     && if c.Some? && !opening.readable then Fails(StorageError, opening.unlockFails, c, r, path)
        else match base
          case Broken => Fails(DatabaseFormatError, opening.unlockFails, c, r, path)
          case Fine(db) =>
            match act(db)
            case Err(e) => Fails(e, closing.unlockFails, c, r, path)
            case Ok(d) => Saves(d, closing, closing.unlockFails, c, r, path))
  }

  /** `create_empty`: refuses to replace a database unless forced. */
  ghost predicate InitEnds(
      force: bool, timeout: real, opening: Env, closing: Env, c: Contents, r: Result<(), DbError>, path: Contents)
  {
    NoLock(opening.wait, timeout, c, r, path) ||
    (&& opening.wait.opens && (exists i :: FreeAt(opening.wait, timeout, i))
     && if c.Some? && !force then Fails(StorageError, closing.unlockFails, c, r, path)
        else Saves(map[], closing, closing.unlockFails, c, r, path))
  }

  /** The mutator does to a state fit to be committed what `act` does to its content, and keeps it fit. */
  ghost predicate Mirrors(mutate: Value -> Result<Value, DbError>, act: Collected -> Result<Collected, DbError>) {
    forall s :: Committable(s) ==>
      match mutate(s)
      case Err(e) => act(Content(s)) == Err(e)
      case Ok(t) => Committable(t) && act(Content(s)) == Ok(Content(t))
  }

  lemma CommittingSaves(state: Value, c: Contents, env: Env, unlockFails: bool)
    requires Committable(state) && GoodTime(env.now)
    ensures var (r, path) := Committing(state, c, env);
      Saves(Content(state), env, unlockFails, c, Unlocking(r, unlockFails), path)
  {
    hide Commit, Holds, Committable, GoodTime, After, Content;
    CommitHolds(state, env.now);
  }

  lemma UpdatingEnds(
      c: Contents, mutate: Value -> Result<Value, DbError>, timeout: real, opening: Env, closing: Env)
    ensures var (r, path) := Updating(c, mutate, timeout, opening, closing);
      UpdateEnds(mutate, timeout, opening, closing, c, r, path)
  {
    hide Load, Found, Committing, Committable, Holds, GoodTime, After, Content, Saves, FreeAt;
    var loaded := Load(Found(c, opening.readable), opening.now);
    if loaded.Ok? {
      var mutated := mutate(loaded.value);
      if mutated.Ok? && Committable(mutated.value) && GoodTime(closing.now) {
        CommittingSaves(mutated.value, c, closing, closing.unlockFails);
      }
    }
  }

  lemma ReadingFails(c: Contents, readable: bool, now: Value)
    ensures c.Some? && !readable ==> Load(Found(c, readable), now) == Err(StorageError)
    ensures c.None? || readable ==> Found(c, readable) == DiskOf(c)
  {
  }

  /** So an operation on the file ends as it does on the database that the file holds. */
  lemma UpdateActs(
      c: Contents, base: Base, mutate: Value -> Result<Value, DbError>, act: Collected -> Result<Collected, DbError>,
      timeout: real, opening: Env, closing: Env, r: Result<(), DbError>, path: Contents)
    requires UpdateEnds(mutate, timeout, opening, closing, c, r, path)
    requires Holds(c, base) && Mirrors(mutate, act) && GoodTime(opening.now) && GoodTime(closing.now)
    ensures Ends(base, act, timeout, opening, closing, c, r, path)
  {
    hide Load, Found, Committable, Holds, GoodTime, After, Content, Saves, FreeAt;
    ReadingFails(c, opening.readable, opening.now);
    if c.None? || opening.readable {
      HoldsLoads(c, base, opening.now);
      if base.Fine? {
        SoundIsCommittable(Load(DiskOf(c), opening.now).value);
      }
    }
  }

  lemma EveryBaseEnds(
      c: Contents, mutate: Value -> Result<Value, DbError>, act: Collected -> Result<Collected, DbError>,
      timeout: real, opening: Env, closing: Env, r: Result<(), DbError>, path: Contents)
    requires UpdateEnds(mutate, timeout, opening, closing, c, r, path)
    requires Mirrors(mutate, act) && GoodTime(opening.now) && GoodTime(closing.now)
    ensures forall base :: Holds(c, base) ==> Ends(base, act, timeout, opening, closing, c, r, path)
  {
    hide UpdateEnds, Mirrors, GoodTime, Holds, Ends;
    forall base | Holds(c, base) ensures Ends(base, act, timeout, opening, closing, c, r, path) {
      UpdateActs(c, base, mutate, act, timeout, opening, closing, r, path);
    }
  }

  lemma EmptyIsFit(now: Value)
    ensures GoodTime(now) ==> Committable(EmptyState(now)) && Content(EmptyState(now)) == map[]
  {
    if GoodTime(now) {
      EmptyHoldsNothing(now);
      SoundIsCommittable(EmptyState(now));
    }
  }

  /** The unlock call has the last word. */
  lemma SavesUnlocked(
      db: Collected, env: Env, unlockFails: bool, c: Contents, r: Result<(), DbError>, r': Result<(), DbError>,
      path: Contents)
    requires Saves(db, env, false, c, r, path) && r' == Unlocking(r, unlockFails)
    ensures Saves(db, env, unlockFails, c, r', path)
  {
    hide Holds, After;
  }

  lemma RequestMirrors(request: Request)
    requires GoodRequest(request)
    ensures Mirrors(s => Documents.Apply(s, request), d => Act(d, request))
  {
    hide Documents.Apply, Committable, Content, Act;
    forall s | Committable(s)
      ensures match Documents.Apply(s, request)
        case Err(e) => Act(Content(s), request) == Err(e)
        case Ok(t) => Committable(t) && Act(Content(s), request) == Ok(Content(t))
    {
      ApplyRefines(s, request);
    }
  }

  lemma RequestsMirror(rs: seq<Request>)
    requires GoodRequests(rs)
    ensures Mirrors(s => Ok(ApplyAll(s, rs)), d => Ok(ActAll(d, rs)))
  {
    hide ApplyAll, Committable, Content, ActAll;
    forall s | Committable(s)
      ensures Committable(ApplyAll(s, rs)) && ActAll(Content(s), rs) == Content(ApplyAll(s, rs))
    {
      ApplyAllRefines(s, rs);
    }
  }

  /** The file of a database; other processes may change `path` while the lock is free. */
  class Engine {
    const timeout: Value
    const poll: Value
    var path: Contents

    ghost predicate Valid() {
      PositiveFinite(timeout) && PositiveFinite(poll)
    }

    constructor (timeout: Value, poll: Value, path: Contents)
      requires PositiveFinite(timeout) && PositiveFinite(poll)
      ensures Valid() && this.timeout == timeout && this.poll == poll && this.path == path
    {
      this.timeout, this.poll, this.path := timeout, poll, path;
    }

    method CommitUnlocked(state: Value, env: Env) returns (r: Result<(), DbError>)
      modifies this
      ensures (r, path) == Committing(state, old(path), env)
      ensures Committable(state) && GoodTime(env.now) ==> Saves(Content(state), env, false, old(path), r, path)
    {
      if Committable(state) && GoodTime(env.now) {
        CommittingSaves(state, path, env, false);
      }
      hide Commit, Holds, Committable, GoodTime, After, Content, Saves;
      var data :- Commit(state, env.now);
      if !env.makesDirectory {
        return Err(OsError);
      }
      if !env.writable {
        return Err(StorageError);
      }
      path := Some(data);
      r := Ok(());
    }

    /** `update`. The lock it took is free again however it ends. */
    method Update(mutate: Value -> Result<Value, DbError>, opening: Env, closing: Env)
      returns (r: Result<(), DbError>, lock: FileLock)
      requires Valid() && Ticks(opening.wait, Seconds(poll))
      modifies this
      ensures (r, path) == Updating(old(path), mutate, Seconds(timeout), opening, closing)
      ensures UpdateEnds(mutate, Seconds(timeout), opening, closing, old(path), r, path)
      ensures fresh(lock) && !lock.locked && !lock.file
    {
      hide UpdateEnds;
      UpdatingEnds(path, mutate, Seconds(timeout), opening, closing);
      lock := new FileLock(timeout, poll);
      var got, _ := lock.Acquire(opening.wait);
      if got.Err? {
        return Err(got.error), lock;
      }
      var loaded := Load(Found(path, opening.readable), opening.now);
      if loaded.Err? {
        r := Err(loaded.error);
      } else {
        var mutated := mutate(loaded.value);
        if mutated.Err? {
          r := Err(mutated.error);
        } else {
          r := CommitUnlocked(mutated.value, closing);
        }
      }
      var raised := lock.Release(if loaded.Err? then opening.unlockFails else closing.unlockFails);
      if raised {
        r := Err(OsError);
      }
    }

    /** `create_empty`. */
    method CreateEmpty(force: bool, opening: Env, closing: Env) returns (r: Result<(), DbError>, lock: FileLock)
      requires Valid() && Ticks(opening.wait, Seconds(poll))
      modifies this
      ensures GoodTime(opening.now) && GoodTime(closing.now) ==>
        InitEnds(force, Seconds(timeout), opening, closing, old(path), r, path)
      ensures fresh(lock) && !lock.locked && !lock.file
    {
      hide EmptyState, Committing, Committable, GoodTime, Holds, Content, Saves, Ticks, Seconds, PositiveFinite;
      lock := new FileLock(timeout, poll);
      var got, _ := lock.Acquire(opening.wait);
      if got.Err? {
        return Err(got.error), lock;
      }
      ghost var was := path;
      if path.Some? && !force {
        r := Err(StorageError);
      } else {
        EmptyIsFit(opening.now);
        r := CommitUnlocked(EmptyState(opening.now), closing);
        if GoodTime(opening.now) && GoodTime(closing.now) {
          SavesUnlocked(
            map[], closing, closing.unlockFails, was, r, Unlocking(r, closing.unlockFails), path);
        }
      }
      var raised := lock.Release(closing.unlockFails);
      if raised {
        r := Err(OsError);
      }
    }
  }

  class Database {
    const engine: Engine
    var active: Transaction?

    constructor (engine: Engine)
      ensures this.engine == engine && active == null
    {
      this.engine, active := engine, null;
    }

    /**
      `_read_state`: inside a transaction what its operations so far make of the
      state it began with, whatever is at the path by now; otherwise what the
      file holds.
     */
    method ReadState(env: Env) returns (r: Result<Value, DbError>)
      requires active != null ==> active.Tracks()
      ensures active != null && active.Open() ==> r == Ok(ApplyAll(active.loaded, active.done))
      ensures active != null && !active.Open() ==> r == Err(TransactionError)
      ensures active == null && env.readable && GoodTime(env.now) ==>
        forall base :: Holds(engine.path, base) ==>
          && (r.Ok? <==> base.Fine?) && (r.Ok? ==> Content(r.value) == base.db)
          && (r.Err? ==> r.error == DatabaseFormatError)
      ensures active == null && engine.path.Some? && !env.readable ==> r == Err(StorageError)
    {
      if active != null {
        if !active.Open() {
          return Err(TransactionError);
        }
        return Ok(active.state.value);
      }
      r := Load(Found(engine.path, env.readable), env.now);
      ReadingHolds(engine.path, env);
    }

    /** `_write`: refused inside a transaction, otherwise one `update`. */
    method Write(request: Request, opening: Env, closing: Env) returns (r: Result<(), DbError>)
      requires engine.Valid() && Ticks(opening.wait, Seconds(engine.poll))
      modifies engine
      ensures (r, engine.path) ==
        if active != null then (Err(TransactionError), old(engine.path))
        else Updating(old(engine.path), s => Documents.Apply(s, request), Seconds(engine.timeout), opening, closing)
      ensures active == null && GoodRequest(request) && GoodTime(opening.now) && GoodTime(closing.now) ==>
        forall base :: Holds(old(engine.path), base) ==>
          Ends(base, d => Act(d, request), Seconds(engine.timeout), opening, closing, old(engine.path), r, engine.path)
    {
      hide UpdateEnds, Updating, Ends, Holds, GoodTime, GoodRequest, Mirrors, Seconds;
      if active != null {
        return Err(TransactionError);
      }
      ghost var was := engine.path;
      var written, _ := engine.Update(s => Documents.Apply(s, request), opening, closing);
      r := written;
      if GoodRequest(request) && GoodTime(opening.now) && GoodTime(closing.now) {
        RequestMirrors(request);
        EveryBaseEnds(
          was, s => Documents.Apply(s, request), d => Act(d, request), Seconds(engine.timeout), opening, closing, r,
          engine.path);
      }
    }

    /**
      `__exit__`: a transaction left open is rolled back; that is an error
      unless another exception is already passing.
     */
    method Exit(raising: bool, env: Env) returns (r: Result<(), DbError>)
      modifies this, engine, active, if active != null then {active.database, active.database.engine} else {}
      modifies if active != null && active.lock != null then {active.lock} else {}
      ensures old(active) == null ==> r == Ok(()) && active == null && engine.path == old(engine.path)
      ensures old(active) != null && old(active).database == this ==>
        && active == null && engine.path == old(engine.path)
        && !old(active).active && old(active).state == None
        && old(active).lock ==
          (if env.unlockFails && old(active.Holding() && active.lock.file) then old(active.lock) else null)
        && r == (if raising then Ok(()) else Err(TransactionError))
        && (old(active.lock) != null ==>
              !old(active.lock).file && old(active.lock).locked == (old(active.lock.locked) && !old(active.lock.file)))
    {
      if active == null {
        return Ok(());
      }
      var _ := active.Exit(true, env);
      r := if raising then Ok(()) else Err(TransactionError);
    }
  }

  class Transaction {
    const database: Database
    var state: Option<Value>
    var lock: FileLock?
    var active: bool
    /** The state it began with, and the operations made since. */
    ghost var loaded: Value
    ghost var done: seq<Request>

    constructor (database: Database)
      ensures this.database == database && state == None && lock == null && !active && Tracks()
    {
      this.database := database;
      state, lock, active := None, null, false;
      loaded, done := Null, [];
    }

    ghost predicate Tracks()
      reads this
    {
      Open() ==> state == Some(ApplyAll(loaded, done))
    }

    predicate Holding()
      reads this, lock
    {
      lock != null && lock.locked
    }

    /** `__enter__`: on any error the lock is not held and nothing has begun. */
    method Enter(env: Env) returns (r: Result<(), DbError>)
      requires database.engine.Valid() && Ticks(env.wait, Seconds(database.engine.poll))
      modifies this, database
      ensures old(database.active) != null ==>
        r == Err(TransactionError) && database.active == old(database.active)
        && (active, state, lock) == old((active, state, lock))
      ensures old(database.active) == null ==>
        && r == (if !FreeInTime(env.wait, Seconds(database.engine.timeout)) then Err(AcquireError(env.wait))
                 else match Load(Found(database.engine.path, env.readable), env.now)
                   case Err(e) => Unlocking(Err(e), env.unlockFails)
                   case Ok(_) => Ok(()))
        && (if r.Ok? then
              && database.active == this && active && lock != null && fresh(lock) && Holding() && lock.file
              && Load(Found(database.engine.path, env.readable), env.now) == Ok(loaded)
              && state == Some(loaded) && done == []
            else
              && database.active == null && active == old(active) && state == old(state)
              && !Holding() && (lock != null ==> fresh(lock)))
      ensures old(Tracks()) ==> Tracks()
    {
      hide Load, FreeInTime, Ticks, Found, ApplyAll, PositiveFinite, Seconds;
      if database.active != null {
        return Err(TransactionError);
      }
      var l := new FileLock(database.engine.timeout, database.engine.poll);
      lock := l;
      var got, _ := l.Acquire(env.wait);
      if got.Err? {
        return Err(got.error);
      }
      var fromFile := Load(Found(database.engine.path, env.readable), env.now);
      if fromFile.Err? {
        var raised := l.Release(env.unlockFails);
        if raised {
          return Err(OsError);
        }
        lock := null;
        return Err(fromFile.error);
      }
      ApplyNone(fromFile.value);
      state := Some(fromFile.value);
      loaded, done := fromFile.value, [];
      database.active := this;
      active := true;
      r := Ok(());
    }

    /** `_ensure_active` does not raise. */
    predicate Open()
      reads this
    {
      active && state.Some?
    }

    /**
      `__exit__`: commits unless an exception is passing, and on every path ends
      the transaction and lets go of the lock. If the unlock call fails, its
      error is raised, after the commit, and the lock object is kept.
     */
    method Exit(raising: bool, env: Env) returns (r: Result<(), DbError>)
      modifies this, database, database.engine, lock
      ensures !active && state == None && database.active == null
      ensures var fails := env.unlockFails && old(Holding() && lock.file);
        && lock == (if fails then old(lock) else null)
        && (r, database.engine.path) ==
          if raising then (Unlocking(Ok(()), fails), old(database.engine.path))
          else if !old(Open()) then (Unlocking(Err(TransactionError), fails), old(database.engine.path))
          else
            var (committed, path) := Committing(old(state).value, old(database.engine.path), env);
            (Unlocking(committed, fails), path)
      ensures old(lock) != null ==>
        !old(lock).file && old(lock).locked == (old(lock.locked) && !old(lock.file))
      ensures !raising && old(Open()) && Committable(old(state).value) && GoodTime(env.now) ==>
        Saves(Content(old(state).value), env, env.unlockFails && old(Holding() && lock.file),
              old(database.engine.path), r, database.engine.path)
    {
      hide Committing, Holds, Committable, GoodTime, After, Content;
      r := Ok(());
      if !raising {
        if !Open() {
          r := Err(TransactionError);
        } else {
          r := database.engine.CommitUnlocked(state.value, env);
        }
      }
      active := false;
      state := None;
      database.active := null;
      if lock != null {
        var raised := lock.Release(env.unlockFails);
        if raised {
          return Err(OsError);
        }
        lock := null;
      }
    }

    /** An operation on a collection of the transaction works on its own copy of the state. */
    method Operate(request: Request) returns (r: Result<(), DbError>)
      modifies this`state, this`done
      ensures !old(Open()) ==> r == Err(TransactionError) && state == old(state)
      ensures old(Open()) ==>
        && Open() && state == Some(Applied(old(state).value, request)) && done == old(done) + [request]
        && r == Documents.Apply(old(state).value, request).Map(_ => ())
      ensures old(Tracks()) ==> Tracks()
    {
      hide ApplyAll;
      if !Open() {
        return Err(TransactionError);
      }
      ApplyAllOneMore(loaded, done, request);
      done := done + [request];
      match Documents.Apply(state.value, request) {
        case Ok(s) =>
          state := Some(s);
          r := Ok(());
        case Err(e) =>
          r := Err(e);
      }
    }
  }

  // ---------- A clean transaction is one update ----------

  method OperateAll(tx: Transaction, rs: seq<Request>)
    requires tx.Open() && tx.Tracks()
    modifies tx`state, tx`done
    ensures tx.Open() && tx.Tracks() && tx.done == old(tx.done) + rs
  {
    hide Documents.Apply, Applied, ApplyAll;
    var i := 0;
    while i < |rs|
      invariant 0 <= i <= |rs| && tx.Open() && tx.Tracks() && tx.done == old(tx.done) + rs[..i]
    {
      assert rs[..i + 1] == rs[..i] + [rs[i]];
      var _ := tx.Operate(rs[i]);
      i := i + 1;
    }
    assert rs[..i] == rs;
  }

  /** Entering, any operations with their errors caught, and a clean exit: one `update` with them all as its mutator. */
  method RunTransaction(db: Database, rs: seq<Request>, opening: Env, closing: Env) returns (r: Result<(), DbError>)
    requires db.engine.Valid() && Ticks(opening.wait, Seconds(db.engine.poll)) && db.active == null
    modifies db, db.engine
    ensures (r, db.engine.path) ==
      Updating(old(db.engine.path), s => Ok(ApplyAll(s, rs)), Seconds(db.engine.timeout), opening, closing)
    ensures GoodRequests(rs) && GoodTime(opening.now) && GoodTime(closing.now) ==>
      forall base :: Holds(old(db.engine.path), base) ==>
        Ends(base, d => Ok(ActAll(d, rs)), Seconds(db.engine.timeout), opening, closing, old(db.engine.path), r,
             db.engine.path)
    ensures db.active == null
  {
    ghost var was := db.engine.path;
    r := EnterAndExit(db, rs, opening, closing);
    hide Updating, UpdateEnds, Ends, Holds, GoodTime, GoodRequests, Mirrors, Seconds, PositiveFinite;
    UpdatingEnds(was, s => Ok(ApplyAll(s, rs)), Seconds(db.engine.timeout), opening, closing);
    if GoodRequests(rs) && GoodTime(opening.now) && GoodTime(closing.now) {
      RequestsMirror(rs);
      EveryBaseEnds(
        was, s => Ok(ApplyAll(s, rs)), d => Ok(ActAll(d, rs)), Seconds(db.engine.timeout), opening, closing, r,
        db.engine.path);
    }
  }

  method EnterAndExit(db: Database, rs: seq<Request>, opening: Env, closing: Env) returns (r: Result<(), DbError>)
    requires db.engine.Valid() && Ticks(opening.wait, Seconds(db.engine.poll)) && db.active == null
    modifies db, db.engine
    ensures (r, db.engine.path) ==
      Updating(old(db.engine.path), s => Ok(ApplyAll(s, rs)), Seconds(db.engine.timeout), opening, closing)
    ensures db.active == null
  {
    hide Load, Commit, Committing, FreeInTime, Ticks, PositiveFinite, ApplyAll, Seconds;
    var tx := new Transaction(db);
    var entered := tx.Enter(opening);
    if entered.Err? {
      return Err(entered.error);
    }
    OperateAll(tx, rs);
    assert [] + rs == rs;
    r := tx.Exit(false, closing);
  }
}
