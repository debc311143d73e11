/** json_database/storage.py: `update`, `create_empty` and lock-free reads, run among other processes. */
module Engines {
  import opened Wrappers
  import opened Errors
  import opened Locks
  import opened Protocol
  import opened ProtocolProofs
  import opened Machines
  import opened AtomicWrites

  function Given<T>(r: Result<T, DbError>): Option<T> {
    match r
    case Ok(v) => Some(v)
    case Err(_) => None
  }

  ghost predicate IsIdle(q: Proc) {
    q.op.None? && q.lock.Unlocked? && q.read.NotReading? && q.write.NotWriting?
  }

  lemma IdleIs(w: World, p: Pid)
    requires Inv(w)
    ensures w.dirs != []
    ensures w.P(p).op.None? ==> w.P(p).lock.Unlocked? && w.P(p).write.NotWriting?
    ensures w.P(p).op.Some? && w.P(p).lock.Unlocked? ==> w.P(p).read.NotReading? && w.P(p).write.NotWriting?
    ensures w.P(p).lock.Held? ==> w.P(p).op.Some?
    ensures w.P(p).lock.Opened? && w.P(p).write.NotWriting? ==> w.P(p).op.Some? && w.P(p).read.NotReading?
  {
    IdleOk(w, p);
  }

  /** `p` has an operation, and is about to open the lock file or to try to lock it. */
  ghost predicate Locking(q: Proc, op: Op, opened_: bool) {
    && q.op == Some(op) && q.read.NotReading? && q.write.NotWriting?
    && (if opened_ then q.lock.Opened? else q.lock.Unlocked?)
  }

  method Start(m: Machine, p: Pid, op: Op)
    requires m.Valid() && Inv(m.world) && IsIdle(m.world.P(p))
    modifies m
    ensures m.Valid() && Inv(m.world) && m.Made(p) == old(m.Made(p)) && m.world.hist == old(m.world.hist)
    ensures m.world.initial == old(m.world.initial)
    ensures Locking(m.world.P(p), op, false)
  {
    hide Step, Inv, Machine.Valid;
    IdleIs(m.world, p);
    StepIs(m.world);
    m.Do(Begin(p, op));
  }

  /** `open(path, "a+b")`. */
  method OpenLockFile(m: Machine, p: Pid, op: Op)
    requires m.Valid() && Inv(m.world) && IsIdle(m.world.P(p))
    modifies m
    ensures m.Valid() && Inv(m.world) && m.Made(p) == old(m.Made(p)) && old(m.world.hist) <= m.world.hist
    ensures m.world.initial == old(m.world.initial)
    ensures Locking(m.world.P(p), op, true)
  {
    hide Step, Inv, Machine.Valid;
    Start(m, p, op);
    IdleIs(m.world, p);
    m.Others(p);
    StepIs(m.world);
    m.Do(OpenLock(p));
  }

  /** Some process holds the lock. */
  ghost predicate IsTaken(w: World) {
    exists q :: w.P(q).lock.Held?
  }

  ghost predicate HasLock(q: Proc, op: Op) {
    q.op == Some(op) && q.lock.Held? && q.read.NotReading? && q.write.NotWriting?
  }

  lemma SomeoneHolds(w: World, p: Pid)
    requires Inv(w) && w.P(p).lock.Opened? && w.P(p).lock.ino in w.flock
    ensures IsTaken(w)
  {
    assert w.P(w.flock[w.P(p).lock.ino]).lock.Held?;
  }

  /** The deadline has passed: the handle is closed. */
  method GiveUpWaiting(m: Machine, p: Pid, op: Op)
    requires m.Valid() && Inv(m.world) && Locking(m.world.P(p), op, true) && IsTaken(m.world)
    modifies m
    ensures m.Valid() && Inv(m.world) && m.Made(p) == old(m.Made(p)) && m.world.hist == old(m.world.hist)
    ensures m.world.initial == old(m.world.initial) && IsIdle(m.world.P(p)) && IsTaken(m.world)
  {
    hide Step, Inv, Machine.Valid;
    IdleIs(m.world, p);
    StepIs(m.world);
    ghost var q :| m.world.P(q).lock.Held?;
    m.Do(GiveUp(p));
    assert m.world.P(q).lock.Held?;
  }

  /** One `flock` call: it fails only while another process holds the lock. */
  method Try(m: Machine, p: Pid, op: Op) returns (ok: bool)
    requires m.Valid() && Inv(m.world) && Locking(m.world.P(p), op, true)
    modifies m
    ensures m.Valid() && Inv(m.world) && m.Made(p) == old(m.Made(p)) && m.world.hist == old(m.world.hist)
    ensures m.world.initial == old(m.world.initial)
    ensures if ok then HasLock(m.world.P(p), op) else Locking(m.world.P(p), op, true) && IsTaken(m.world)
  {
    hide Step, Inv, Machine.Valid;
    IdleIs(m.world, p);
    StepIs(m.world);
    m.Do(TryLock(p));
    ok := m.world.P(p).lock.Held?;
    if !ok {
      SomeoneHolds(m.world, p);
    }
  }

  /** `FileLock.acquire`: opens the lock file, tries once and again up to `retries` times, then closes it. */
  method Acquire(m: Machine, p: Pid, op: Op, retries: nat, opens: bool) returns (r: Result<(), DbError>)
    requires m.Valid() && Inv(m.world) && IsIdle(m.world.P(p))
    modifies m
    ensures m.Valid() && Inv(m.world) && m.Made(p) == old(m.Made(p))
    ensures old(m.world.hist) <= m.world.hist && m.world.initial == old(m.world.initial)
    ensures r.Ok? ==> opens && HasLock(m.world.P(p), op)
    ensures r.Err? ==> IsIdle(m.world.P(p)) && r.error == (if opens then LockError else OsError)
    ensures r == Err(LockError) ==> IsTaken(m.world)
  {
    hide Step, Inv, Machine.Valid;
    if !opens {
      return Err(OsError);
    }
    OpenLockFile(m, p, op);
    IdleIs(m.world, p);
    m.Others(p);
    var ok := Try(m, p, op);
    var i := 0;
    while !ok && i < retries
      invariant m.Valid() && Inv(m.world) && m.Made(p) == old(m.Made(p))
      invariant old(m.world.hist) <= m.world.hist && m.world.initial == old(m.world.initial)
      invariant if ok then HasLock(m.world.P(p), op) else Locking(m.world.P(p), op, true) && IsTaken(m.world)
      decreases retries - i
    {
      IdleIs(m.world, p);
      m.Others(p);
      ok := Try(m, p, op);
      i := i + 1;
    }
    if ok {
      return Ok(());
    }
    GiveUpWaiting(m, p, op);
    r := Err(LockError);
  }

  /** Closing the handle after `unlock`. */
  method CloseHandle(m: Machine, p: Pid)
    requires m.Valid() && Inv(m.world) && m.world.P(p).lock.Opened? && m.world.P(p).write.Finished?
    modifies m
    ensures m.Valid() && Inv(m.world) && m.Made(p) == old(m.Made(p)) && old(m.world.hist) <= m.world.hist
    ensures m.world.initial == old(m.world.initial)
    ensures IsIdle(m.world.P(p))
  {
    hide Step, Inv, Machine.Valid;
    IdleIs(m.world, p);
    StepIs(m.world);
    m.Do(Close(p));
  }

  /**
    `release`: unlock and close. The lock file stays. If the unlock call fails,
    closing the handle is what frees the lock.
   */
  method Release(m: Machine, p: Pid, unlockFails: bool)
    requires m.Valid() && Inv(m.world) && m.world.P(p).lock.Held? && m.world.P(p).write.Finished?
    modifies m
    ensures m.Valid() && Inv(m.world) && m.Made(p) == old(m.Made(p)) && old(m.world.hist) <= m.world.hist
    ensures m.world.initial == old(m.world.initial)
    ensures IsIdle(m.world.P(p))
  {
    hide Step, Inv, Machine.Valid;
    IdleIs(m.world, p);
    m.Others(p);
    StepIs(m.world);
    m.Do(Unlock(p));
    IdleIs(m.world, p);
    if !unlockFails {
      m.Others(p);
    }
    CloseHandle(m, p);
  }

  // ---------- Reading ----------

  lemma ReaderFile(w: World, p: Pid)
    requires Inv(w) && w.P(p).read.Reading?
    ensures w.dirs != []
    ensures var q := w.P(p).read; q.ino in w.published && q.ino in w.vol && q.acc <= w.vol[q.ino]
  {
    IdleOk(w, p);
  }

  lemma GotIs(w: World, p: Pid)
    requires Inv(w) && w.P(p).read.Got?
    ensures w.dirs != [] && var r := w.P(p).read; r.low <= r.ver <= |w.hist| && r.contents == w.At(r.ver)
    ensures w.P(p).lock.Held? && w.P(p).write.NotWriting? ==> w.P(p).read.ver == |w.hist|
  {
    IdleOk(w, p);
  }

  /** `read_bytes` of an open file, in as many pieces as the system makes of it. */
  method ReadAll(m: Machine, p: Pid)
    requires m.Valid() && Inv(m.world) && m.world.P(p).read.Reading?
    modifies m
    ensures m.Valid() && Inv(m.world) && m.Made(p) == old(m.Made(p)) && old(m.world.hist) <= m.world.hist
    ensures m.world.initial == old(m.world.initial)
    ensures m.world.P(p).read.Got? && m.world.P(p).read.low == old(m.world.P(p).read.low)
    ensures var q, q0 := m.world.P(p), old(m.world.P(p));
      q.op == q0.op && q.lock == q0.lock && q.write == q0.write
    ensures old(m.world.P(p)).lock.Held? ==> m.world.hist == old(m.world.hist)
    ensures var r := m.world.P(p).read; r.low <= r.ver <= |m.world.hist| && r.contents == m.world.At(r.ver)
  {
    hide Step, Inv, Machine.Valid;
    var ino := m.world.P(p).read.ino;
    var k := 0;
    ReaderFile(m.world, p);
    while |m.world.P(p).read.acc| < |m.world.vol[ino]|
      invariant m.Valid() && Inv(m.world) && m.Made(p) == old(m.Made(p)) && m.world.dirs != []
      invariant old(m.world.hist) <= m.world.hist && m.world.initial == old(m.world.initial)
      invariant old(m.world.P(p)).lock.Held? ==> m.world.hist == old(m.world.hist)
      invariant var q, q0 := m.world.P(p), old(m.world.P(p));
        && q.op == q0.op && q.lock == q0.lock && q.write == q0.write
        && q.read.Reading? && q.read.ino == ino && q.read.low == q0.read.low
      invariant ino in m.world.published && ino in m.world.vol && m.world.P(p).read.acc <= m.world.vol[ino]
      decreases |m.world.vol[ino]| - |m.world.P(p).read.acc|
    {
      m.Others(p);
      StepIs(m.world);
      m.Do(ReadChunk(p, 1 + m.chunk(m.turn)));
      ReaderFile(m.world, p);
      k := k + 1;
    }
    StepIs(m.world);
    m.Do(ReadEnd(p));
    GotIs(m.world, p);
  }

  /** `p` has gone on reading, and nothing else about it has changed. */
  ghost predicate SameButRead(q: Proc, q0: Proc) {
    q.op == q0.op && q.lock == q0.lock && q.write == q0.write
  }

  lemma NewestIs(w: World)
    requires Inv(w)
    ensures w.dirs != [] && w.Cur().ver == |w.hist| && (Db in w.Cur().dir <==> w.At(|w.hist|).Some?)
  {
    assert DirOk(w, w.Cur());
  }

  /** `path.exists()`. */
  method Exists(m: Machine, p: Pid) returns (found: bool)
    requires m.Valid() && Inv(m.world) && MayRead(m.world.P(p))
    modifies m
    ensures m.Valid() && Inv(m.world) && m.Made(p) == old(m.Made(p)) && old(m.world.hist) <= m.world.hist
    ensures m.world.initial == old(m.world.initial) && SameButRead(m.world.P(p), old(m.world.P(p)))
    ensures old(m.world.P(p)).lock.Held? ==> m.world.hist == old(m.world.hist)
    ensures var r := m.world.P(p).read;
      if found then r.Found? && r.low >= |old(m.world.hist)|
      else r.Got? && r.contents.None? && r.low >= |old(m.world.hist)|
    ensures found <==> m.world.At(|m.world.hist|).Some?
  {
    hide Step, Inv, Machine.Valid;
    NewestIs(m.world);
    m.Others(p);
    NewestIs(m.world);
    StepIs(m.world);
    m.Do(Look(p));
    found := m.world.P(p).read.Found?;
  }

  /** `open` and `read` of a file that was there. `None` when it cannot be opened. */
  method OpenAndRead(m: Machine, p: Pid, readable: bool) returns (c: Option<Contents>)
    requires m.Valid() && Inv(m.world) && m.world.P(p).read.Found? && m.world.P(p).write.NotWriting?
    requires m.world.At(|m.world.hist|).Some?
    modifies m
    ensures c.Some? <==> readable
    ensures m.Valid() && Inv(m.world) && m.Made(p) == old(m.Made(p)) && old(m.world.hist) <= m.world.hist
    ensures m.world.initial == old(m.world.initial) && SameButRead(m.world.P(p), old(m.world.P(p)))
    ensures old(m.world.P(p)).lock.Held? ==> m.world.hist == old(m.world.hist)
    ensures c.Some? ==>
      && m.world.P(p).read.Got? && c.value == m.world.P(p).read.contents
      && m.world.P(p).read.low == old(m.world.P(p).read.low)
  {
    hide Step, Inv, Machine.Valid;
    NewestIs(m.world);
    m.Others(p);
    if !readable {
      return None;
    }
    NewestIs(m.world);
    StepIs(m.world);
    m.Do(OpenDb(p));
    ReadAll(m, p);
    c := Some(m.world.P(p).read.contents);
  }

  /** The file part of `load`: exists, open, read. `None` is an error, which only a file that is there can give. */
  method Load(m: Machine, p: Pid, readable: bool) returns (c: Option<Contents>)
    requires m.Valid() && Inv(m.world) && MayRead(m.world.P(p)) && m.world.P(p).write.NotWriting?
    modifies m
    ensures m.Valid() && Inv(m.world) && m.Made(p) == old(m.Made(p)) && old(m.world.hist) <= m.world.hist
    ensures m.world.initial == old(m.world.initial) && SameButRead(m.world.P(p), old(m.world.P(p)))
    ensures old(m.world.P(p)).lock.Held? ==> m.world.hist == old(m.world.hist)
    ensures c.Some? ==>
      && m.world.P(p).read.Got? && c.value == m.world.P(p).read.contents
      && var r := m.world.P(p).read;
      |old(m.world.hist)| <= r.low <= r.ver <= |m.world.hist| && c.value == m.world.At(r.ver)
    ensures if readable then c.Some? else c.None? || c.value.None?
    ensures old(m.world.P(p)).lock.Held? ==> (c.None? <==> !readable && m.world.At(|m.world.hist|).Some?)
  {
    hide Step, Inv, Machine.Valid;
    var found := Exists(m, p);
    if !found {
      GotIs(m.world, p);
      return Some(m.world.P(p).read.contents);
    }
    c := OpenAndRead(m, p, readable);
    if c.Some? {
      GotIs(m.world, p);
    }
  }

  /** A lock-free read returns what some one version held that was current during the call. */
  method Snapshot(m: Machine, p: Pid, readable: bool) returns (c: Option<Contents>, ghost ver: nat)
    requires m.Valid() && Inv(m.world) && IsIdle(m.world.P(p))
    modifies m
    ensures m.Valid() && Inv(m.world) && m.Made(p) == old(m.Made(p))
    ensures c.Some? ==> |old(m.world.hist)| <= ver <= |m.world.hist| && c.value == m.world.At(ver)
    ensures if readable then c.Some? else c.None? || c.value.None?
  {
    hide Step, Inv, Machine.Valid;
    IdleIs(m.world, p);
    c := Load(m, p, readable);
    ver := if c.Some? then m.world.P(p).read.ver else 0;
  }

  // ---------- Writing ----------

  /** What the unlock call raises, if it fails, replaces what was about to be returned or raised. */
  ghost predicate Ends(r: Result<(), DbError>, error: Option<DbError>, unlockFails: bool) {
    if unlockFails then r == Err(OsError) else if error.Some? then r == Err(error.value) else r.Ok?
  }

  /**
    The operation failed before its commit, or made the one commit it was to
    make, of `data`, right after the first `n` commits.
   */
  ghost predicate Ended(
      w: World, op: Op, n: nat, planned: Result<Bytes, DbError>, made: int, r: Result<(), DbError>, luck: Luck)
  {
    match planned
    case Err(e) => made == 0 && Ends(r, Some(e), luck.unlockFails)
    case Ok(data) =>
      if made == 0 then
        && !Passes(luck.trouble, data)
        && Ends(r, Some(if luck.trouble.AtMkdir? then OsError else StorageError), luck.unlockFails)
      else
        && made == 1 && !Stops(luck.trouble, data) && Ends(r, None, luck.unlockFails)
        && n < |w.hist| && w.hist[n].op == op && w.hist[n].data == data
  }

  /**
    Without the lock nothing happened, and another process holds it or the lock
    file cannot be opened; otherwise the lock was obtained after `since` commits.
   */
  ghost predicate Locked(
      w0: World, w: World, p: Pid, since: Option<nat>, made: int, r: Result<(), DbError>, luck: Luck)
  {
    && IsIdle(w.P(p)) && w0.hist <= w.hist && w.initial == w0.initial
    && match since
       case None => made == 0 && if luck.opens then r == Err(LockError) && IsTaken(w) else r == Err(OsError)
       case Some(n) => luck.opens && |w0.hist| <= n <= |w.hist|
  }

  /** Raises before anything is written: the lock is released, nothing was committed. */
  method GiveUpHolding(m: Machine, p: Pid, unlockFails: bool)
    requires m.Valid() && Inv(m.world) && m.world.P(p).lock.Held? && m.world.P(p).write.NotWriting?
    modifies m
    ensures m.Valid() && Inv(m.world) && m.Made(p) == old(m.Made(p)) && old(m.world.hist) <= m.world.hist
    ensures m.world.initial == old(m.world.initial) && IsIdle(m.world.P(p))
  {
    hide Step, Inv, Machine.Valid;
    IdleIs(m.world, p);
    StepIs(m.world);
    m.Do(Abort(p));
    Release(m, p, unlockFails);
  }

  /** Writes the data and releases the lock. */
  method CommitAndRelease(m: Machine, p: Pid, op: Op, data: Bytes, tmp: nat, luck: Luck)
    returns (r: Result<(), DbError>)
    requires m.Valid() && Inv(m.world) && Ready(m.world, p, data) && m.world.P(p).op == Some(op)
    modifies m
    ensures m.Valid() && Inv(m.world) && IsIdle(m.world.P(p))
    ensures old(m.world.hist) <= m.world.hist && m.world.initial == old(m.world.initial)
    ensures Ended(m.world, op, |old(m.world.hist)|, Ok(data), m.Made(p) - old(m.Made(p)), r, luck)
  {
    hide Step, Inv, Machine.Valid, Stops, Passes;
    var written := AtomicWrite(m, p, tmp, data, luck);
    ghost var w1 := m.world;
    Release(m, p, luck.unlockFails);
    r := Unlocking(written, luck.unlockFails);
    if written.Ok? {
      assert m.world.hist[|old(m.world.hist)|] == w1.hist[|old(m.world.hist)|];
      assert w1.hist[|old(m.world.hist)|] == Committed(op, old(m.world.P(p)).lock.ticket, data);
    }
  }

  /** What `update` is to do with what it finds: the error it raises, or the bytes it commits. */
  function Planned(mutate: Contents -> Result<Bytes, DbError>, c: Contents, readable: bool): Result<Bytes, DbError> {
    if c.Some? && !readable then Err(StorageError) else mutate(c)
  }

  /**
    `update`: once it has the lock, it fails with the error of the load or the
    mutator, or writes what the mutator makes of what the commit before left,
    and then succeeds unless a system call fails. The lock is free either way.
   */
  method Update(m: Machine, p: Pid, mutate: Contents -> Result<Bytes, DbError>, retries: nat, tmp: nat, luck: Luck)
    returns (r: Result<(), DbError>, ghost since: Option<nat>)
    requires m.Valid() && Inv(m.world) && IsIdle(m.world.P(p))
    modifies m
    ensures m.Valid() && Inv(m.world)
    ensures Locked(old(m.world), m.world, p, since, m.Made(p) - old(m.Made(p)), r, luck)
    ensures since.Some? ==>
      Ended(m.world, Op.Update(c => Given(mutate(c))), since.value,
            Planned(mutate, m.world.At(since.value), luck.readable), m.Made(p) - old(m.Made(p)), r, luck)
  {
    hide Step, Inv, Machine.Valid, IsTaken, Stops, Passes;
    var op := Op.Update(c => Given(mutate(c)));
    var got := Acquire(m, p, op, retries, luck.opens);
    if got.Err? {
      return got, None;
    }
    since := Some(|m.world.hist|);
    var c := Load(m, p, luck.readable);
    if c.None? {
      GiveUpHolding(m, p, luck.unlockFails);
      return Unlocking(Err(StorageError), luck.unlockFails), since;
    }
    var data := mutate(c.value);
    if data.Err? {
      GiveUpHolding(m, p, luck.unlockFails);
      return Unlocking(Err(data.error), luck.unlockFails), since;
    }
    IdleIs(m.world, p);
    r := CommitAndRelease(m, p, op, data.value, tmp, luck);
  }

  /**
    `create_empty`: the test for the file and the commit happen under one lock.
    Without `force` it refuses a database that is there.
   */
  method CreateEmpty(m: Machine, p: Pid, force: bool, empty: Bytes, retries: nat, tmp: nat, luck: Luck)
    returns (r: Result<(), DbError>, ghost since: Option<nat>)
    requires m.Valid() && Inv(m.world) && IsIdle(m.world.P(p))
    modifies m
    ensures m.Valid() && Inv(m.world)
    ensures Locked(old(m.world), m.world, p, since, m.Made(p) - old(m.Made(p)), r, luck)
    ensures since.Some? ==>
      Ended(m.world, Create(force, empty), since.value,
            if m.world.At(since.value).Some? && !force then Err(StorageError) else Ok(empty),
            m.Made(p) - old(m.Made(p)), r, luck)
  {
    hide Step, Inv, Machine.Valid, IsTaken, Stops, Passes;
    var got := Acquire(m, p, Create(force, empty), retries, luck.opens);
    if got.Err? {
      return got, None;
    }
    since := Some(|m.world.hist|);
    var found := Exists(m, p);
    if found && !force {
      GiveUpHolding(m, p, luck.unlockFails);
      return Unlocking(Err(StorageError), luck.unlockFails), since;
    }
    IdleIs(m.world, p);
    r := CommitAndRelease(m, p, Create(force, empty), empty, tmp, luck);
  }
}
