/** json_database/atomic.py: writing the database file; any system call may fail, and other processes run in between. */
module AtomicWrites {
  import opened Wrappers
  import opened Errors
  import opened Protocol
  import opened ProtocolProofs
  import opened ProtocolTheorems
  import opened Machines

  /** The system call that fails, if any; `AtWrite(k)` is the k-th write. */
  datatype Trouble = NoTrouble | AtMkdir | AtTemp | AtWrite(k: nat) | AtFsync | AtReplace

  /**
    Which calls fail during one locked operation: opening the lock file, reading
    the database, one call of the write, removing its temporary file, syncing
    the directory, unlocking.
   */
  datatype Luck = Luck(
    opens: bool, readable: bool, trouble: Trouble, unlinks: bool, syncs: bool, unlockFails: bool)

  /** `p` holds the lock and has `data` to write. */
  ghost predicate Ready(w: World, p: Pid, data: Bytes) {
    && w.dirs != [] && w.P(p).lock.Held? && w.P(p).op.Some? && w.P(p).write.NotWriting?
    && DataToWrite(w.P(p)) == Some(data)
  }

  /** Nothing was committed by anyone since `w`, and `p` has only moved on to `write`. */
  ghost predicate Only(w: World, w': World, p: Pid, write: WritePc) {
    w'.hist == w.hist && w'.initial == w.initial && w'.P(p) == w.P(p).(write := write)
  }

  lemma WriterFile(w: World, p: Pid)
    requires Inv(w) && w.P(p).write.Writing?
    ensures w.dirs != [] && w.P(p).lock.Held?
    ensures var q := w.P(p).write; q.ino in w.vol && w.vol[q.ino] <= q.data
  {
    IdleOk(w, p);
  }

  lemma HolderIsLive(w: World, p: Pid)
    requires Inv(w)
    ensures w.dirs != []
    ensures w.P(p).write.Synced? ==> w.P(p).lock.Held? && w.P(p).op.Some?
  {
    IdleOk(w, p);
  }

  /** `p` is writing `data` to the file `ino`, which holds the first part of it. */
  ghost predicate Filling(w: World, p: Pid, ino: Ino, data: Bytes) {
    && w.dirs != [] && w.P(p).write.Writing? && w.P(p).write.ino == ino && w.P(p).write.data == data
    && w.P(p).lock.Held? && ino in w.vol && w.vol[ino] <= data
  }

  /** One `write` call, which takes at least one byte. */
  method WriteSome(m: Machine, p: Pid, ghost ino: Ino, ghost data: Bytes)
    requires m.Valid() && Inv(m.world) && Filling(m.world, p, ino, data) && |m.world.vol[ino]| < |data|
    modifies m
    ensures m.Valid() && Inv(m.world) && m.Made(p) == old(m.Made(p))
    ensures Only(old(m.world), m.world, p, old(m.world.P(p).write)) && Filling(m.world, p, ino, data)
    ensures |m.world.vol[ino]| > |old(m.world.vol[ino])|
  {
    hide Step, Inv, Machine.Valid;
    StepIs(m.world);
    m.Do(WriteChunk(p, 1 + m.chunk(m.turn)));
    WriterFile(m.world, p);
  }

  /** `fsync` of the whole file, or the cleanup after a failing call. */
  method EndFill(m: Machine, p: Pid, ghost ino: Ino, ghost data: Bytes, ok: bool, unlinks: bool)
    requires m.Valid() && Inv(m.world) && Filling(m.world, p, ino, data)
    requires ok ==> |m.world.vol[ino]| >= |data|
    modifies m
    ensures m.Valid() && Inv(m.world) && m.Made(p) == old(m.Made(p))
    ensures var q := old(m.world.P(p).write);
      Only(old(m.world), m.world, p, if ok then Synced(q.tmp, q.ino, data) else Finished(false))
  {
    hide Step, Inv, Machine.Valid;
    StepIs(m.world);
    if ok {
      m.Do(Fsync(p));
    } else {
      m.Do(FailWrite(p, unlinks));
    }
  }

  /** Others run, and the file that is being written stays as it is. */
  method OthersFilling(m: Machine, p: Pid, ghost ino: Ino, ghost data: Bytes)
    requires m.Valid() && Inv(m.world) && Filling(m.world, p, ino, data)
    modifies m
    ensures m.Valid() && Inv(m.world) && m.Made(p) == old(m.Made(p))
    ensures Only(old(m.world), m.world, p, old(m.world.P(p).write)) && Filling(m.world, p, ino, data)
    ensures m.world.vol[ino] == old(m.world.vol[ino])
  {
    hide Step, Inv, Machine.Valid;
    m.Others(p);
    WriterFile(m.world, p);
  }

  /** `temp.write(data)`, as many times as it takes, `flush` and `fsync`. */
  method Fill(m: Machine, p: Pid, data: Bytes, luck: Luck) returns (ok: bool)
    requires m.Valid() && Inv(m.world) && m.world.P(p).write.Writing? && m.world.P(p).write.data == data
    requires var ino := m.world.P(p).write.ino; ino in m.world.vol && m.world.vol[ino] == ""
    modifies m
    ensures m.Valid() && Inv(m.world) && m.Made(p) == old(m.Made(p))
    ensures var q := old(m.world.P(p).write);
      Only(old(m.world), m.world, p, if ok then Synced(q.tmp, q.ino, data) else Finished(false))
    ensures luck.trouble.AtFsync? ==> !ok
    ensures luck.trouble.AtWrite? ==> (ok ==> data == "" || luck.trouble.k > 0) && (!ok ==> luck.trouble.k < |data|)
    ensures !luck.trouble.AtFsync? && !luck.trouble.AtWrite? ==> ok
  {
    hide Step, Inv, Machine.Valid;
    var ino := m.world.P(p).write.ino;
    var k := 0;
    WriterFile(m.world, p);
    while |m.world.vol[ino]| < |data|
      invariant m.Valid() && Inv(m.world) && m.Made(p) == old(m.Made(p))
      invariant Only(old(m.world), m.world, p, old(m.world.P(p).write)) && Filling(m.world, p, ino, data)
      invariant k <= |m.world.vol[ino]| && (k == 0 || luck.trouble != AtWrite(0))
      invariant k == 0 ==> m.world.vol[ino] == ""
      decreases |data| - |m.world.vol[ino]|
    {
      OthersFilling(m, p, ino, data);
      if luck.trouble == AtWrite(k) {
        EndFill(m, p, ino, data, false, luck.unlinks);
        return false;
      }
      WriteSome(m, p, ino, data);
      k := k + 1;
    }
    OthersFilling(m, p, ino, data);
    ok := !luck.trouble.AtFsync?;
    EndFill(m, p, ino, data, ok, luck.unlinks);
  }

  /** `mkstemp` draws names until one is free. */
  method FreeName(d: Dir, first: nat) returns (tmp: nat)
    ensures Temp(tmp) !in d && tmp >= first
  {
    tmp := first;
    while Temp(tmp) in d
      invariant tmp >= first
      decreases set n | n in d && n.Temp? && n.n >= tmp
    {
      ghost var taken := set n | n in d && n.Temp? && n.n >= tmp;
      assert Temp(tmp) in taken;
      tmp := tmp + 1;
      assert (set n | n in d && n.Temp? && n.n >= tmp) < taken;
    }
  }

  /** `mkstemp` and everything up to the rename. */
  method WriteTemp(m: Machine, p: Pid, first: nat, data: Bytes, luck: Luck) returns (ok: bool)
    requires m.Valid() && Inv(m.world) && Ready(m.world, p, data)
    modifies m
    ensures m.Valid() && Inv(m.world) && m.Made(p) == old(m.Made(p))
    ensures !ok ==> Only(old(m.world), m.world, p, Finished(false))
    ensures ok ==> exists tmp, ino :: Only(old(m.world), m.world, p, Synced(tmp, ino, data))
    ensures luck.trouble.AtTemp? || luck.trouble.AtFsync? ==> !ok
    ensures luck.trouble.AtWrite? ==> (ok ==> data == "" || luck.trouble.k > 0) && (!ok ==> luck.trouble.k < |data|)
    ensures !luck.trouble.AtTemp? && !luck.trouble.AtFsync? && !luck.trouble.AtWrite? ==> ok
  {
    hide Step, Inv, Machine.Valid;
    m.Others(p);
    StepIs(m.world);
    if luck.trouble.AtTemp? {
      m.Do(Abort(p));
      return false;
    }
    var tmp := FreeName(m.world.Cur().dir, first);
    m.Do(MkTemp(p, tmp));
    ok := Fill(m, p, data, luck);
  }

  /** `_fsync_parent`, whose failure goes unnoticed. */
  method SyncDirectory(m: Machine, p: Pid, luck: Luck)
    requires m.Valid() && Inv(m.world) && m.world.P(p).write.Replaced? && m.world.P(p).lock.Held?
    modifies m
    ensures m.Valid() && Inv(m.world) && m.Made(p) == old(m.Made(p))
    ensures Only(old(m.world), m.world, p, Finished(true))
  {
    hide Step, Inv, Machine.Valid;
    HolderIsLive(m.world, p);
    m.Others(p);
    StepIs(m.world);
    if luck.syncs {
      m.Do(SyncParent(p));
    } else {
      m.Do(SkipSync(p));
    }
  }

  /** The rename, and an attempt to make it durable. */
  method Publish(m: Machine, p: Pid, luck: Luck) returns (ok: bool)
    requires m.Valid() && Inv(m.world) && m.world.P(p).write.Synced?
    modifies m
    ensures m.Valid() && Inv(m.world) && m.world.initial == old(m.world.initial)
    ensures ok == !luck.trouble.AtReplace?
    ensures !ok ==> Only(old(m.world), m.world, p, Finished(false)) && m.Made(p) == old(m.Made(p))
    ensures old(m.world.P(p)).op.Some? && old(m.world.P(p)).lock.Held?
    ensures ok ==>
      && m.world.P(p) == old(m.world.P(p)).(write := Finished(true)) && m.Made(p) == old(m.Made(p)) + 1
      && var q := old(m.world.P(p));
      m.world.hist == old(m.world.hist) + [Committed(q.op.value, q.lock.ticket, q.write.data)]
  {
    hide Step, Inv, Machine.Valid;
    HolderIsLive(m.world, p);
    m.Others(p);
    StepIs(m.world);
    if luck.trouble.AtReplace? {
      m.Do(FailWrite(p, luck.unlinks));
      return false;
    }
    m.Do(Replace(p));
    SyncDirectory(m, p, luck);
    ok := true;
  }

  /** Before the rename nothing has happened to the path: a failing call stops the write. */
  predicate Stops(trouble: Trouble, data: Bytes) {
    match trouble
    case NoTrouble => false
    case AtWrite(k) => k == 0 && data != ""
    case _ => true
  }

  /** Nothing fails; a write takes at least one byte, so there are no more of them than bytes. */
  predicate Passes(trouble: Trouble, data: Bytes) {
    trouble.NoTrouble? || (trouble.AtWrite? && trouble.k >= |data|)
  }

  /**
    `atomic_write`, by the holder of the lock, whatever other processes do
    meanwhile: on success the path holds exactly the data, and it is one commit
    on top of the last one; on failure the path is as it was. It succeeds if no
    system call fails but the closing directory fsync.
   */
  method AtomicWrite(m: Machine, p: Pid, first: nat, data: Bytes, luck: Luck) returns (r: Result<(), DbError>)
    requires m.Valid() && Inv(m.world) && Ready(m.world, p, data)
    modifies m
    ensures m.Valid() && Inv(m.world) && m.world.dirs != [] && m.world.initial == old(m.world.initial)
    ensures m.world.P(p) == old(m.world.P(p)).(write := Finished(r.Ok?))
    ensures r.Ok? ==>
      && Path(m.world) == Some(data) && m.Made(p) == old(m.Made(p)) + 1
      && var q := old(m.world.P(p));
      m.world.hist == old(m.world.hist) + [Committed(q.op.value, q.lock.ticket, data)]
    ensures r.Err? ==>
      && r.error == (if luck.trouble.AtMkdir? then OsError else StorageError) && Path(m.world) == Path(old(m.world))
      && m.world.hist == old(m.world.hist) && m.Made(p) == old(m.Made(p))
    ensures Stops(luck.trouble, data) ==> r.Err?
    ensures Passes(luck.trouble, data) ==> r.Ok?
  {
    hide Step, Inv, Machine.Valid;
    PathIsLast(m.world);
    if luck.trouble.AtMkdir? {
      m.Others(p);
      StepIs(m.world);
      m.Do(Abort(p));
      PathIsLast(m.world);
      return Err(OsError);
    }
    var ok := WriteTemp(m, p, first, data, luck);
    if ok {
      ok := Publish(m, p, luck);
    }
    HolderIsLive(m.world, p);
    PathIsLast(m.world);
    r := if ok then Ok(()) else Err(StorageError);
  }
}
