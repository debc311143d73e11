/** What every step of the commit protocol keeps. */
module ProtocolProofs {
  import opened Wrappers
  import opened Protocol

  // ---------- The invariant ----------

  ghost predicate DirOk(w: World, v: Version) {
    && v.ver <= |w.hist|
    && (forall n :: n in v.dir ==> v.dir[n] < w.next)
    && (Db in v.dir <==> w.At(v.ver).Some?)
    && (Db in v.dir ==> v.dir[Db] in w.published && w.published[v.dir[Db]] == v.ver)
  }

  ghost predicate DirsOk(w: World) {
    && w.dirs != [] && w.Cur().ver == |w.hist| && w.floor <= w.dirs[0].ver
    && (forall i, j :: 0 <= i <= j < |w.dirs| ==> w.dirs[i].ver <= w.dirs[j].ver)
    && (forall i :: 0 <= i < |w.dirs| ==> DirOk(w, w.dirs[i]))
  }

  /** A file that was ever at the database path holds, durably, the bytes of its version. */
  ghost predicate FileOk(w: World, i: Ino) {
    && i in w.published && i < w.next && w.published[i] <= |w.hist|
    && i in w.vol && i in w.dur && w.vol[i] == w.dur[i]
    && w.At(w.published[i]) == Some(w.vol[i])
  }

  ghost predicate FilesOk(w: World) {
    forall i :: i in w.published ==> FileOk(w, i)
  }

  /** A commit wrote what its operation makes of what the commit before it left. */
  ghost predicate CommitOk(w: World, i: nat)
    requires i < |w.hist|
  {
    Outcome(w.hist[i].op, w.At(i)) == Some(w.hist[i].data) && w.hist[i].ticket < w.tickets
  }

  ghost predicate HistOk(w: World) {
    && (forall i :: 0 <= i < |w.hist| ==> CommitOk(w, i))
    && (forall i, j :: 0 <= i < j < |w.hist| ==> w.hist[i].ticket < w.hist[j].ticket)
  }

  ghost predicate FlockOk(w: World) {
    forall i :: i in w.flock ==>
      w.flock[i] in w.procs && w.procs[w.flock[i]].lock.Held? && w.procs[w.flock[i]].lock.ino == i
  }

  ghost predicate FsOk(w: World) {
    DirsOk(w) && FilesOk(w) && HistOk(w) && FlockOk(w)
  }

  ghost predicate ReadOk(w: World, q: Proc) {
    && q.seen <= |w.hist|
    && match q.read
       case NotReading => true
       case Found(low) => q.seen <= low <= |w.hist|
       case Reading(ino, acc, low) =>
         ino in w.published && ino in w.vol && q.seen <= low <= w.published[ino] && acc <= w.vol[ino]
       case Got(c, v, low) => low <= v <= |w.hist| && c == w.At(v) && q.seen == v
  }

  ghost predicate LockOk(w: World, p: Pid, q: Proc)
    requires w.dirs != []
  {
    && (q.op.None? ==> q.lock.Unlocked?)
    && (q.lock.Unlocked? ==> q.write.NotWriting?)
    && (q.op.Some? && !q.lock.Held? && q.write.NotWriting? ==> q.read.NotReading?)
    && (q.lock.Opened? ==> q.write.NotWriting? || q.write.Finished?)
    && (!q.lock.Unlocked? ==> LockFile in w.Cur().dir && w.Cur().dir[LockFile] == q.lock.ino)
    && (q.lock.Held? ==> q.lock.ino in w.flock && w.flock[q.lock.ino] == p && q.lock.ticket < w.tickets)
  }

  ghost predicate Later(w: World, ticket: nat) {
    forall i :: 0 <= i < |w.hist| ==> w.hist[i].ticket < ticket
  }

  /** The newest commit is the one made under this lock. */
  ghost predicate Mine(w: World, q: Proc)
    requires q.lock.Held?
  {
    w.hist != [] && w.hist[|w.hist| - 1].ticket == q.lock.ticket && Some(w.hist[|w.hist| - 1].op) == q.op
  }

  /** What the holder of the lock knows until it commits: nobody else commits. */
  ghost predicate HolderOk(w: World, q: Proc) {
    match q.write
    case NotWriting =>
      q.lock.Held? ==>
        && Later(w, q.lock.ticket)
        && (q.read.Found? ==> w.At(|w.hist|).Some?)
        && (q.read.Reading? ==> q.read.ino in w.published && w.published[q.read.ino] == |w.hist|)
        && (q.read.Got? ==> q.read.ver == |w.hist|)
    case Writing(_, ino, data) =>
      && q.lock.Held? && Later(w, q.lock.ticket) && q.op.Some?
      && ino !in w.published && ino < w.next && ino in w.vol && w.vol[ino] <= data
      && Outcome(q.op.value, w.At(|w.hist|)) == Some(data)
    case Synced(_, ino, data) =>
      && q.lock.Held? && Later(w, q.lock.ticket) && q.op.Some?
      && ino !in w.published && ino < w.next && ino in w.vol && ino in w.dur && w.vol[ino] == w.dur[ino] == data
      && Outcome(q.op.value, w.At(|w.hist|)) == Some(data)
    case Replaced => q.lock.Held? && Mine(w, q)
    case Finished(ok) => q.lock.Held? ==> if ok then Mine(w, q) else Later(w, q.lock.ticket)
  }

  ghost predicate ProcOk(w: World, p: Pid, q: Proc)
    requires w.dirs != []
  {
    ReadOk(w, q) && LockOk(w, p, q) && HolderOk(w, q)
  }

  ghost predicate Inv(w: World) {
    FsOk(w) && forall p :: p in w.procs ==> ProcOk(w, p, w.procs[p])
  }

  /** Idle processes meet their part of the invariant in any world. */
  lemma IdleOk(w: World, p: Pid)
    requires Inv(w)
    ensures ProcOk(w, p, w.P(p))
  {
  }

  // ---------- What one process may do to another ----------

  /** The change from `w` to `w'` cannot be noticed by process `p` in state `q`. */
  ghost predicate Rely(w: World, w': World, p: Pid, q: Proc)
    requires w.dirs != [] && w'.dirs != []
  {
    && w.hist <= w'.hist && w'.initial == w.initial && w.next <= w'.next && w.tickets <= w'.tickets
    && (forall i :: i in w.published && i in w.vol ==>
          i in w'.published && w'.published[i] == w.published[i] && i in w'.vol && w'.vol[i] == w.vol[i])
    && (LockFile in w.Cur().dir ==> LockFile in w'.Cur().dir && w'.Cur().dir[LockFile] == w.Cur().dir[LockFile])
    && (q.lock.Held? ==>
          && w'.hist == w.hist
          && (q.lock.ino in w.flock && w.flock[q.lock.ino] == p ==> q.lock.ino in w'.flock && w'.flock[q.lock.ino] == p)
          && (q.write.Writing? || q.write.Synced? ==> SameFile(w, w', q.write.ino)))
  }

  ghost predicate SameFile(w: World, w': World, i: Ino) {
    && (i in w.vol ==> i in w'.vol && w'.vol[i] == w.vol[i])
    && (i in w.dur ==> i in w'.dur && w'.dur[i] == w.dur[i])
    && (i !in w.published ==> i !in w'.published)
  }

  lemma Prefixed(w: World, w': World, n: nat)
    requires w.hist <= w'.hist && w'.initial == w.initial && n <= |w.hist|
    ensures w'.At(n) == w.At(n)
  {
  }

  lemma ReadStays(w: World, w': World, p: Pid, q: Proc)
    requires Inv(w) && w'.dirs != [] && ReadOk(w, q) && Rely(w, w', p, q)
    ensures ReadOk(w', q)
  {
    if q.read.Got? {
      Prefixed(w, w', q.read.ver);
    }
    if q.read.Reading? {
      assert FileOk(w, q.read.ino);
    }
  }

  lemma HolderStays(w: World, w': World, p: Pid, q: Proc)
    requires w.dirs != [] && w'.dirs != [] && ReadOk(w, q) && HolderOk(w, q) && Rely(w, w', p, q)
    ensures HolderOk(w', q)
  {
    if q.lock.Held? {
      assert w'.At(|w.hist|) == w.At(|w.hist|);
    }
  }

  lemma ProcStable(w: World, w': World, p: Pid, q: Proc)
    requires Inv(w) && w'.dirs != [] && ProcOk(w, p, q) && Rely(w, w', p, q)
    ensures ProcOk(w', p, q)
  {
    hide ReadOk, HolderOk, FilesOk, HistOk, FlockOk;
    ReadStays(w, w', p, q);
    HolderStays(w, w', p, q);
  }

  /** A step of `p` that the others cannot notice keeps the invariant. */
  lemma StepKeeps(w: World, w': World, p: Pid)
    requires Inv(w) && FsOk(w') && ProcOk(w', p, w'.P(p))
    requires forall q :: q in w'.procs && q != p ==> q in w.procs && w'.procs[q] == w.procs[q]
    requires forall q :: q in w.procs && q != p ==> Rely(w, w', q, w.procs[q])
    ensures Inv(w')
  {
    forall q | q in w'.procs ensures ProcOk(w', q, w'.procs[q]) {
      if q != p {
        ProcStable(w, w', q, w.procs[q]);
      }
    }
  }

  /** Nothing changed but what processes know and who holds a lock. */
  ghost predicate SameFiles(w: World, w': World) {
    && w'.dirs == w.dirs && w'.vol == w.vol && w'.dur == w.dur && w'.next == w.next
    && w'.hist == w.hist && w'.initial == w.initial && w'.published == w.published && w'.floor == w.floor
  }

  lemma SameFilesOk(w: World, w': World)
    requires DirsOk(w) && FilesOk(w) && SameFiles(w, w')
    ensures DirsOk(w') && FilesOk(w')
  {
    forall n: nat | n <= |w.hist| ensures w'.At(n) == w.At(n) {
    }
    forall i | i in w'.published ensures FileOk(w', i) {
      assert FileOk(w, i);
    }
    forall i | 0 <= i < |w'.dirs| ensures DirOk(w', w'.dirs[i]) {
      assert DirOk(w, w.dirs[i]);
    }
  }

  lemma SameHistOk(w: World, w': World)
    requires HistOk(w) && w'.hist == w.hist && w'.initial == w.initial && w.tickets <= w'.tickets
    ensures HistOk(w')
  {
    forall i | 0 <= i < |w'.hist| ensures CommitOk(w', i) {
      assert CommitOk(w, i);
      assert w'.At(i) == w.At(i);
    }
  }

  lemma SameProcOk(w: World, w': World, p: Pid, q: Proc)
    requires w.dirs != [] && SameFiles(w, w') && w'.flock == w.flock && w'.tickets == w.tickets
    requires ProcOk(w, p, q)
    ensures ProcOk(w', p, q)
  {
    if q.read.Got? {
      assert w'.At(q.read.ver) == w.At(q.read.ver);
    }
    assert w'.At(|w.hist|) == w.At(|w.hist|);
  }

  /** A step that only changes what `p` knows, and not whether it holds the lock. */
  lemma LocalKeeps(w: World, p: Pid, q: Proc)
    requires Inv(w) && ProcOk(w, p, q)
    requires w.P(p).lock.Held? ==> q.lock == w.P(p).lock
    ensures Inv(w.With(p, q))
  {
    var w' := w.With(p, q);
    SameFilesOk(w, w');
    SameHistOk(w, w');
    forall i | i in w'.flock
      ensures w'.flock[i] in w'.procs && w'.procs[w'.flock[i]].lock.Held? && w'.procs[w'.flock[i]].lock.ino == i
    {
    }
    forall r | r in w'.procs ensures ProcOk(w', r, w'.procs[r]) {
      SameProcOk(w, w', r, w'.procs[r]);
    }
  }

  /** Only one process can be past the lock. */
  lemma OneHolder(w: World, p: Pid, q: Pid)
    requires Inv(w) && w.P(p).lock.Held? && w.P(q).lock.Held?
    ensures p == q
  {
    assert ProcOk(w, p, w.P(p)) && ProcOk(w, q, w.P(q));
  }

  // ---------- lock.py ----------

  lemma BeginKeeps(w: World, p: Pid, op: Op)
    requires Inv(w) && StepBegin(w, p, op).Some?
    ensures Inv(StepBegin(w, p, op).value)
  {
    IdleOk(w, p);
    LocalKeeps(w, p, w.P(p).(op := Some(op)));
  }

  lemma GiveUpKeeps(w: World, p: Pid)
    requires Inv(w) && StepGiveUp(w, p).Some?
    ensures Inv(StepGiveUp(w, p).value)
  {
    IdleOk(w, p);
    LocalKeeps(w, p, w.P(p).(op := None, lock := Unlocked));
  }

  lemma CloseKeeps(w: World, p: Pid)
    requires Inv(w) && StepClose(w, p).Some?
    ensures Inv(StepClose(w, p).value)
  {
    IdleOk(w, p);
    LocalKeeps(w, p, IDLE.(seen := w.P(p).seen));
  }

  // ---------- storage.py: load ----------

  lemma CurrentContents(w: World)
    requires DirsOk(w)
    ensures Db in w.Cur().dir <==> w.At(|w.hist|).Some?
    ensures Db in w.Cur().dir ==> w.Cur().dir[Db] in w.published && w.published[w.Cur().dir[Db]] == |w.hist|
  {
    assert DirOk(w, w.dirs[|w.dirs| - 1]);
  }

  lemma LookKeeps(w: World, p: Pid)
    requires Inv(w) && StepLook(w, p).Some?
    ensures Inv(StepLook(w, p).value)
  {
    IdleOk(w, p);
    CurrentContents(w);
    var q := w.P(p);
    LocalKeeps(w, p,
      if Db in w.Cur().dir then q.(read := Found(w.Cur().ver))
      else q.(read := Got(None, w.Cur().ver, w.Cur().ver), seen := w.Cur().ver));
  }

  lemma OpenDbKeeps(w: World, p: Pid)
    requires Inv(w) && StepOpenDb(w, p).Some?
    ensures Inv(StepOpenDb(w, p).value)
  {
    IdleOk(w, p);
    CurrentContents(w);
    var q := w.P(p);
    if Db in w.Cur().dir {
      assert FileOk(w, w.Cur().dir[Db]);
      LocalKeeps(w, p, q.(read := Reading(w.Cur().dir[Db], "", q.read.low)));
    } else {
      LocalKeeps(w, p, q.(read := NotReading));
    }
  }

  lemma ReaderOk(w: World, p: Pid, q: Proc, acc: Bytes)
    requires w.dirs != [] && ProcOk(w, p, q) && q.read.Reading? && q.read.ino in w.vol && acc <= w.vol[q.read.ino]
    ensures ProcOk(w, p, q.(read := q.read.(acc := acc)))
  {
  }

  lemma ReadMoreOk(acc: Bytes, all: Bytes, n: nat)
    requires acc <= all
    ensures ReadMore(acc, all, n) <= all
  {
    assert ReadMore(acc, all, n) == all[..Min(|acc| + n, |all|)];
  }

  lemma ReadChunkKeeps(w: World, p: Pid, n: nat)
    requires Inv(w) && StepReadChunk(w, p, n).Some?
    ensures Inv(StepReadChunk(w, p, n).value)
  {
    IdleOk(w, p);
    var q := w.P(p);
    var acc := ReadMore(q.read.acc, w.vol[q.read.ino], n);
    ReadMoreOk(q.read.acc, w.vol[q.read.ino], n);
    ReaderOk(w, p, q, acc);
    LocalKeeps(w, p, q.(read := q.read.(acc := acc)));
  }

  lemma ReadEndKeeps(w: World, p: Pid)
    requires Inv(w) && StepReadEnd(w, p).Some?
    ensures Inv(StepReadEnd(w, p).value)
  {
    IdleOk(w, p);
    var q := w.P(p);
    assert FileOk(w, q.read.ino);
    assert q.read.acc == w.vol[q.read.ino];
    var v := w.published[q.read.ino];
    LocalKeeps(w, p, q.(read := Got(Some(q.read.acc), v, q.read.low), seen := v));
  }

  lemma ReturnKeeps(w: World, p: Pid)
    requires Inv(w) && StepReturn(w, p).Some?
    ensures Inv(StepReturn(w, p).value)
  {
    IdleOk(w, p);
    LocalKeeps(w, p, w.P(p).(read := NotReading));
  }

  lemma AbortKeeps(w: World, p: Pid)
    requires Inv(w) && StepAbort(w, p).Some?
    ensures Inv(StepAbort(w, p).value)
  {
    IdleOk(w, p);
    LocalKeeps(w, p, w.P(p).(write := Finished(false)));
  }

  lemma SkipSyncKeeps(w: World, p: Pid)
    requires Inv(w) && StepSkipSync(w, p).Some?
    ensures Inv(StepSkipSync(w, p).value)
  {
    IdleOk(w, p);
    LocalKeeps(w, p, w.P(p).(write := Finished(true)));
  }

  // ---------- Steps that touch the file system or the lock table ----------

  /** Files and history after creating or writing a file nobody has published. */
  ghost predicate PrivateFiles(w: World, w': World) {
    && w'.hist == w.hist && w'.initial == w.initial && w'.published == w.published && w'.floor == w.floor
    && w.next <= w'.next && w'.tickets == w.tickets
    && (forall i :: i in w.published ==> SameFile(w, w', i))
  }

  lemma PrivateFilesOk(w: World, w': World)
    requires FilesOk(w) && PrivateFiles(w, w')
    ensures FilesOk(w')
  {
    forall i | i in w'.published ensures FileOk(w', i) {
      assert FileOk(w, i) && SameFile(w, w', i);
      assert w'.At(w.published[i]) == w.At(w.published[i]);
    }
  }

  lemma SameDirsOk(w: World, w': World)
    requires DirsOk(w) && PrivateFiles(w, w') && w'.dirs == w.dirs
    ensures DirsOk(w')
  {
    forall i | 0 <= i < |w'.dirs| ensures DirOk(w', w'.dirs[i]) {
      assert DirOk(w, w.dirs[i]);
      assert w'.At(w.dirs[i].ver) == w.At(w.dirs[i].ver);
    }
  }

  /** Adding a directory state that keeps the database entry. */
  lemma PushedDirsOk(w: World, w': World, d: Dir)
    requires DirsOk(w) && PrivateFiles(w, w') && w'.dirs == w.dirs + [Version(d, w.Cur().ver)]
    requires (Db in d <==> Db in w.Cur().dir) && (Db in d ==> d[Db] == w.Cur().dir[Db])
    requires forall n :: n in d ==> d[n] < w'.next
    ensures DirsOk(w')
  {
    CurrentContents(w);
    forall i | 0 <= i < |w'.dirs| ensures DirOk(w', w'.dirs[i]) {
      if i < |w.dirs| {
        assert DirOk(w, w.dirs[i]);
      }
      assert w'.At(w'.dirs[i].ver) == w.At(w'.dirs[i].ver);
    }
    assert forall i :: 0 <= i < |w.dirs| ==> w'.dirs[i] == w.dirs[i];
  }

  lemma NamesBelow(w: World)
    requires DirsOk(w)
    ensures forall n :: n in w.Cur().dir ==> w.Cur().dir[n] < w.next
  {
    assert DirOk(w, w.dirs[|w.dirs| - 1]);
  }

  lemma PublishedBelow(w: World)
    requires FilesOk(w)
    ensures w.next !in w.published
  {
    assert forall i :: i in w.published ==> FileOk(w, i);
  }

  /** The world with a new empty file under a name that was free. */
  function NewFile(w: World, name: Name): World
    requires w.dirs != []
  {
    w.Push(w.Cur().dir[name := w.next]).(next := w.next + 1, vol := w.vol[w.next := ""])
  }

  lemma NewFileKeepsFs(w: World, name: Name)
    requires FsOk(w) && name != Db && name !in w.Cur().dir
    ensures FsOk(NewFile(w, name))
  {
    var w' := NewFile(w, name);
    NamesBelow(w);
    PublishedBelow(w);
    forall i | i in w.published ensures SameFile(w, w', i) {
      assert FileOk(w, i);
    }
    PrivateFilesOk(w, w');
    PushedDirsOk(w, w', w.Cur().dir[name := w.next]);
    SameHistOk(w, w');
  }

  /** Nobody relies on a file that did not exist. */
  lemma NewFileUnseen(w: World, name: Name, p: Pid)
    requires Inv(w) && name != Db && name !in w.Cur().dir && p in w.procs
    ensures Rely(w, NewFile(w, name), p, w.procs[p])
  {
    var w' := NewFile(w, name);
    assert ProcOk(w, p, w.procs[p]);
    forall i | i in w.published && i in w.vol
      ensures i in w'.published && w'.published[i] == w.published[i] && i in w'.vol && w'.vol[i] == w.vol[i]
    {
      assert FileOk(w, i);
    }
  }

  lemma NewFileKeeps(w: World, name: Name)
    requires Inv(w) && name != Db && name !in w.Cur().dir
    ensures Inv(NewFile(w, name))
  {
    var w' := NewFile(w, name);
    NewFileKeepsFs(w, name);
    forall q | q in w'.procs ensures ProcOk(w', q, w'.procs[q]) {
      NewFileUnseen(w, name, q);
      ProcStable(w, w', q, w.procs[q]);
    }
  }

  lemma OpenLockKeeps(w: World, p: Pid)
    requires Inv(w) && StepOpenLock(w, p).Some?
    ensures Inv(StepOpenLock(w, p).value)
  {
    IdleOk(w, p);
    var q := w.P(p);
    if LockFile in w.Cur().dir {
      LocalKeeps(w, p, q.(lock := Opened(w.Cur().dir[LockFile])));
    } else {
      NewFileKeeps(w, LockFile);
      IdleOk(NewFile(w, LockFile), p);
      LocalKeeps(NewFile(w, LockFile), p, q.(lock := Opened(w.next)));
    }
  }

  /** What a process has read stays valid while published files and history grow. */
  lemma ReadStable(w: World, w': World, q: Proc)
    requires ReadOk(w, q) && w.hist <= w'.hist && w'.initial == w.initial
    requires forall i :: i in w.published && i in w.vol ==>
      i in w'.published && w'.published[i] == w.published[i] && i in w'.vol && w'.vol[i] == w.vol[i]
    ensures ReadOk(w', q)
  {
    if q.read.Got? {
      Prefixed(w, w', q.read.ver);
    }
  }

  lemma TicketIsLater(w: World)
    requires HistOk(w)
    ensures Later(w, w.tickets)
  {
    forall i | 0 <= i < |w.hist| ensures w.hist[i].ticket < w.tickets {
      assert CommitOk(w, i);
    }
  }

  lemma TryLockKeepsHolder(w: World, p: Pid)
    requires Inv(w) && StepTryLock(w, p).Some? && StepTryLock(w, p).value != w
    ensures var w' := StepTryLock(w, p).value; ProcOk(w', p, w'.P(p))
  {
    var w' := StepTryLock(w, p).value;
    IdleOk(w, p);
    TicketIsLater(w);
    assert Later(w', w.tickets);
  }

  lemma TryLockKeeps(w: World, p: Pid)
    requires Inv(w) && StepTryLock(w, p).Some?
    ensures Inv(StepTryLock(w, p).value)
  {
    var w' := StepTryLock(w, p).value;
    if w' != w {
      SameFilesOk(w, w');
      SameHistOk(w, w');
      TryLockKeepsHolder(w, p);
      assert FlockOk(w') by {
        assert w.P(p).lock.Opened?;
      }
      forall q | q in w.procs && q != p ensures Rely(w, w', q, w.procs[q]) {
        assert ProcOk(w, q, w.procs[q]);
      }
      StepKeeps(w, w', p);
    }
  }

  lemma UnlockKeeps(w: World, p: Pid)
    requires Inv(w) && StepUnlock(w, p).Some?
    ensures Inv(StepUnlock(w, p).value)
  {
    var w' := StepUnlock(w, p).value;
    IdleOk(w, p);
    SameFilesOk(w, w');
    SameHistOk(w, w');
    ReadStable(w, w', w.P(p));
    forall q | q in w.procs && q != p ensures Rely(w, w', q, w.procs[q]) {
      if w.procs[q].lock.Held? {
        OneHolder(w, p, q);
      }
    }
    StepKeeps(w, w', p);
  }

  // ---------- atomic.py ----------

  /** While `p` holds the lock, nobody else can tell that it writes a private file. */
  lemma HolderWritesUnseen(w: World, w': World, p: Pid)
    requires Inv(w) && w'.dirs != [] && w.P(p).lock.Held? && PrivateFiles(w, w') && w'.flock == w.flock
    requires LockFile in w.Cur().dir ==> LockFile in w'.Cur().dir && w'.Cur().dir[LockFile] == w.Cur().dir[LockFile]
    ensures forall q :: q in w.procs && q != p ==> Rely(w, w', q, w.procs[q])
  {
    forall q | q in w.procs && q != p ensures Rely(w, w', q, w.procs[q]) {
      if w.procs[q].lock.Held? {
        OneHolder(w, p, q);
      }
      forall i | i in w.published && i in w.vol
        ensures i in w'.published && w'.published[i] == w.published[i] && i in w'.vol && w'.vol[i] == w.vol[i]
      {
        assert SameFile(w, w', i);
      }
    }
  }

  /** What `p` can be sure of when it has the data to write. */
  lemma DataIsOutcome(w: World, p: Pid)
    requires Inv(w) && w.P(p).lock.Held? && w.P(p).write.NotWriting? && DataToWrite(w.P(p)).Some?
    ensures w.P(p).op.Some? && Outcome(w.P(p).op.value, w.At(|w.hist|)) == DataToWrite(w.P(p))
  {
    IdleOk(w, p);
  }

  lemma MkTempKeeps(w: World, p: Pid, tmp: nat)
    requires Inv(w) && StepMkTemp(w, p, tmp).Some?
    ensures Inv(StepMkTemp(w, p, tmp).value)
  {
    IdleOk(w, p);
    DataIsOutcome(w, p);
    PublishedBelow(w);
    var w1 := NewFile(w, Temp(tmp));
    NewFileKeeps(w, Temp(tmp));
    IdleOk(w1, p);
    assert w1.At(|w.hist|) == w.At(|w.hist|);
    LocalKeeps(w1, p, w.P(p).(write := Writing(tmp, w.next, DataToWrite(w.P(p)).value)));
  }

  lemma WriteChunkKeeps(w: World, p: Pid, n: nat)
    requires Inv(w) && StepWriteChunk(w, p, n).Some?
    ensures Inv(StepWriteChunk(w, p, n).value)
  {
    var w' := StepWriteChunk(w, p, n).value;
    IdleOk(w, p);
    PrivateFilesOk(w, w');
    SameDirsOk(w, w');
    SameHistOk(w, w');
    HolderWritesUnseen(w, w', p);
    ReadStable(w, w', w.P(p));
    WriterOk(w, w', w.P(p));
    StepKeeps(w, w', p);
  }

  lemma WriterOk(w: World, w': World, q: Proc)
    requires HolderOk(w, q) && q.write.Writing? && w'.hist == w.hist && w'.initial == w.initial
    requires w'.published == w.published && w.next <= w'.next
    requires q.write.ino in w'.vol && w'.vol[q.write.ino] <= q.write.data
    ensures HolderOk(w', q)
  {
    assert w'.At(|w.hist|) == w.At(|w.hist|);
  }

  lemma FsyncKeeps(w: World, p: Pid)
    requires Inv(w) && StepFsync(w, p).Some?
    ensures Inv(StepFsync(w, p).value)
  {
    var w' := StepFsync(w, p).value;
    IdleOk(w, p);
    PrivateFilesOk(w, w');
    SameDirsOk(w, w');
    SameHistOk(w, w');
    HolderWritesUnseen(w, w', p);
    ReadStable(w, w', w.P(p));
    assert w'.At(|w.hist|) == w.At(|w.hist|);
    StepKeeps(w, w', p);
  }

  lemma FailWriteKeeps(w: World, p: Pid, unlinked: bool)
    requires Inv(w) && StepFailWrite(w, p, unlinked).Some?
    ensures Inv(StepFailWrite(w, p, unlinked).value)
  {
    IdleOk(w, p);
    var q := w.P(p).(write := Finished(false));
    if unlinked {
      UnlinkKeeps(w, p);
      var w1 := w.Push(w.Cur().dir - {Temp(w.P(p).write.tmp)});
      IdleOk(w1, p);
      LocalKeeps(w1, p, q);
    } else {
      LocalKeeps(w, p, q);
    }
  }

  lemma UnlinkKeeps(w: World, p: Pid)
    requires Inv(w) && (w.P(p).write.Writing? || w.P(p).write.Synced?)
    ensures Inv(w.Push(w.Cur().dir - {Temp(w.P(p).write.tmp)}))
  {
    var d := w.Cur().dir - {Temp(w.P(p).write.tmp)};
    var w' := w.Push(d);
    IdleOk(w, p);
    NamesBelow(w);
    PrivateFilesOk(w, w');
    PushedDirsOk(w, w', d);
    SameHistOk(w, w');
    HolderWritesUnseen(w, w', p);
    ReadStable(w, w', w.P(p));
    assert w'.At(|w.hist|) == w.At(|w.hist|);
    StepKeeps(w, w', p);
  }

  lemma AtExtends(w: World, w': World, n: nat)
    requires w.hist <= w'.hist && w'.initial == w.initial && n <= |w.hist|
    ensures w'.At(n) == w.At(n)
  {
  }

  /** The rename publishes the synced file as the next version. */
  lemma ReplaceKeepsOldDir(w: World, p: Pid, v: Version)
    requires Inv(w) && StepReplace(w, p).Some? && v in w.dirs
    ensures DirOk(StepReplace(w, p).value, v)
  {
    var i :| 0 <= i < |w.dirs| && w.dirs[i] == v;
    assert DirOk(w, w.dirs[i]);
    IdleOk(w, p);
    AtExtends(w, StepReplace(w, p).value, v.ver);
  }

  lemma ReplaceMakesDir(w: World, p: Pid)
    requires Inv(w) && StepReplace(w, p).Some?
    ensures var w' := StepReplace(w, p).value; w'.dirs != [] && DirOk(w', w'.Cur()) && w'.Cur().ver == |w'.hist|
  {
    IdleOk(w, p);
    NamesBelow(w);
  }

  lemma ReplaceKeepsDirs(w: World, p: Pid)
    requires Inv(w) && StepReplace(w, p).Some?
    ensures DirsOk(StepReplace(w, p).value)
  {
    hide DirOk;
    var w' := StepReplace(w, p).value;
    forall i | 0 <= i < |w'.dirs| ensures DirOk(w', w'.dirs[i]) && w'.dirs[i].ver <= |w'.hist| {
      if i < |w.dirs| {
        ReplaceKeepsOldDir(w, p, w.dirs[i]);
        DirBelow(w, i);
      } else {
        ReplaceMakesDir(w, p);
      }
    }
    ReplaceMakesDir(w, p);
    assert forall i :: 0 <= i < |w.dirs| ==> w'.dirs[i] == w.dirs[i];
  }

  lemma DirBelow(w: World, i: nat)
    requires FsOk(w) && i < |w.dirs|
    ensures w.dirs[i].ver <= |w.hist|
  {
    assert DirOk(w, w.dirs[i]);
  }

  lemma ReplaceKeepsFiles(w: World, p: Pid)
    requires Inv(w) && StepReplace(w, p).Some?
    ensures FilesOk(StepReplace(w, p).value)
  {
    var w' := StepReplace(w, p).value;
    IdleOk(w, p);
    forall i | i in w'.published ensures FileOk(w', i) {
      if i != w.P(p).write.ino {
        assert FileOk(w, i);
        AtExtends(w, w', w.published[i]);
      }
    }
  }

  lemma HistGrows(w: World, w': World, c: Committed)
    requires HistOk(w) && w'.hist == w.hist + [c] && w'.initial == w.initial && w'.tickets == w.tickets
    requires Later(w, c.ticket) && c.ticket < w.tickets && Outcome(c.op, w.At(|w.hist|)) == Some(c.data)
    ensures HistOk(w')
  {
    forall i | 0 <= i < |w'.hist| ensures CommitOk(w', i) {
      AtExtends(w, w', i);
      assert i < |w.hist| ==> CommitOk(w, i);
    }
  }

  lemma ReplaceKeepsHist(w: World, p: Pid)
    requires Inv(w) && StepReplace(w, p).Some?
    ensures HistOk(StepReplace(w, p).value)
  {
    IdleOk(w, p);
    var q := w.P(p);
    HistGrows(w, StepReplace(w, p).value, Committed(q.op.value, q.lock.ticket, q.write.data));
  }

  lemma ReplaceKeepsWriter(w: World, p: Pid)
    requires Inv(w) && StepReplace(w, p).Some?
    ensures var w' := StepReplace(w, p).value; ProcOk(w', p, w'.P(p))
  {
    IdleOk(w, p);
    ReadStable(w, StepReplace(w, p).value, w.P(p));
  }

  lemma ReplaceKeepsFlock(w: World, p: Pid)
    requires Inv(w) && StepReplace(w, p).Some?
    ensures FlockOk(StepReplace(w, p).value)
  {
  }

  lemma ReplaceUnseen(w: World, p: Pid, q: Pid)
    requires Inv(w) && StepReplace(w, p).Some? && q in w.procs && q != p
    ensures Rely(w, StepReplace(w, p).value, q, w.procs[q])
  {
    IdleOk(w, p);
    if w.procs[q].lock.Held? {
      OneHolder(w, p, q);
    }
  }

  lemma ReplaceKeeps(w: World, p: Pid)
    requires Inv(w) && StepReplace(w, p).Some?
    ensures Inv(StepReplace(w, p).value)
  {
    var w' := StepReplace(w, p).value;
    ReplaceKeepsDirs(w, p);
    ReplaceKeepsFiles(w, p);
    ReplaceKeepsHist(w, p);
    ReplaceKeepsFlock(w, p);
    ReplaceKeepsWriter(w, p);
    forall q | q in w.procs && q != p ensures Rely(w, w', q, w.procs[q]) {
      ReplaceUnseen(w, p, q);
    }
    StepKeeps(w, w', p);
  }

  lemma SyncParentKeeps(w: World, p: Pid)
    requires Inv(w) && StepSyncParent(w, p).Some?
    ensures Inv(StepSyncParent(w, p).value)
  {
    hide Inv;
    SkipSyncKeeps(w, p);
    TrimKeeps(StepSkipSync(w, p).value);
  }

  /** Making the current directory durable. */
  lemma TrimKeeps(w: World)
    requires Inv(w)
    ensures Inv(w.(dirs := [w.Cur()], floor := w.Cur().ver))
  {
    var w' := w.(dirs := [w.Cur()], floor := w.Cur().ver);
    assert DirOk(w, w.Cur());
    assert w'.At(w.Cur().ver) == w.At(w.Cur().ver);
    forall i | i in w'.published ensures FileOk(w', i) {
      assert FileOk(w, i);
      assert w'.At(w.published[i]) == w.At(w.published[i]);
    }
    SameHistOk(w, w');
    forall q | q in w'.procs ensures ProcOk(w', q, w'.procs[q]) {
      ProcStable(w, w', q, w.procs[q]);
    }
  }

  // ---------- Failures ----------

  lemma KillKeeps(w: World, p: Pid)
    requires Inv(w)
    ensures Inv(StepKill(w, p))
  {
    hide ProcOk, Rely;
    var w' := StepKill(w, p);
    KillKeepsFiles(w, p);
    forall q | q in w'.procs ensures ProcOk(w', q, w'.procs[q]) {
      KillUnnoticed(w, p, q);
      ProcStable(w, w', q, w.procs[q]);
    }
  }

  lemma KillKeepsFiles(w: World, p: Pid)
    requires FsOk(w)
    ensures FsOk(StepKill(w, p))
  {
    SameFilesOk(w, StepKill(w, p));
    SameHistOk(w, StepKill(w, p));
  }

  lemma KillUnnoticed(w: World, p: Pid, q: Pid)
    requires Inv(w) && q in w.procs && q != p
    ensures Rely(w, StepKill(w, p), q, w.procs[q])
  {
  }

  lemma AtTruncated(w: World, w': World, v: nat, n: nat)
    requires n <= v <= |w.hist| && w'.hist == w.hist[..v] && w'.initial == w.initial
    ensures w'.At(n) == w.At(n)
  {
  }

  lemma PowerLossKeepsFiles(w: World, k: nat, junk: map<Ino, Bytes>)
    requires FsOk(w) && StepPowerLoss(w, k, junk).Some?
    ensures FilesOk(StepPowerLoss(w, k, junk).value)
  {
    var w' := StepPowerLoss(w, k, junk).value;
    assert DirOk(w, w.dirs[k]);
    forall i | i in w'.published ensures FileOk(w', i) {
      assert FileOk(w, i);
      AtTruncated(w, w', w.dirs[k].ver, w.published[i]);
    }
  }

  lemma HistShrinks(w: World, w': World, v: nat)
    requires HistOk(w) && v <= |w.hist|
    requires w'.hist == w.hist[..v] && w'.initial == w.initial && w'.tickets == w.tickets
    ensures HistOk(w')
  {
    forall i | 0 <= i < |w'.hist| ensures CommitOk(w', i) {
      assert CommitOk(w, i);
      AtTruncated(w, w', v, i);
    }
  }

  /** Whatever a power loss leaves of the directory and of unsynced files, the invariant holds of it. */
  lemma PowerLossKeeps(w: World, k: nat, junk: map<Ino, Bytes>)
    requires Inv(w) && StepPowerLoss(w, k, junk).Some?
    ensures Inv(StepPowerLoss(w, k, junk).value)
  {
    var w' := StepPowerLoss(w, k, junk).value;
    var v := w.dirs[k].ver;
    assert DirOk(w, w.dirs[k]);
    AtTruncated(w, w', v, v);
    PowerLossKeepsFiles(w, k, junk);
    HistShrinks(w, w', v);
  }

  // ---------- What each step leaves alone ----------

  /** The inode whose contents a step may change. */
  function Touched(w: World, e: Event): Ino {
    match e
    case WriteChunk(p, _) => if w.P(p).write.Writing? then w.P(p).write.ino else w.next
    case Fsync(p) => if w.P(p).write.Writing? then w.P(p).write.ino else w.next
    case _ => w.next
  }

  /** Commits, other processes and the contents of other inodes are as they were. */
  ghost predicate Local(w: World, w': World, p: Pid, i: Ino) {
    && w'.dirs != [] && w'.hist == w.hist && w'.initial == w.initial && w'.published == w.published
    && (forall q :: q != p ==> w'.P(q) == w.P(q))
    && (forall j :: j != i && j in w.vol ==> j in w'.vol && w'.vol[j] == w.vol[j])
    && (forall j :: j != i && j in w.dur ==> j in w'.dur && w'.dur[j] == w.dur[j])
  }

  /** What every step but the rename and a power loss keeps. */
  ghost predicate LeavesAlone(w: World, e: Event, w': World)
    requires !e.PowerLoss?
  {
    && w.dirs != [] && Local(w, w', e.p, Touched(w, e))
    && (!e.SyncParent? ==> w'.floor == w.floor)
    && (!e.Look? && !e.ReadEnd? && !e.Kill? ==> w'.P(e.p).seen == w.P(e.p).seen)
  }

  lemma LockStepIsLocal(w: World, e: Event)
    requires e.Begin? || e.OpenLock? || e.TryLock? || e.GiveUp?
    requires Step(w, e).Some?
    ensures LeavesAlone(w, e, Step(w, e).value)
  {
    hide StepLook, StepOpenDb, StepReadChunk, StepReadEnd, StepReturn, StepAbort, StepMkTemp, StepWriteChunk,
      StepFsync, StepReplace, StepSyncParent, StepSkipSync, StepFailWrite, StepUnlock, StepClose, StepKill,
      StepPowerLoss;
  }

  lemma ReleaseStepIsLocal(w: World, e: Event)
    requires e.Unlock? || e.Close? || e.Kill? || e.Abort? || e.Return?
    requires Step(w, e).Some?
    ensures LeavesAlone(w, e, Step(w, e).value)
  {
    hide StepBegin, StepOpenLock, StepTryLock, StepGiveUp, StepLook, StepOpenDb, StepReadChunk, StepReadEnd,
      StepMkTemp, StepWriteChunk, StepFsync, StepReplace, StepSyncParent, StepSkipSync, StepFailWrite, StepPowerLoss;
  }

  lemma OpenStepIsLocal(w: World, e: Event)
    requires e.OpenDb? || e.ReadChunk?
    requires Step(w, e).Some?
    ensures LeavesAlone(w, e, Step(w, e).value)
  {
    hide StepBegin, StepOpenLock, StepTryLock, StepGiveUp, StepLook, StepReadEnd, StepReturn, StepAbort, StepMkTemp,
      StepWriteChunk, StepFsync, StepReplace, StepSyncParent, StepSkipSync, StepFailWrite, StepUnlock, StepClose,
      StepKill, StepPowerLoss;
  }

  lemma ReadStepIsLocal(w: World, e: Event)
    requires e.Look? || e.ReadEnd?
    requires Step(w, e).Some?
    ensures LeavesAlone(w, e, Step(w, e).value)
  {
    hide StepBegin, StepOpenLock, StepTryLock, StepGiveUp, StepOpenDb, StepReadChunk, StepReturn, StepAbort,
      StepMkTemp, StepWriteChunk, StepFsync, StepReplace, StepSyncParent, StepSkipSync, StepFailWrite, StepUnlock,
      StepClose, StepKill, StepPowerLoss;
  }

  lemma WriteStepIsLocal(w: World, e: Event)
    requires e.MkTemp? || e.WriteChunk? || e.Fsync?
    requires Step(w, e).Some?
    ensures LeavesAlone(w, e, Step(w, e).value)
  {
    hide StepBegin, StepOpenLock, StepTryLock, StepGiveUp, StepLook, StepOpenDb, StepReadChunk, StepReadEnd,
      StepReturn, StepAbort, StepReplace, StepSyncParent, StepSkipSync, StepFailWrite, StepUnlock, StepClose,
      StepKill, StepPowerLoss;
  }

  lemma EndWriteStepIsLocal(w: World, e: Event)
    requires e.SyncParent? || e.SkipSync? || e.FailWrite?
    requires Step(w, e).Some?
    ensures LeavesAlone(w, e, Step(w, e).value)
  {
    hide StepBegin, StepOpenLock, StepTryLock, StepGiveUp, StepLook, StepOpenDb, StepReadChunk, StepReadEnd,
      StepReturn, StepAbort, StepMkTemp, StepWriteChunk, StepFsync, StepReplace, StepUnlock, StepClose, StepKill,
      StepPowerLoss;
  }

  lemma StepIsLocal(w: World, e: Event)
    requires Step(w, e).Some? && !e.PowerLoss? && !e.Replace?
    ensures LeavesAlone(w, e, Step(w, e).value)
  {
    hide Step, LeavesAlone;
    match e
    case Begin(_, _) | OpenLock(_) | TryLock(_) | GiveUp(_) => LockStepIsLocal(w, e);
    case Unlock(_) | Close(_) | Kill(_) | Abort(_) | Return(_) => ReleaseStepIsLocal(w, e);
    case OpenDb(_) | ReadChunk(_, _) => OpenStepIsLocal(w, e);
    case Look(_) | ReadEnd(_) => ReadStepIsLocal(w, e);
    case MkTemp(_, _) | WriteChunk(_, _) | Fsync(_) => WriteStepIsLocal(w, e);
    case _ => EndWriteStepIsLocal(w, e);
  }

  lemma StepNeedsDirs(w: World, e: Event)
    requires Step(w, e).Some?
    ensures w.dirs != []
  {
    hide StepBegin, StepOpenLock, StepTryLock, StepGiveUp, StepLook, StepOpenDb, StepReadChunk, StepReadEnd,
      StepReturn, StepAbort, StepMkTemp, StepWriteChunk, StepFsync, StepReplace, StepSyncParent, StepSkipSync,
      StepFailWrite, StepUnlock, StepClose, StepKill, StepPowerLoss;
  }

  /** The step function, event by event. */
  lemma StepIs(w: World)
    requires w.dirs != []
    ensures forall p, op :: Step(w, Begin(p, op)) == StepBegin(w, p, op)
    ensures forall p :: Step(w, OpenLock(p)) == StepOpenLock(w, p)
    ensures forall p :: Step(w, TryLock(p)) == StepTryLock(w, p)
    ensures forall p :: Step(w, GiveUp(p)) == StepGiveUp(w, p)
    ensures forall p :: Step(w, Look(p)) == StepLook(w, p)
    ensures forall p :: Step(w, OpenDb(p)) == StepOpenDb(w, p)
    ensures forall p, n :: Step(w, ReadChunk(p, n)) == StepReadChunk(w, p, n)
    ensures forall p :: Step(w, ReadEnd(p)) == StepReadEnd(w, p)
    ensures forall p :: Step(w, Abort(p)) == StepAbort(w, p)
    ensures forall p, tmp :: Step(w, MkTemp(p, tmp)) == StepMkTemp(w, p, tmp)
    ensures forall p, n :: Step(w, WriteChunk(p, n)) == StepWriteChunk(w, p, n)
    ensures forall p :: Step(w, Fsync(p)) == StepFsync(w, p)
    ensures forall p :: Step(w, Replace(p)) == StepReplace(w, p)
    ensures forall p :: Step(w, SyncParent(p)) == StepSyncParent(w, p)
    ensures forall p :: Step(w, SkipSync(p)) == StepSkipSync(w, p)
    ensures forall p, u :: Step(w, FailWrite(p, u)) == StepFailWrite(w, p, u)
    ensures forall p :: Step(w, Unlock(p)) == StepUnlock(w, p)
    ensures forall p :: Step(w, Close(p)) == StepClose(w, p)
    ensures forall k, junk :: Step(w, PowerLoss(k, junk)) == StepPowerLoss(w, k, junk)
  {
    hide StepBegin, StepOpenLock, StepTryLock, StepGiveUp, StepLook, StepOpenDb, StepReadChunk, StepReadEnd,
      StepReturn, StepAbort, StepMkTemp, StepWriteChunk, StepFsync, StepReplace, StepSyncParent, StepSkipSync,
      StepFailWrite, StepUnlock, StepClose, StepKill, StepPowerLoss;
  }

  // ---------- Every run ----------

  lemma StartOk(w: World)
    requires Start(w)
    ensures Inv(w)
  {
  }

  lemma StepKeepsInv(w: World, e: Event)
    requires Inv(w) && Step(w, e).Some?
    ensures Inv(Step(w, e).value)
  {
    hide Inv, StepBegin, StepOpenLock, StepTryLock, StepGiveUp, StepLook, StepOpenDb, StepReadChunk, StepReadEnd,
      StepReturn, StepAbort, StepMkTemp, StepWriteChunk, StepFsync, StepReplace, StepSyncParent, StepSkipSync,
      StepFailWrite, StepUnlock, StepClose, StepKill, StepPowerLoss;
    match e
    case Begin(p, op) => BeginKeeps(w, p, op);
    case OpenLock(p) => OpenLockKeeps(w, p);
    case TryLock(p) => TryLockKeeps(w, p);
    case GiveUp(p) => GiveUpKeeps(w, p);
    case Look(p) => LookKeeps(w, p);
    case OpenDb(p) => OpenDbKeeps(w, p);
    case ReadChunk(p, n) => ReadChunkKeeps(w, p, n);
    case ReadEnd(p) => ReadEndKeeps(w, p);
    case Return(p) => ReturnKeeps(w, p);
    case Abort(p) => AbortKeeps(w, p);
    case MkTemp(p, tmp) => MkTempKeeps(w, p, tmp);
    case WriteChunk(p, n) => WriteChunkKeeps(w, p, n);
    case Fsync(p) => FsyncKeeps(w, p);
    case Replace(p) => ReplaceKeeps(w, p);
    case SyncParent(p) => SyncParentKeeps(w, p);
    case SkipSync(p) => SkipSyncKeeps(w, p);
    case FailWrite(p, unlinked) => FailWriteKeeps(w, p, unlinked);
    case Unlock(p) => UnlockKeeps(w, p);
    case Close(p) => CloseKeeps(w, p);
    case Kill(p) => KillKeeps(w, p);
    case PowerLoss(k, junk) => PowerLossKeeps(w, k, junk);
  }

  /** The invariant holds in every state of every run. */
  lemma {:induction false} RunKeepsInv(w: World, es: seq<Event>)
    requires Inv(w) && Run(w, es).Some?
    ensures Inv(Run(w, es).value)
    decreases |es|
  {
    if es != [] {
      RunKeepsInv(w, es[..|es| - 1]);
      StepKeepsInv(Run(w, es[..|es| - 1]).value, es[|es| - 1]);
    }
  }
}
