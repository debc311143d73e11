/**
  The commit protocol of lock.py, atomic.py and storage.py as a step machine:
  any number of processes lock, read, write a temporary file, replace and
  release; readers take no lock; processes and the machine may fail at any step.
 */
module Protocol {
  import opened Wrappers

  type Bytes = string
  type Ino = nat
  type Pid = nat

  datatype Name = Db | LockFile | Temp(n: nat)
  type Dir = map<Name, Ino>

  /** What is at the database path: nothing, or a file. */
  type Contents = Option<Bytes>

  /** One locked operation: an `update`, a transaction or a `create_empty`. `None` is an exception before the commit. */
  datatype Op =
    | Update(f: Contents -> Option<Bytes>)
    | Create(force: bool, empty: Bytes)

  function Outcome(op: Op, c: Contents): Option<Bytes> {
    match op
    case Update(f) => f(c)
    case Create(force, empty) => if c.Some? && !force then None else Some(empty)
  }

  datatype LockPc = Unlocked | Opened(ino: Ino) | Held(ino: Ino, ticket: nat)

  /** `low` is the newest version when the read began; `ver` is the version that was read. */
  datatype ReadPc =
    | NotReading
    | Found(low: nat)
    | Reading(ino: Ino, acc: Bytes, low: nat)
    | Got(contents: Contents, ver: nat, low: nat)

  datatype WritePc =
    | NotWriting
    | Writing(tmp: nat, ino: Ino, data: Bytes)
    | Synced(tmp: nat, ino: Ino, data: Bytes)
    | Replaced
    | Finished(ok: bool)

  /** A process, or one `Database` in it. `seen` is the newest version it has read. */
  datatype Proc = Proc(op: Option<Op>, lock: LockPc, read: ReadPc, write: WritePc, seen: nat)

  const IDLE := Proc(None, Unlocked, NotReading, NotWriting, 0)

  /** A directory with the number of commits the database path has seen in it. */
  datatype Version = Version(dir: Dir, ver: nat)

  datatype Committed = Committed(op: Op, ticket: nat, data: Bytes)

  /**
    `dirs` are the directory states since the last directory fsync: the first
    one is durable, the last one is current, and a power loss may leave any of
    them. `vol` is what reads return, `dur` what an fsync has secured. The other
    fields after `procs` are history: commits in order, the contents they
    started from, the version each published inode holds, and the newest
    version an fsync of the directory has secured.
   */
  datatype World = World(
    dirs: seq<Version>, vol: map<Ino, Bytes>, dur: map<Ino, Bytes>, next: Ino,
    flock: map<Ino, Pid>, procs: map<Pid, Proc>,
    hist: seq<Committed>, initial: Contents, published: map<Ino, nat>, floor: nat, tickets: nat)
  {
    function Cur(): Version
      requires dirs != []
    {
      dirs[|dirs| - 1]
    }

    function P(p: Pid): Proc {
      if p in procs then procs[p] else IDLE
    }

    /** What the database path held after `n` commits. */
    function At(n: nat): Contents
      requires n <= |hist|
    {
      if n == 0 then initial else Some(hist[n - 1].data)
    }

    function With(p: Pid, q: Proc): World {
      this.(procs := procs[p := q])
    }

    function Push(d: Dir): World
      requires dirs != []
    {
      this.(dirs := dirs + [Version(d, Cur().ver)])
    }
  }

  datatype Event =
    | Begin(p: Pid, op: Op)
    | OpenLock(p: Pid)
    | TryLock(p: Pid)
    | GiveUp(p: Pid)
    | Look(p: Pid)
    | OpenDb(p: Pid)
    | ReadChunk(p: Pid, n: nat)
    | ReadEnd(p: Pid)
    | Return(p: Pid)
    | Abort(p: Pid)
    | MkTemp(p: Pid, tmp: nat)
    | WriteChunk(p: Pid, n: nat)
    | Fsync(p: Pid)
    | Replace(p: Pid)
    | SyncParent(p: Pid)
    | SkipSync(p: Pid)
    | FailWrite(p: Pid, unlinked: bool)
    | Unlock(p: Pid)
    | Close(p: Pid)
    | Kill(p: Pid)
    | PowerLoss(k: nat, junk: map<Ino, Bytes>)

  predicate MayRead(q: Proc) {
    q.read.NotReading? && (q.op.None? || (q.lock.Held? && q.write.NotWriting?))
  }

  /** The bytes the holder of the lock is about to write. */
  function DataToWrite(q: Proc): Option<Bytes> {
    match q.op
    case None => None
    case Some(Update(f)) => if q.read.Got? then f(q.read.contents) else None
    case Some(Create(force, empty)) =>
      if (q.read.Got? && q.read.contents.None?) || (q.read.Found? && force) then Some(empty) else None
  }

  function Min(a: nat, b: nat): nat {
    if a < b then a else b
  }

  /** The world after an event, if the event can happen. */
  function Step(w: World, e: Event): Option<World> {
    if w.dirs == [] then None
    else match e
      case Begin(p, op) => StepBegin(w, p, op)
      case OpenLock(p) => StepOpenLock(w, p)
      case TryLock(p) => StepTryLock(w, p)
      case GiveUp(p) => StepGiveUp(w, p)
      case Look(p) => StepLook(w, p)
      case OpenDb(p) => StepOpenDb(w, p)
      case ReadChunk(p, n) => StepReadChunk(w, p, n)
      case ReadEnd(p) => StepReadEnd(w, p)
      case Return(p) => StepReturn(w, p)
      case Abort(p) => StepAbort(w, p)
      case MkTemp(p, tmp) => StepMkTemp(w, p, tmp)
      case WriteChunk(p, n) => StepWriteChunk(w, p, n)
      case Fsync(p) => StepFsync(w, p)
      case Replace(p) => StepReplace(w, p)
      case SyncParent(p) => StepSyncParent(w, p)
      case SkipSync(p) => StepSkipSync(w, p)
      case FailWrite(p, unlinked) => StepFailWrite(w, p, unlinked)
      case Unlock(p) => StepUnlock(w, p)
      case Close(p) => StepClose(w, p)
      case Kill(p) => Some(StepKill(w, p))
      case PowerLoss(k, junk) => StepPowerLoss(w, k, junk)
  }

  // ---------- lock.py ----------

  function StepBegin(w: World, p: Pid, op: Op): Option<World> {
    var q := w.P(p);
    if q.op.None? && q.read.NotReading? then Some(w.With(p, q.(op := Some(op)))) else None
  }

  /** `open(path, "a+b")`: creates the lock file if it is missing. */
  function StepOpenLock(w: World, p: Pid): Option<World>
    requires w.dirs != []
  {
    var q := w.P(p);
    var d := w.Cur().dir;
    if !(q.op.Some? && q.lock.Unlocked? && q.write.NotWriting?) then None
    else if LockFile in d then Some(w.With(p, q.(lock := Opened(d[LockFile]))))
    else
      var w1 := w.Push(d[LockFile := w.next]).(next := w.next + 1, vol := w.vol[w.next := ""]);
      Some(w1.With(p, q.(lock := Opened(w.next))))
  }

  /** `flock(LOCK_EX | LOCK_NB)`: nothing happens while another handle holds the inode. */
  function StepTryLock(w: World, p: Pid): Option<World> {
    var q := w.P(p);
    if !(q.lock.Opened? && q.write.NotWriting?) then None
    else if q.lock.ino in w.flock then Some(w)
    else
      var w1 := w.(flock := w.flock[q.lock.ino := p], tickets := w.tickets + 1);
      Some(w1.With(p, q.(lock := Held(q.lock.ino, w.tickets))))
  }

  /** The deadline has passed: close the handle and raise LockError. */
  function StepGiveUp(w: World, p: Pid): Option<World> {
    var q := w.P(p);
    if q.lock.Opened? && q.write.NotWriting? then Some(w.With(p, q.(op := None, lock := Unlocked))) else None
  }

  function StepUnlock(w: World, p: Pid): Option<World> {
    var q := w.P(p);
    if q.lock.Held? && q.write.Finished? then
      Some(w.(flock := w.flock - {q.lock.ino}).With(p, q.(lock := Opened(q.lock.ino))))
    else None
  }

  /** Closing the handle ends the operation. The lock file stays. */
  function StepClose(w: World, p: Pid): Option<World> {
    var q := w.P(p);
    if q.lock.Opened? && q.write.Finished? then Some(w.With(p, IDLE.(seen := q.seen))) else None
  }

  // ---------- storage.py: load ----------

  /** `path.exists()`. */
  function StepLook(w: World, p: Pid): Option<World>
    requires w.dirs != []
  {
    var q := w.P(p);
    if !MayRead(q) then None
    else if Db in w.Cur().dir then Some(w.With(p, q.(read := Found(w.Cur().ver))))
    else Some(w.With(p, q.(read := Got(None, w.Cur().ver, w.Cur().ver), seen := w.Cur().ver)))
  }

  /** `open(path, "rb")`; a missing file ends the read with an error. */
  function StepOpenDb(w: World, p: Pid): Option<World>
    requires w.dirs != []
  {
    var q := w.P(p);
    if !q.read.Found? || q.write != NotWriting then None
    else if Db in w.Cur().dir then Some(w.With(p, q.(read := Reading(w.Cur().dir[Db], "", q.read.low))))
    else Some(w.With(p, q.(read := NotReading)))
  }

  /** `acc` followed by at most `n` of the bytes after it. */
  function ReadMore(acc: Bytes, all: Bytes, n: nat): Bytes {
    var at := Min(|acc|, |all|);
    acc + all[at..Min(at + n, |all|)]
  }

  /** One `read` call returns some of the bytes that are left. */
  function StepReadChunk(w: World, p: Pid, n: nat): Option<World> {
    var q := w.P(p);
    if q.read.Reading? && q.read.ino in w.vol then
      Some(w.With(p, q.(read := q.read.(acc := ReadMore(q.read.acc, w.vol[q.read.ino], n)))))
    else None
  }

  /** `read` returns nothing more. */
  function StepReadEnd(w: World, p: Pid): Option<World> {
    var q := w.P(p);
    if q.read.Reading? && q.read.ino in w.vol && |q.read.acc| >= |w.vol[q.read.ino]| then
      var v := if q.read.ino in w.published then w.published[q.read.ino] else 0;
      Some(w.With(p, q.(read := Got(Some(q.read.acc), v, q.read.low), seen := v)))
    else None
  }

  /** A lock-free read is over. */
  function StepReturn(w: World, p: Pid): Option<World> {
    var q := w.P(p);
    if q.op.None? && q.read != NotReading then Some(w.With(p, q.(read := NotReading))) else None
  }

  /** The load failed, the mutator raised, the transaction rolls back, or no temporary file could be made. */
  function StepAbort(w: World, p: Pid): Option<World> {
    var q := w.P(p);
    if q.lock.Held? && q.write.NotWriting? then Some(w.With(p, q.(write := Finished(false)))) else None
  }

  // ---------- atomic.py ----------

  function StepMkTemp(w: World, p: Pid, tmp: nat): Option<World>
    requires w.dirs != []
  {
    var q := w.P(p);
    if q.lock.Held? && q.write.NotWriting? && DataToWrite(q).Some? && Temp(tmp) !in w.Cur().dir then
      var w1 := w.Push(w.Cur().dir[Temp(tmp) := w.next]).(next := w.next + 1, vol := w.vol[w.next := ""]);
      Some(w1.With(p, q.(write := Writing(tmp, w.next, DataToWrite(q).value))))
    else None
  }

  function StepWriteChunk(w: World, p: Pid, n: nat): Option<World> {
    var q := w.P(p);
    if q.write.Writing? && q.write.ino in w.vol then
      Some(w.(vol := w.vol[q.write.ino := q.write.data[..Min(|w.vol[q.write.ino]| + n, |q.write.data|)]]))
    else None
  }

  function StepFsync(w: World, p: Pid): Option<World> {
    var q := w.P(p);
    if q.write.Writing? && q.write.ino in w.vol && w.vol[q.write.ino] == q.write.data then
      var w1 := w.(dur := w.dur[q.write.ino := q.write.data]);
      Some(w1.With(p, q.(write := Synced(q.write.tmp, q.write.ino, q.write.data))))
    else None
  }

  /** `os.replace`: the rename that publishes the new file. */
  function StepReplace(w: World, p: Pid): Option<World>
    requires w.dirs != []
  {
    var q := w.P(p);
    if q.write.Synced? && q.lock.Held? && q.op.Some? then
      var d := (w.Cur().dir - {Temp(q.write.tmp)})[Db := q.write.ino];
      var w1 := w.(
        dirs := w.dirs + [Version(d, |w.hist| + 1)],
        hist := w.hist + [Committed(q.op.value, q.lock.ticket, q.write.data)],
        published := w.published[q.write.ino := |w.hist| + 1]);
      Some(w1.With(p, q.(write := Replaced)))
    else None
  }

  /** `_fsync_parent` succeeds: the current directory is durable. */
  function StepSyncParent(w: World, p: Pid): Option<World>
    requires w.dirs != []
  {
    var q := w.P(p);
    if q.write.Replaced? then
      Some(w.(dirs := [w.Cur()], floor := w.Cur().ver).With(p, q.(write := Finished(true))))
    else None
  }

  /** `_fsync_parent` fails; the error is swallowed. */
  function StepSkipSync(w: World, p: Pid): Option<World> {
    var q := w.P(p);
    if q.write.Replaced? then Some(w.With(p, q.(write := Finished(true)))) else None
  }

  /** A system call before the rename fails; the temporary file is unlinked, or that fails too. */
  function StepFailWrite(w: World, p: Pid, unlinked: bool): Option<World>
    requires w.dirs != []
  {
    var q := w.P(p);
    if q.write.Writing? || q.write.Synced? then
      var w1 := if unlinked then w.Push(w.Cur().dir - {Temp(q.write.tmp)}) else w;
      Some(w1.With(p, q.(write := Finished(false))))
    else None
  }

  // ---------- Failures ----------

  /** The process dies: its handles are closed, its locks released. */
  function StepKill(w: World, p: Pid): World {
    w.(flock := map i | i in w.flock && w.flock[i] != p :: w.flock[i], procs := w.procs - {p})
  }

  /**
    The machine stops. Of the directory any state since the last fsync may be
    left, and of a file that was not fsynced anything at all.
   */
  function StepPowerLoss(w: World, k: nat, junk: map<Ino, Bytes>): Option<World> {
    if k < |w.dirs| then
      var v := Min(w.dirs[k].ver, |w.hist|);
      Some(w.(
        dirs := [w.dirs[k]],
        vol := map i | i in w.vol :: if i in w.dur then w.dur[i] else if i in junk then junk[i] else "",
        flock := map[], procs := map[],
        hist := w.hist[..v],
        published := map i | i in w.published && w.published[i] <= v :: w.published[i]))
    else None
  }

  // ---------- Runs ----------

  /** Any database file, or none, synced; nobody running; possibly a lock file from before. */
  ghost predicate Start(w: World) {
    && |w.dirs| == 1 && w.dirs[0].ver == 0 && w.hist == [] && w.floor == 0
    && w.flock == map[] && w.procs == map[]
    && (forall n :: n in w.dirs[0].dir ==> w.dirs[0].dir[n] < w.next)
    && (Db in w.dirs[0].dir <==> w.initial.Some?)
    && (Db in w.dirs[0].dir ==>
          var i := w.dirs[0].dir[Db];
          i in w.vol && i in w.dur && w.vol[i] == w.dur[i] == w.initial.value && w.published == map[i := 0])
    && (Db !in w.dirs[0].dir ==> w.published == map[])
  }

  /** The world after a sequence of events, if they can happen one after the other. */
  function Run(w: World, es: seq<Event>): Option<World> {
    if es == [] then Some(w)
    else
      var w1 :- Run(w, es[..|es| - 1]);
      Step(w1, es[|es| - 1])
  }
}
