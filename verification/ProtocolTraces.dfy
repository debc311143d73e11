/** What goes wrong when the lock file is unlinked, and when the directory fsync fails. */
module ProtocolTraces {
  import opened Wrappers
  import opened Protocol
  import opened ProtocolProofs
  import opened ProtocolTheorems

  const EMPTY := World([Version(map[], 0)], map[], map[], 0, map[], map[], [], None, map[], 0, 0)

  const INIT := Create(false, "x")

  // ---------- Unlinking the lock file ----------

  /** The machine with a `release` that unlinks the lock file after closing it. */
  function UnlinkingStep(w: World, e: Event): Option<World> {
    match e
    case Close(p) =>
      var w1 :- Step(w, e);
      if w1.dirs == [] then None else Some(w1.Push(w1.Cur().dir - {LockFile}))
    case _ => Step(w, e)
  }

  function UnlinkingRun(w: World, es: seq<Event>): Option<World> {
    if es == [] then Some(w)
    else
      var w1 :- UnlinkingRun(w, es[..|es| - 1]);
      UnlinkingStep(w1, es[|es| - 1])
  }

  /** Processes 0, 1 and 2 are A, B and C of ADR 0009. */
  const RACE := [
    Begin(0, INIT), OpenLock(0), TryLock(0),
    Begin(1, INIT), OpenLock(1), TryLock(1),
    Abort(0), Unlock(0), Close(0),
    Begin(2, INIT), OpenLock(2), TryLock(2),
    TryLock(1)]

  lemma NextOfRace(n: nat)
    requires n < |RACE| && UnlinkingRun(EMPTY, RACE[..n]).Some?
    ensures UnlinkingRun(EMPTY, RACE[..n + 1]) == UnlinkingStep(UnlinkingRun(EMPTY, RACE[..n]).value, RACE[n])
  {
    assert RACE[..n + 1][..n] == RACE[..n];
  }

  function Waiting(ino: Ino): Proc {
    IDLE.(op := Some(INIT), lock := Opened(ino))
  }

  function Holding(ino: Ino, ticket: nat): Proc {
    IDLE.(op := Some(INIT), lock := Held(ino, ticket))
  }

  const BEGUN := IDLE.(op := Some(INIT))

  /** The lock path names inode `ino`, or nothing, and the lock table and the processes are as given. */
  ghost predicate Now(w: World, ino: Option<Ino>, flock: map<Ino, Pid>, procs: map<Pid, Proc>) {
    && w.dirs != [] && w.flock == flock && w.procs == procs
    && (if ino.Some? then LockFile in w.Cur().dir && w.Cur().dir[LockFile] == ino.value else LockFile !in w.Cur().dir)
  }

  lemma Begins(w: World, p: Pid, ino: Option<Ino>)
    requires Now(w, ino, w.flock, w.procs) && w.P(p) == IDLE
    ensures var w' := UnlinkingStep(w, Begin(p, INIT));
      w'.Some? && Now(w'.value, ino, w.flock, w.procs[p := BEGUN]) && w'.value.next == w.next
  {
  }

  lemma Opens(w: World, p: Pid, ino: Option<Ino>)
    requires Now(w, ino, w.flock, w.procs) && w.P(p) == BEGUN
    ensures var w', i := UnlinkingStep(w, OpenLock(p)), if ino.Some? then ino.value else w.next;
      && w'.Some? && Now(w'.value, Some(i), w.flock, w.procs[p := Waiting(i)])
      && w'.value.next == (if ino.Some? then w.next else w.next + 1)
  {
  }

  lemma Locks(w: World, p: Pid, ino: Option<Ino>, i: Ino)
    requires Now(w, ino, w.flock, w.procs) && w.P(p) == Waiting(i) && i !in w.flock
    ensures var w' := UnlinkingStep(w, TryLock(p));
      w'.Some? && Now(w'.value, ino, w.flock[i := p], w.procs[p := Holding(i, w.tickets)]) && w'.value.next == w.next
  {
  }

  lemma Retries(w: World, p: Pid, i: Ino)
    requires w.dirs != [] && w.P(p) == Waiting(i) && i in w.flock
    ensures UnlinkingStep(w, TryLock(p)) == Some(w)
  {
  }

  lemma LetsGo(w: World, p: Pid, ino: Option<Ino>, i: Ino, t: nat)
    requires Now(w, ino, w.flock, w.procs) && w.P(p) == Holding(i, t)
    ensures UnlinkingStep(w, Abort(p)).Some?
    ensures UnlinkingStep(UnlinkingStep(w, Abort(p)).value, Unlock(p)) ==
      Some(w.(flock := w.flock - {i}, procs := w.procs[p := Waiting(i).(write := Finished(false))]))
  {
    var w1 := UnlinkingStep(w, Abort(p)).value;
    assert w1 == w.With(p, Holding(i, t).(write := Finished(false)));
    var w2 := UnlinkingStep(w1, Unlock(p)).value;
    assert w2.procs == w.procs[p := Waiting(i).(write := Finished(false))];
  }

  lemma Unlinks(w: World, p: Pid, i: Ino)
    requires w.dirs != [] && w.P(p) == Waiting(i).(write := Finished(false))
    ensures var w' := UnlinkingStep(w, Close(p));
      w'.Some? && Now(w'.value, None, w.flock, w.procs[p := IDLE]) && w'.value.next == w.next
  {
  }

  /** A holds the lock, B waits for it. */
  lemma RaceOpens()
    ensures UnlinkingRun(EMPTY, RACE[..6]).Some?
    ensures var w := UnlinkingRun(EMPTY, RACE[..6]).value;
      w.next == 1 && exists t :: Now(w, Some(0), map[0 := 0], map[0 := Holding(0, t), 1 := Waiting(0)])
  {
    hide UnlinkingStep;
    assert RACE[..0] == [];
    Begins(EMPTY, 0, None);
    NextOfRace(0);
    var w1 := UnlinkingRun(EMPTY, RACE[..1]).value;
    Opens(w1, 0, None);
    NextOfRace(1);
    var w2 := UnlinkingRun(EMPTY, RACE[..2]).value;
    Locks(w2, 0, Some(0), 0);
    NextOfRace(2);
    var w3 := UnlinkingRun(EMPTY, RACE[..3]).value;
    Begins(w3, 1, Some(0));
    NextOfRace(3);
    var w4 := UnlinkingRun(EMPTY, RACE[..4]).value;
    Opens(w4, 1, Some(0));
    NextOfRace(4);
    var w5 := UnlinkingRun(EMPTY, RACE[..5]).value;
    Retries(w5, 1, 0);
    NextOfRace(5);
    assert Now(w5, Some(0), map[0 := 0], map[0 := Holding(0, w2.tickets), 1 := Waiting(0)]);
  }

  /** A has let go and unlinked the file B has open. */
  lemma RaceUnlinks()
    ensures UnlinkingRun(EMPTY, RACE[..9]).Some?
    ensures var w := UnlinkingRun(EMPTY, RACE[..9]).value;
      Now(w, None, map[], map[0 := IDLE, 1 := Waiting(0)]) && w.next == 1
  {
    hide UnlinkingStep;
    RaceOpens();
    var w6 := UnlinkingRun(EMPTY, RACE[..6]).value;
    var t :| Now(w6, Some(0), map[0 := 0], map[0 := Holding(0, t), 1 := Waiting(0)]);
    LetsGo(w6, 0, Some(0), 0, t);
    NextOfRace(6);
    NextOfRace(7);
    var w8 := UnlinkingRun(EMPTY, RACE[..8]).value;
    Unlinks(w8, 0, 0);
    NextOfRace(8);
  }

  /** With an unlinking `release`, two processes can hold the lock at once, on different inodes. */
  lemma UnlinkingAdmitsTwoHolders()
    ensures Start(EMPTY) && UnlinkingRun(EMPTY, RACE).Some?
    ensures var w := UnlinkingRun(EMPTY, RACE).value;
      w.P(1).lock.Held? && w.P(2).lock.Held? && w.P(1).lock.ino != w.P(2).lock.ino
  {
    hide UnlinkingStep;
    RaceUnlinks();
    var w9 := UnlinkingRun(EMPTY, RACE[..9]).value;
    Begins(w9, 2, None);
    NextOfRace(9);
    var w10 := UnlinkingRun(EMPTY, RACE[..10]).value;
    Opens(w10, 2, None);
    NextOfRace(10);
    var w11 := UnlinkingRun(EMPTY, RACE[..11]).value;
    Locks(w11, 2, Some(1), 1);
    NextOfRace(11);
    var w12 := UnlinkingRun(EMPTY, RACE[..12]).value;
    Locks(w12, 1, Some(1), 0);
    NextOfRace(12);
    assert RACE[..13] == RACE;
  }

  // ---------- A directory fsync that fails ----------

  lemma AfterRename(w: World, w': World, junk: map<Ino, Bytes>)
    requires Inv(w) && Inv(w') && |w'.dirs| == |w.dirs| + 1 && w'.dirs[|w.dirs| - 1] == w.Cur()
    requires w.hist <= w'.hist && w'.initial == w.initial
    ensures var lost := StepPowerLoss(w', |w.dirs| - 1, junk);
      lost.Some? && lost.value.dirs != [] && Path(lost.value) == w.At(|w.hist|)
  {
    PowerLossKeeps(w', |w.dirs| - 1, junk);
    var lost := StepPowerLoss(w', |w.dirs| - 1, junk).value;
    PathIsLast(lost);
    assert lost.hist == w.hist;
  }

  /**
    A commit whose directory fsync failed is acknowledged like any other, and
    a power failure may still take it back.
   */
  lemma UnsyncedCommitCanBeLost(w: World, p: Pid, junk: map<Ino, Bytes>)
    requires Inv(w) && StepReplace(w, p).Some?
    ensures StepReplace(w, p).value.dirs != [] && StepSkipSync(StepReplace(w, p).value, p).Some?
    ensures var w' := StepSkipSync(StepReplace(w, p).value, p).value;
      && w'.P(p).write == Finished(true) && |w'.hist| == |w.hist| + 1
      && var lost := StepPowerLoss(w', |w.dirs| - 1, junk);
      lost.Some? && lost.value.dirs != [] && Path(lost.value) == Path(w)
  {
    PathIsLast(w);
    ReplaceKeeps(w, p);
    var w1 := StepReplace(w, p).value;
    SkipSyncKeeps(w1, p);
    var w2 := StepSkipSync(w1, p).value;
    AfterRename(w, w2, junk);
  }
}
