/** What the commit protocol promises of every run. */
module ProtocolTheorems {
  import opened Wrappers
  import opened Protocol
  import opened ProtocolProofs

  ghost predicate Reachable(w: World) {
    exists start, es :: Start(start) && Run(start, es) == Some(w)
  }

  lemma ReachableOk(w: World)
    requires Reachable(w)
    ensures Inv(w)
  {
    var start, es :| Start(start) && Run(start, es) == Some(w);
    StartOk(start);
    RunKeepsInv(start, es);
  }

  /** What a process that opens the database path now would find. */
  function Path(w: World): Contents
    requires w.dirs != []
  {
    var d := w.Cur().dir;
    if Db in d && d[Db] in w.vol then Some(w.vol[d[Db]]) else None
  }

  lemma PathIsLast(w: World)
    requires Inv(w)
    ensures Path(w) == w.At(|w.hist|)
  {
    CurrentContents(w);
    if Db in w.Cur().dir {
      assert FileOk(w, w.Cur().dir[Db]);
    }
  }

  // ---------- Mutual exclusion ----------

  /** At most one process is past the lock, and all open lock handles are on the one inode the path names. */
  lemma MutualExclusion(w: World, p: Pid, q: Pid)
    requires Reachable(w)
    ensures w.P(p).lock.Held? && w.P(q).lock.Held? ==> p == q
    ensures !w.P(p).lock.Unlocked? && !w.P(q).lock.Unlocked? ==> w.P(p).lock.ino == w.P(q).lock.ino
  {
    ReachableOk(w);
    IdleOk(w, p);
    IdleOk(w, q);
  }

  /** Nothing but a live holder keeps the lock from being taken: it never leaks. */
  lemma LockNeverLeaks(w: World)
    requires Reachable(w)
    ensures w.flock != map[] <==> exists p :: w.P(p).lock.Held?
  {
    ReachableOk(w);
    if w.flock != map[] {
      var i :| i in w.flock;
      assert w.P(w.flock[i]).lock.Held?;
    }
    if p :| w.P(p).lock.Held? {
      IdleOk(w, p);
      assert w.P(p).lock.ino in w.flock;
    }
  }

  // ---------- Serializability ----------

  /** Runs operations one after the other on what the path held at first. */
  function Replay(initial: Contents, ops: seq<Committed>): Contents {
    if ops == [] then initial
    else
      var before := Replay(initial, ops[..|ops| - 1]);
      match Outcome(ops[|ops| - 1].op, before)
      case Some(data) => Some(data)
      case None => before
  }

  lemma {:induction false} ReplayIsAt(w: World, n: nat)
    requires HistOk(w) && n <= |w.hist|
    ensures Replay(w.initial, w.hist[..n]) == w.At(n)
  {
    if n > 0 {
      ReplayIsAt(w, n - 1);
      assert CommitOk(w, n - 1);
      assert w.hist[..n][..n - 1] == w.hist[..n - 1];
    }
  }

  /** The i-th commit wrote what its operation makes of what all earlier ones, run in order, left. */
  predicate InTurn(w: World, i: nat)
    requires i < |w.hist|
  {
    Outcome(w.hist[i].op, Replay(w.initial, w.hist[..i])) == Some(w.hist[i].data)
  }

  /**
    The path always holds what the committed operations make of the initial
    contents when run one at a time in the order in which they took the lock,
    each on exactly what the one before it published.
   */
  lemma Serializable(w: World)
    requires Reachable(w)
    ensures w.dirs != [] && Path(w) == Replay(w.initial, w.hist)
    ensures forall i :: 0 <= i < |w.hist| ==> InTurn(w, i)
    ensures forall i, j :: 0 <= i < j < |w.hist| ==> w.hist[i].ticket < w.hist[j].ticket
  {
    ReachableHist(w);
    assert w.hist[..|w.hist|] == w.hist;
    ReplayIsAt(w, |w.hist|);
    forall i | 0 <= i < |w.hist| ensures InTurn(w, i) {
      EachOnThePrevious(w, i);
    }
  }

  lemma ReachableHist(w: World)
    requires Reachable(w)
    ensures w.dirs != [] && HistOk(w) && Path(w) == w.At(|w.hist|)
  {
    ReachableOk(w);
    PathIsLast(w);
  }

  lemma EachOnThePrevious(w: World, i: nat)
    requires HistOk(w) && i < |w.hist|
    ensures InTurn(w, i)
  {
    assert CommitOk(w, i);
    ReplayIsAt(w, i);
  }

  ghost predicate NoPowerLoss(es: seq<Event>) {
    forall i :: 0 <= i < |es| ==> !es[i].PowerLoss?
  }

  lemma StepKeepsCommits(w: World, e: Event)
    requires Step(w, e).Some? && !e.PowerLoss?
    ensures w.hist <= Step(w, e).value.hist && Step(w, e).value.initial == w.initial
    ensures !e.Replace? ==> Step(w, e).value.hist == w.hist
  {
    hide Step;
    StepNeedsDirs(w, e);
    if e.Replace? {
      StepIs(w);
      ReplaceCommits(w, e.p);
    } else {
      StepIsLocal(w, e);
    }
  }

  lemma ReplaceCommits(w: World, p: Pid)
    requires w.dirs != [] && StepReplace(w, p).Some?
    ensures var w' := StepReplace(w, p).value;
      && w.P(p).op.Some? && w'.initial == w.initial && w'.floor == w.floor && w'.dirs != []
      && w'.hist == w.hist + [Committed(w.P(p).op.value, w.P(p).lock.ticket, w.P(p).write.data)]
  {
  }

  /** As long as the machine runs, a commit is never lost or reordered. */
  lemma {:induction false} NoLostUpdates(w: World, es: seq<Event>)
    requires Reachable(w) && Run(w, es).Some? && NoPowerLoss(es)
    ensures w.hist <= Run(w, es).value.hist && Run(w, es).value.initial == w.initial
    decreases |es|
  {
    ReachableOk(w);
    if es != [] {
      NoLostUpdates(w, es[..|es| - 1]);
      RunKeepsInv(w, es[..|es| - 1]);
      StepKeepsCommits(Run(w, es[..|es| - 1]).value, es[|es| - 1]);
    }
  }

  /** An operation that ends, and has not yet let go of the lock, reports success exactly if it committed. */
  lemma SuccessMeansCommitted(w: World, p: Pid)
    requires Reachable(w) && w.P(p).lock.Held? && w.P(p).write.Finished?
    ensures w.P(p).write.ok <==> exists c :: c in w.hist && c.ticket == w.P(p).lock.ticket
    ensures w.P(p).write.ok ==> Some(w.hist[|w.hist| - 1].op) == w.P(p).op
  {
    ReachableOk(w);
    IdleOk(w, p);
    if w.P(p).write.ok {
      assert w.hist[|w.hist| - 1] in w.hist;
    }
  }

  /** Only the rename changes what is at the path: whatever fails before it, the file is as it was. */
  lemma OnlyReplaceChangesPath(w: World, e: Event)
    requires Reachable(w) && Step(w, e).Some? && !e.PowerLoss?
    ensures Step(w, e).value.dirs != []
    ensures !e.Replace? ==> Path(Step(w, e).value) == Path(w)
    ensures e.Replace? ==> w.P(e.p).op.Some? && Path(Step(w, e).value) == Outcome(w.P(e.p).op.value, Path(w))
  {
    hide Step, Run;
    ReachableOk(w);
    var w' := Step(w, e).value;
    StepKeepsInv(w, e);
    StepKeepsCommits(w, e);
    PathIsLast(w);
    PathIsLast(w');
    StepNeedsDirs(w, e);
    if e.Replace? {
      StepIs(w);
      ReplaceCommits(w, e.p);
      assert CommitOk(w', |w.hist|);
      AtExtends(w, w', |w.hist|);
    }
  }

  // ---------- Crash safety ----------

  /**
    Whatever a power loss leaves, the path is as it was before the first
    commit or holds exactly the bytes of one commit, no older than the newest
    one secured by a directory fsync.
   */
  lemma CrashSafe(w: World, k: nat, junk: map<Ino, Bytes>)
    requires Reachable(w) && k < |w.dirs|
    ensures StepPowerLoss(w, k, junk).Some?
    ensures var w' := StepPowerLoss(w, k, junk).value; var v := |w'.hist|;
      && w.floor <= v <= |w.hist| && w'.hist == w.hist[..v]
      && w'.dirs != [] && Path(w') == (if v == 0 then w.initial else Some(w.hist[v - 1].data))
  {
    ReachableOk(w);
    assert DirOk(w, w.dirs[k]);
    PowerLossKeeps(w, k, junk);
    PathIsLast(StepPowerLoss(w, k, junk).value);
  }

  lemma CrashLeavesAVersion(w: World, k: nat, junk: map<Ino, Bytes>)
    requires Reachable(w) && k < |w.dirs|
    ensures StepPowerLoss(w, k, junk).Some?
    ensures var w' := StepPowerLoss(w, k, junk).value;
      w.floor <= |w'.hist| <= |w.hist| && w'.dirs != [] && Path(w') == w.At(|w'.hist|)
  {
    hide Path, Reachable, StepPowerLoss;
    CrashSafe(w, k, junk);
  }

  lemma StepKeepsFloor(w: World, e: Event)
    requires Inv(w) && Step(w, e).Some?
    ensures var w' := Step(w, e).value;
      w.floor <= w'.floor <= |w'.hist| && w.floor <= |w.hist| && w'.hist[..w.floor] == w.hist[..w.floor]
  {
    hide Step;
    FloorBelow(w);
    match e
    case PowerLoss(k, junk) =>
      StepIs(w);
      assert DirOk(w, w.dirs[k]);
    case SyncParent(p) =>
      StepIs(w);
      StepKeepsCommits(w, e);
    case _ =>
      StepKeepsCommits(w, e);
      OtherStepsKeepFloor(w, e);
  }

  lemma OtherStepsKeepFloor(w: World, e: Event)
    requires Step(w, e).Some? && !e.PowerLoss? && !e.SyncParent?
    ensures Step(w, e).value.floor == w.floor
  {
    hide Step;
    StepNeedsDirs(w, e);
    if e.Replace? {
      StepIs(w);
      ReplaceCommits(w, e.p);
    } else {
      StepIsLocal(w, e);
    }
  }

  lemma FloorBelow(w: World)
    requires DirsOk(w)
    ensures w.floor <= |w.hist|
  {
    assert w.dirs[0].ver <= w.dirs[|w.dirs| - 1].ver;
  }

  lemma {:induction false} RunKeepsFloor(w: World, es: seq<Event>)
    requires Inv(w) && Run(w, es).Some?
    ensures var w' := Run(w, es).value;
      w.floor <= w'.floor <= |w'.hist| && w.floor <= |w.hist| && w'.hist[..w.floor] == w.hist[..w.floor]
    decreases |es|
  {
    FloorBelow(w);
    if es != [] {
      var w1 := Run(w, es[..|es| - 1]).value;
      RunKeepsFloor(w, es[..|es| - 1]);
      RunKeepsInv(w, es[..|es| - 1]);
      StepKeepsFloor(w1, es[|es| - 1]);
      var w2 := Run(w, es).value;
      assert w2.hist[..w.floor] == w2.hist[..w1.floor][..w.floor];
      assert w1.hist[..w.floor] == w1.hist[..w1.floor][..w.floor];
    }
  }

  lemma InvEnds(w: World)
    requires Inv(w)
    ensures w.dirs != [] && w.Cur().ver == |w.hist|
  {
  }

  /** Once the fsync of the directory has succeeded, no later failure of any kind undoes the commit. */
  lemma SyncedCommitsLast(w: World, p: Pid, es: seq<Event>)
    requires Reachable(w) && Step(w, SyncParent(p)).Some?
    requires Run(Step(w, SyncParent(p)).value, es).Some?
    ensures w.hist <= Run(Step(w, SyncParent(p)).value, es).value.hist
  {
    hide Step, Inv, Run;
    ReachableOk(w);
    StepNeedsDirs(w, SyncParent(p));
    StepIs(w);
    InvEnds(w);
    var w1 := Step(w, SyncParent(p)).value;
    StepKeepsInv(w, SyncParent(p));
    RunKeepsFloor(w1, es);
    assert w1.floor == |w.hist| && w1.hist == w.hist;
    assert w.hist[..|w.hist|] == w.hist;
  }

  // ---------- Reads ----------

  /**
    However a read is cut into steps and whatever is committed in between, it
    returns one whole version, which was current at some time during the read.
   */
  lemma ReadsAreSnapshots(w: World, p: Pid)
    requires Reachable(w) && w.P(p).read.Got?
    ensures var r := w.P(p).read;
      r.low <= r.ver <= |w.hist| && r.contents == Replay(w.initial, w.hist[..r.ver])
  {
    ReachableOk(w);
    IdleOk(w, p);
    ReplayIsAt(w, w.P(p).read.ver);
  }

  ghost predicate Undisturbed(es: seq<Event>, p: Pid) {
    forall i :: 0 <= i < |es| ==> !es[i].PowerLoss? && es[i] != Kill(p)
  }

  lemma StepKeepsSeen(w: World, e: Event, p: Pid)
    requires Inv(w) && Step(w, e).Some? && !e.PowerLoss? && e != Kill(p)
    ensures w.P(p).seen <= Step(w, e).value.P(p).seen
  {
    hide Step;
    IdleOk(w, p);
    CurrentContents(w);
    StepIs(w);
    match e
    case Look(q) =>
    case ReadEnd(q) =>
    case _ => OtherStepsKeepSeen(w, e, p);
  }

  lemma OtherStepsKeepSeen(w: World, e: Event, p: Pid)
    requires Step(w, e).Some? && !e.PowerLoss? && e != Kill(p) && !e.Look? && !e.ReadEnd?
    ensures w.P(p).seen == Step(w, e).value.P(p).seen
  {
    hide Step;
    StepNeedsDirs(w, e);
    if e.Replace? {
      StepIs(w);
    } else {
      StepIsLocal(w, e);
    }
  }

  /** A process never reads an older version after a newer one. */
  lemma {:induction false} ReadsNeverGoBack(w: World, es: seq<Event>, p: Pid)
    requires Reachable(w) && Run(w, es).Some? && Undisturbed(es, p)
    ensures w.P(p).seen <= Run(w, es).value.P(p).seen
    ensures w.P(p).read.Got? && Run(w, es).value.P(p).read.Got? ==>
      w.P(p).read.ver <= Run(w, es).value.P(p).read.ver
    decreases |es|
  {
    ReachableOk(w);
    IdleOk(w, p);
    if es != [] {
      var w1 := Run(w, es[..|es| - 1]).value;
      ReadsNeverGoBack(w, es[..|es| - 1], p);
      RunKeepsInv(w, es[..|es| - 1]);
      StepKeepsSeen(w1, es[|es| - 1], p);
      StepKeepsInv(w1, es[|es| - 1]);
      IdleOk(Run(w, es).value, p);
    }
  }

  // ---------- init ----------

  /** A non-forced `init` that commits finds nothing there: it is the first commit, so there is at most one. */
  lemma InitNeverOverwrites(w: World, i: nat)
    requires Reachable(w) && i < |w.hist| && w.hist[i].op.Create? && !w.hist[i].op.force
    ensures i == 0 && w.initial == None
  {
    ReachableOk(w);
    assert CommitOk(w, i);
  }
}
