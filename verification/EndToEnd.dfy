/** The whole program: concurrent processes, crashes, files and checksums behave like one map of maps. */
module EndToEnd {
  import opened Wrappers
  import opened Values
  import opened Errors
  import opened Storage
  import opened Documents
  import opened DocumentProofs
  import opened Store
  import opened Sessions
  import Locks
  import opened Transactions
  import opened Protocol
  import opened ProtocolProofs
  import opened ProtocolTheorems

  /** What a caller asks of a database, and the time when it loads and when it commits. */
  datatype Action =
    | Transact(rs: seq<Request>, start: Value, now: Value)
    | WriteOne(r: Request, start: Value, now: Value)
    | Init(force: bool, start: Value, now: Value)

  function CommitText(state: Value, now: Value): Option<Bytes> {
    match Commit(state, now)
    case Ok(text) => Some(text)
    case Err(_) => None
  }

  /** `update` and a clean transaction: load, mutate, commit; no bytes if any of them raises. */
  function SessionText(c: Contents, rs: seq<Request>, start: Value, now: Value): Option<Bytes> {
    match Load(DiskOf(c), start)
    case Ok(state) => CommitText(ApplyAll(state, rs), now)
    case Err(_) => None
  }

  function WriteText(c: Contents, r: Request, start: Value, now: Value): Option<Bytes> {
    match Load(DiskOf(c), start)
    case Ok(state) =>
      (match Apply(state, r)
       case Ok(s) => CommitText(s, now)
       case Err(_) => None)
    case Err(_) => None
  }

  function InitText(start: Value, now: Value): Bytes {
    match CommitText(EmptyState(start), now)
    case Some(text) => text
    case None => ""
  }

  /** The locked operation the action runs. */
  function OpOf(a: Action): Op {
    match a
    case Transact(rs, start, now) => Op.Update(c => SessionText(c, rs, start, now))
    case WriteOne(r, start, now) => Op.Update(c => WriteText(c, r, start, now))
    case Init(force, start, now) => Create(force, InitText(start, now))
  }

  // ---------- The objects and the operations ----------

  /** The path is replaced by what the action's operation in the protocol makes of it. */
  predicate Publishes(a: Action, c: Contents, path: Contents) {
    Outcome(OpOf(a), c).Some? && path == Outcome(OpOf(a), c)
  }

  lemma ReadIsLoad(c: Contents, env: Env)
    ensures Load(Transactions.Found(c, env.readable), env.now).Ok? ==> Transactions.Found(c, env.readable) == DiskOf(c)
    ensures env.readable ==> Transactions.Found(c, true) == DiskOf(c)
  {
  }

  /** The lock comes free in time and every system call works. */
  ghost predicate Works(timeout: real, opening: Env, closing: Env) {
    && opening.wait.opens && (exists i :: Locks.FreeAt(opening.wait, timeout, i)) && opening.readable
    && closing.makesDirectory && closing.writable && !closing.unlockFails
  }

  /**
    A transaction object that exits cleanly publishes what its operation in the
    protocol does. After an error the path is as it was, unless the error is
    that of an unlock call after the commit. If the operation commits and
    everything works, there is no error.
   */
  lemma TransactionIsOperation(c: Contents, rs: seq<Request>, timeout: real, opening: Env, closing: Env)
    ensures var (r, path) := Updating(c, s => Ok(ApplyAll(s, rs)), timeout, opening, closing);
      var a := Transact(rs, opening.now, closing.now);
      && (r.Ok? ==> Publishes(a, c, path))
      && (r.Err? ==> path == c || (r.error == OsError && closing.unlockFails && Publishes(a, c, path)))
      && (Works(timeout, opening, closing) && Outcome(OpOf(a), c).Some? ==> r.Ok?)
  {
    hide Load, Commit, Locks.FreeAt, ApplyAll;
    ReadIsLoad(c, opening);
  }

  lemma WriteIsOperation(c: Contents, request: Request, timeout: real, opening: Env, closing: Env)
    ensures var (r, path) := Updating(c, s => Documents.Apply(s, request), timeout, opening, closing);
      var a := WriteOne(request, opening.now, closing.now);
      && (r.Ok? ==> Publishes(a, c, path))
      && (r.Err? ==> path == c || (r.error == OsError && closing.unlockFails && Publishes(a, c, path)))
      && (Works(timeout, opening, closing) && Outcome(OpOf(a), c).Some? ==> r.Ok?)
  {
    hide Load, Commit, Locks.FreeAt, Documents.Apply;
    ReadIsLoad(c, opening);
  }

  // ---------- The abstract database ----------

  /** What an action does to a map of maps. A document under the envelope key breaks the file until the next init. */
  ghost function Effect(base: Base, a: Action): Base {
    match a
    case Transact(rs, _, _) => if base.Fine? then After(ActAll(base.db, rs)) else Broken
    case WriteOne(r, _, _) => if base.Fine? then After(Acted(base.db, r)) else Broken
    case Init(_, _, _) => Fine(map[])
  }

  ghost function Effects(base: Base, log: seq<Action>): Base {
    if log == [] then base else Effect(Effects(base, log[..|log| - 1]), log[|log| - 1])
  }

  /** Python values and a clock. */
  ghost predicate GoodAction(a: Action) {
    GoodTime(a.start) && GoodTime(a.now) &&
    match a
    case Transact(rs, _, _) => GoodRequests(rs)
    case WriteOne(r, _, _) => GoodRequest(r)
    case Init(_, _, _) => true
  }

  lemma SessionHolds(c: Contents, base: Base, rs: seq<Request>, start: Value, now: Value)
    requires Holds(c, base) && GoodAction(Transact(rs, start, now))
    ensures SessionText(c, rs, start, now).Some? <==> base.Fine?
    ensures base.Fine? ==> Holds(SessionText(c, rs, start, now), After(ActAll(base.db, rs)))
  {
    HoldsLoads(c, base, start);
    if base.Fine? {
      var state := Load(DiskOf(c), start).value;
      SoundIsCommittable(state);
      ApplyAllRefines(state, rs);
      CommitHolds(ApplyAll(state, rs), now);
    }
  }

  lemma WriteHolds(c: Contents, base: Base, r: Request, start: Value, now: Value)
    requires Holds(c, base) && GoodAction(WriteOne(r, start, now))
    ensures WriteText(c, r, start, now).Some? <==> base.Fine? && Act(base.db, r).Ok?
    ensures base.Fine? && Act(base.db, r).Ok? ==> Holds(WriteText(c, r, start, now), After(Act(base.db, r).value))
  {
    HoldsLoads(c, base, start);
    if base.Fine? {
      var state := Load(DiskOf(c), start).value;
      SoundIsCommittable(state);
      ApplyRefines(state, r);
      if Act(base.db, r).Ok? {
        CommitHolds(Documents.Apply(state, r).value, now);
      }
    }
  }

  lemma InitHolds(start: Value, now: Value)
    requires GoodTime(start) && GoodTime(now)
    ensures Holds(Some(InitText(start, now)), Fine(map[]))
  {
    EmptyHoldsNothing(start);
    SoundIsCommittable(EmptyState(start));
    CommitHolds(EmptyState(start), now);
  }

  /** An action that commits on a file holding some database leaves one holding its effect on it. */
  lemma OutcomeHolds(c: Contents, base: Base, a: Action)
    requires Holds(c, base) && GoodAction(a) && Outcome(OpOf(a), c).Some?
    ensures Holds(Outcome(OpOf(a), c), Effect(base, a))
  {
    hide Holds, GoodTime, After, SessionText, WriteText, InitText;
    match a
    case Transact(rs, start, now) => SessionHolds(c, base, rs, start, now);
    case WriteOne(r, start, now) => WriteHolds(c, base, r, start, now);
    case Init(_, start, now) => InitHolds(start, now);
  }

  /** No request of the action names the envelope key as an id. */
  ghost predicate Unreserved(a: Action) {
    match a
    case Transact(rs, _, _) => forall i :: 0 <= i < |rs| ==> !Reserves(rs[i])
    case WriteOne(r, _, _) => !Reserves(r)
    case Init(_, _, _) => true
  }

  /** Without that id the file never breaks. */
  lemma {:induction false} UnreservedStaysFine(db: Collected, log: seq<Action>)
    requires Free(db) && forall i :: 0 <= i < |log| ==> Unreserved(log[i])
    ensures var base := Effects(Fine(db), log); base.Fine? && Free(base.db)
    decreases |log|
  {
    if log != [] {
      UnreservedStaysFine(db, log[..|log| - 1]);
      var base, a := Effects(Fine(db), log[..|log| - 1]), log[|log| - 1];
      assert Unreserved(a);
      match a
      case Transact(rs, _, _) => ActAllKeepsFree(base.db, rs);
      case WriteOne(r, _, _) =>
        assert ActAll(base.db, [r]) == ActAll(Acted(base.db, r), [][..]);
        ActAllKeepsFree(base.db, [r]);
      case Init(_, _, _) =>
    }
  }

  // ---------- Every run ----------

  /** `log` lists the actions whose commits make up the history. */
  ghost predicate LogOf(w: World, log: seq<Action>) {
    && |log| == |w.hist|
    && forall i :: 0 <= i < |log| ==> GoodAction(log[i]) && w.hist[i].op == OpOf(log[i])
  }

  lemma {:induction false} VersionHolds(w: World, base: Base, log: seq<Action>, n: nat)
    requires HistOk(w) && LogOf(w, log) && Holds(w.initial, base) && n <= |log|
    ensures Holds(w.At(n), Effects(base, log[..n]))
  {
    hide Holds, Effect, GoodAction, Outcome, OpOf;
    if n > 0 {
      VersionHolds(w, base, log, n - 1);
      assert CommitOk(w, n - 1);
      assert log[..n][..n - 1] == log[..n - 1];
      OutcomeHolds(w.At(n - 1), Effects(base, log[..n - 1]), log[n - 1]);
    }
  }

  /** The contents load exactly if the base is fine, and then as its database. */
  ghost predicate LoadsAs(c: Contents, base: Base, t: Value) {
    match Load(DiskOf(c), t)
    case Ok(state) => base.Fine? && Content(state) == base.db
    case Err(e) => base.Broken? && e == DatabaseFormatError
  }

  lemma VersionLoads(w: World, base: Base, log: seq<Action>, n: nat, t: Value)
    requires HistOk(w) && LogOf(w, log) && Holds(w.initial, base) && n <= |log| && GoodTime(t)
    ensures LoadsAs(w.At(n), Effects(base, log[..n]), t)
  {
    hide Holds, Load, GoodTime;
    VersionHolds(w, base, log, n);
    HoldsLoads(w.At(n), Effects(base, log[..n]), t);
  }

  /**
    However processes interleave and whatever fails, the file at the database
    path holds what the committed actions make of the initial database when
    done one after the other in lock order; it loads unless one of them has
    broken it.
   */
  lemma FileIsFoldOfCommits(w: World, base: Base, log: seq<Action>, t: Value)
    requires Reachable(w) && LogOf(w, log) && Holds(w.initial, base) && GoodTime(t)
    ensures w.dirs != [] && LoadsAs(Path(w), Effects(base, log), t)
  {
    hide LoadsAs, Reachable, Holds, GoodTime;
    ReachableHist(w);
    VersionLoads(w, base, log, |log|, t);
    assert log[..|log|] == log;
  }

  /** A lock-free read returns the database as it was after some prefix of the committed actions. */
  lemma ReadsSeeAPrefix(w: World, p: Pid, base: Base, log: seq<Action>, t: Value)
    requires Reachable(w) && w.P(p).read.Got? && LogOf(w, log) && Holds(w.initial, base) && GoodTime(t)
    ensures var r := w.P(p).read; r.low <= r.ver <= |log| && LoadsAs(r.contents, Effects(base, log[..r.ver]), t)
  {
    hide LoadsAs, Reachable, Holds, GoodTime;
    ReachableHist(w);
    ReadsAreSnapshots(w, p);
    ReplayIsAt(w, w.P(p).read.ver);
    VersionLoads(w, base, log, w.P(p).read.ver, t);
  }

  /** After a power failure the file holds the effect of a prefix of the actions that includes all synced ones. */
  lemma PowerLossLeavesAPrefix(
      w: World, k: nat, junk: map<Ino, Bytes>, base: Base, log: seq<Action>, t: Value)
    requires Reachable(w) && k < |w.dirs| && LogOf(w, log) && Holds(w.initial, base) && GoodTime(t)
    ensures StepPowerLoss(w, k, junk).Some? && StepPowerLoss(w, k, junk).value.dirs != []
    ensures var w' := StepPowerLoss(w, k, junk).value;
      w.floor <= |w'.hist| <= |log| && LoadsAs(Path(w'), Effects(base, log[..|w'.hist|]), t)
  {
    hide LoadsAs, Reachable, Holds, GoodTime, StepPowerLoss, Path, Effects;
    CrashLeavesAVersion(w, k, junk);
    ReachableHist(w);
    VersionLoads(w, base, log, |StepPowerLoss(w, k, junk).value.hist|, t);
  }
}
