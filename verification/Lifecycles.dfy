/** Any sequence of calls on one database: which transaction is active, and who holds the lock. */
module Lifecycles {
  import opened Wrappers
  import opened Errors
  import opened Storage
  import opened Documents
  import opened Locks
  import opened Transactions

  function LocksOf(txs: set<Transaction>): set<object>
    reads txs
  {
    set t | t in txs && t.lock != null :: t.lock
  }

  /** A transaction is the active one exactly if it is open exactly if it holds its lock. */
  ghost predicate InStep(db: Database, t: Transaction)
    reads db, t, t.lock
  {
    && t.database == db
    && (t.active <==> db.active == t) && (t.active <==> t.Holding()) && (t.active <==> t.state.Some?)
    && (t.lock != null && t.lock.locked ==> t.lock.file) && t.Tracks()
  }

  ghost predicate Consistent(db: Database, txs: set<Transaction>)
    reads db, txs, LocksOf(txs)
  {
    && (db.active != null ==> db.active in txs)
    && (forall t :: t in txs ==> InStep(db, t))
    && (forall t, u :: t in txs && u in txs && t != u && t.lock != null ==> t.lock != u.lock)
  }

  method EnterKeeps(db: Database, ghost txs: set<Transaction>, t: Transaction, env: Env)
    requires Consistent(db, txs) && t in txs && db.engine.Valid() && Ticks(env.wait, Seconds(db.engine.poll))
    modifies t, db
    ensures Consistent(db, txs) && db.engine.path == old(db.engine.path)
    ensures old(db.active) != null ==> db.active == old(db.active)
    ensures t.lock == old(t.lock) || t.lock == null || fresh(t.lock)
  {
    hide Load, FreeInTime, Ticks, PositiveFinite, Seconds;
    var _ := t.Enter(env);
  }

  /**
    Leaving a transaction keeps everything in step exactly if it is the active
    one, or none is: a second `__exit__` of an old transaction clears the mark
    of another one that goes on holding the lock.
   */
  method ExitKeeps(db: Database, ghost txs: set<Transaction>, t: Transaction, raising: bool, env: Env)
    returns (r: Result<(), DbError>)
    requires Consistent(db, txs) && t in txs
    modifies t, db, db.engine, t.lock
    ensures Consistent(db, txs) <==> old(db.active) == null || old(db.active) == t
    ensures db.active == null && !t.active && t.lock in {null, old(t.lock)}
    ensures raising ==> db.engine.path == old(db.engine.path)
    ensures old(t.lock) != null ==> !old(t.lock).locked
  {
    hide Committing;
    r := t.Exit(raising, env);
    ghost var a := old(db.active);
    if a != null && a != t {
      assert InStep(db, a) ==> false;
    }
  }

  /** A call on a database or one of its transactions, or another process replacing the file. */
  datatype Call =
    | Enter(t: Transaction, env: Env)
    | Leave(t: Transaction, raising: bool, env: Env)
    | Operate(t: Transaction, request: Request)
    | Write(request: Request, opening: Env, closing: Env)
    | Read(env: Env)
    | CloseDatabase(raising: bool, env: Env)
    | Elsewhere(c: Contents)

  ghost predicate GoodCall(call: Call, txs: set<Transaction>, poll: real) {
    match call
    case Enter(t, env) => t in txs && Ticks(env.wait, poll)
    case Leave(t, _, _) => t in txs
    case Operate(t, _) => t in txs
    case Write(_, opening, _) => Ticks(opening.wait, poll)
    case _ => true
  }

  method OperateKeeps(db: Database, ghost txs: set<Transaction>, t: Transaction, request: Request)
    requires Consistent(db, txs) && t in txs
    modifies t`state, t`done
    ensures Consistent(db, txs)
  {
    hide Documents.Apply, Sessions.Applied;
    var _ := t.Operate(request);
  }

  /** Closing the database rolls an open transaction back and frees its lock. */
  method CloseKeeps(db: Database, ghost txs: set<Transaction>, raising: bool, env: Env) returns (r: Result<(), DbError>)
    requires Consistent(db, txs)
    modifies db, db.engine, txs, LocksOf(txs)
    ensures Consistent(db, txs) && db.active == null && db.engine.path == old(db.engine.path)
    ensures r.Err? <==> old(db.active) != null && !raising
    ensures forall t :: t in txs ==> t.lock == old(t.lock) || t.lock == null
  {
    ghost var a := db.active;
    if a != null {
      assert InStep(db, a);
    }
    r := db.Exit(raising, env);
  }

  /** One call, as a `with` statement would make it: only a transaction that was entered is left. */
  method Make(db: Database, ghost txs: set<Transaction>, call: Call)
    requires Consistent(db, txs) && db.engine.Valid() && GoodCall(call, txs, Seconds(db.engine.poll))
    modifies db, db.engine, txs, LocksOf(txs)
    ensures Consistent(db, txs)
    ensures forall t :: t in txs ==> t.lock == old(t.lock) || t.lock == null || fresh(t.lock)
  {
    hide Load, FreeInTime, Ticks, PositiveFinite, Seconds, Committing, Updating;
    match call {
      case Enter(t, env) =>
        EnterKeeps(db, txs, t, env);
      case Leave(t, raising, env) =>
        if t.active {
          var _ := ExitKeeps(db, txs, t, raising, env);
        }
      case Operate(t, request) =>
        OperateKeeps(db, txs, t, request);
      case Write(request, opening, closing) =>
        var _ := db.Write(request, opening, closing);
      case Read(env) =>
        var _ := db.ReadState(env);
      case CloseDatabase(raising, env) =>
        var _ := CloseKeeps(db, txs, raising, env);
      case Elsewhere(c) =>
        if db.active == null {
          db.engine.path := c;
        }
    }
  }

  /** Over any sequence of calls with matched enter and exit, marks, states and locks stay in step. */
  method Play(db: Database, ghost txs: set<Transaction>, calls: seq<Call>)
    requires Consistent(db, txs) && db.engine.Valid()
    requires forall i :: 0 <= i < |calls| ==> GoodCall(calls[i], txs, Seconds(db.engine.poll))
    modifies db, db.engine, txs, LocksOf(txs)
    ensures Consistent(db, txs)
  {
    hide Consistent, Ticks, PositiveFinite, Seconds;
    var i := 0;
    while i < |calls|
      invariant 0 <= i <= |calls| && Consistent(db, txs)
      invariant forall t :: t in txs ==> t.lock == old(t.lock) || t.lock == null || fresh(t.lock)
    {
      Make(db, txs, calls[i]);
      i := i + 1;
    }
  }
}
