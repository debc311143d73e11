/** json_database/lock.py: timeouts, and acquiring and releasing the file lock. */
module Locks {
  import opened Wrappers
  import opened Host
  import opened Values
  import opened Errors

  /** A number of seconds `validate_lock_timeout` accepts. Booleans are integers in Python. */
  predicate PositiveFinite(v: Value) {
    match v
    case Bool(b) => b
    case Int(i) => i > 0
    case Float(f) => Py.isFinite(f) && Py.floatValue(f) > 0.0
    case _ => false
  }

  /** Exactly the finite positive booleans, integers and floats; a Decimal is neither an int nor a float. */
  lemma PositiveFiniteMeans(v: Value)
    ensures PositiveFinite(v) <==>
      && (v.Bool? || v.Int? || v.Float?)
      && exists r :: Number(v) == Some(Finite(r)) && r > 0.0
  {
  }

  function Seconds(v: Value): (r: real)
    requires PositiveFinite(v)
    ensures r > 0.0 && Number(v) == Some(Finite(r))
  {
    match v
    case Bool(_) => 1.0
    case Int(i) => i as real
    case Float(f) => Py.floatValue(f)
  }

  /** The least `n` such that `n` polls take at least `timeout`. */
  function Polls(timeout: real, poll: real): (n: nat)
    requires timeout > 0.0 && poll > 0.0
    ensures n as real >= timeout / poll > n as real - 1.0
  {
    var q := timeout / poll;
    if q.Floor as real == q then q.Floor else q.Floor + 1
  }

  lemma NonNegativeProduct(a: real, b: real)
    requires a >= 0.0 && b >= 0.0
    ensures a * b >= 0.0
  {
  }

  lemma PollsCover(timeout: real, poll: real, n: nat)
    requires timeout > 0.0 && poll > 0.0 && n >= Polls(timeout, poll)
    ensures n as real * poll >= timeout
  {
    var q := timeout / poll;
    NonNegativeProduct(n as real - q, poll);
    assert (n as real - q) * poll == n as real * poll - q * poll;
  }

  /**
    What the outside world does during one `acquire`: whether the lock file can
    be opened, the time at the start, the time read after the i-th failed try,
    and whether the i-th try gets the lock.
   */
  datatype Wait = Wait(opens: bool, start: real, after: nat -> real, free: nat -> bool)

  /** The clock never runs backwards, and a sleep lasts at least as long as asked for. */
  ghost predicate Ticks(w: Wait, poll: real) {
    w.start <= w.after(0) && forall i: nat :: i > 0 ==> w.after(i - 1) + poll <= w.after(i)
  }

  lemma {:induction false} TimeAfter(w: Wait, poll: real, i: nat)
    requires Ticks(w, poll) && poll > 0.0
    ensures w.after(i) >= w.start + i as real * poll
  {
    if i > 0 {
      TimeAfter(w, poll, i - 1);
      assert i as real * poll == (i - 1) as real * poll + poll;
    }
  }

  /** Before the deadline, not all polls can have been made. */
  lemma PollsLeft(w: Wait, timeout: real, poll: real, i: nat)
    requires Ticks(w, poll) && timeout > 0.0 && poll > 0.0 && w.after(i) < w.start + timeout
    ensures i < Polls(timeout, poll)
  {
    TimeAfter(w, poll, i);
    if i >= Polls(timeout, poll) {
      PollsCover(timeout, poll, i);
    }
  }

  ghost predicate FreeAt(w: Wait, timeout: real, i: nat) {
    w.free(i) && forall j: nat :: j < i ==> w.after(j) < w.start + timeout
  }

  /** The file can be opened, and the lock becomes free at a try made before the time is up. */
  ghost predicate FreeInTime(w: Wait, timeout: real) {
    w.opens && exists i :: FreeAt(w, timeout, i)
  }

  /** What `acquire` raises when it fails. */
  function AcquireError(w: Wait): DbError {
    if w.opens then LockError else OsError
  }

  /** An unlock call that fails raises instead of whatever was about to be returned or raised. */
  function Unlocking(r: Result<(), DbError>, fails: bool): Result<(), DbError> {
    if fails then Err(OsError) else r
  }

  class FileLock {
    const timeout: real
    const poll: real
    /** A handle on the lock file is open. */
    var file: bool
    var locked: bool

    predicate Valid()
      reads this
    {
      timeout > 0.0 && poll > 0.0 && (locked ==> file)
    }

    constructor (timeout: Value, poll: Value)
      requires PositiveFinite(timeout) && PositiveFinite(poll)
      ensures Valid() && !file && !locked
      ensures this.timeout == Seconds(timeout) && this.poll == Seconds(poll)
    {
      this.timeout, this.poll := Seconds(timeout), Seconds(poll);
      file, locked := false, false;
    }

    /** `__init__`: refuses anything but positive finite numbers. */
    static method Make(timeout: Value, poll: Value) returns (r: Result<FileLock, DbError>)
      ensures r.Ok? <==> PositiveFinite(timeout) && PositiveFinite(poll)
      ensures r.Ok? ==> fresh(r.value) && r.value.Valid() && !r.value.file && !r.value.locked
      ensures r.Err? ==> r.error == ValidationError
    {
      if !PositiveFinite(timeout) || !PositiveFinite(poll) {
        return Err(ValidationError);
      }
      var lock := new FileLock(timeout, poll);
      r := Ok(lock);
    }

    /**
      Gets the lock exactly if it becomes free in time, after a bounded number
      of tries; gives up only after a failed try at or past the deadline, and
      then leaves no handle open.
     */
    method Acquire(w: Wait) returns (r: Result<(), DbError>, tries: nat)
      requires Valid() && !locked && Ticks(w, poll)
      modifies this
      ensures Valid() && locked == r.Ok? && file == (r.Ok? || (!w.opens && old(file)))
      ensures r.Ok? <==> FreeInTime(w, timeout)
      ensures r.Err? ==> r.error == AcquireError(w)
      ensures if w.opens then 1 <= tries <= Polls(timeout, poll) + 1 else tries == 0
      ensures r.Err? && w.opens ==> w.after(tries - 1) >= w.start + timeout
      ensures forall i: nat :: i < tries - 1 ==> !w.free(i) && w.after(i) < w.start + timeout
      ensures w.opens ==> w.free(tries - 1) == r.Ok?
    {
      hide Polls, Ticks;
      tries := 0;
      if !w.opens {
        return Err(OsError), 0;
      }
      file := true;
      var deadline := w.start + timeout;
      while true
        invariant file && !locked && timeout > 0.0 && poll > 0.0
        invariant tries <= Polls(timeout, poll)
        invariant forall i: nat :: i < tries ==> !w.free(i) && w.after(i) < deadline
        decreases Polls(timeout, poll) - tries
      {
        if w.free(tries) {
          locked := true;
          assert FreeAt(w, timeout, tries);
          return Ok(()), tries + 1;
        }
        if w.after(tries) >= deadline {
          file := false;
          return Err(LockError), tries + 1;
        }
        PollsLeft(w, timeout, poll, tries);
        tries := tries + 1;
      }
    }

    /** Lets go of the lock and closes the handle, even when the unlock call raises. */
    method Release(unlockFails: bool) returns (raised: bool)
      modifies this
      ensures !file && (old(file) ==> !locked) && (!old(file) ==> locked == old(locked))
      ensures raised <==> old(file && locked) && unlockFails
    {
      if !file {
        return false;
      }
      raised := locked && unlockFails;
      locked := false;
      file := false;
    }
  }
}
