/** Code that runs on the protocol machine, step by step, while other processes take steps in between. */
module Machines {
  import opened Wrappers
  import opened Protocol
  import opened ProtocolProofs
  import opened ProtocolTheorems

  /** The process that takes a step; a power loss is nobody's. */
  function Actor(e: Event): Option<Pid> {
    if e.PowerLoss? then None else Some(e.p)
  }

  /** What process `p` can rely on while others take steps. */
  ghost predicate KeptFor(w: World, w': World, p: Pid) {
    && w.dirs != [] && w'.dirs != [] && w'.P(p) == w.P(p)
    && w.hist <= w'.hist && w'.initial == w.initial
    && (w.P(p).lock.Held? ==> w'.hist == w.hist)
    && (w.P(p).write.Writing? || w.P(p).write.Synced? ==> SameFile(w, w', w.P(p).write.ino))
    && KeepsPublished(w, w')
  }

  /** Files that were ever at the database path are never written again. */
  ghost predicate KeepsPublished(w: World, w': World) {
    forall i :: i in w.published && i in w.vol ==>
      i in w'.published && w'.published[i] == w.published[i] && i in w'.vol && w'.vol[i] == w.vol[i]
  }

  lemma PublishedIsNotOwn(w: World, e: Event)
    requires Inv(w) && Step(w, e).Some? && !e.PowerLoss?
    ensures w.dirs != [] && Touched(w, e) !in w.published
    ensures e.Replace? && w.P(e.p).write.Synced? ==> w.P(e.p).write.ino !in w.published
  {
    hide Step;
    StepNeedsDirs(w, e);
    PublishedBelow(w);
    IdleOk(w, e.p);
  }

  lemma StepKeepsPublished(w: World, e: Event)
    requires Inv(w) && Step(w, e).Some? && !e.PowerLoss?
    ensures KeepsPublished(w, Step(w, e).value)
  {
    hide Step, Inv, Touched;
    PublishedIsNotOwn(w, e);
    if e.Replace? {
      StepIs(w);
    } else {
      StepIsLocal(w, e);
    }
  }

  lemma OtherStepKeepsProc(w: World, e: Event, p: Pid)
    requires Step(w, e).Some? && Actor(e).Some? && Actor(e) != Some(p)
    ensures Step(w, e).value.P(p) == w.P(p)
  {
    hide Step;
    StepNeedsDirs(w, e);
    if e.Replace? {
      StepIs(w);
    } else {
      StepIsLocal(w, e);
    }
  }

  lemma OtherStepKeepsHist(w: World, e: Event, p: Pid)
    requires Inv(w) && Step(w, e).Some? && Actor(e).Some? && Actor(e) != Some(p) && w.P(p).lock.Held?
    ensures Step(w, e).value.hist == w.hist
  {
    hide Step;
    StepKeepsCommits(w, e);
    StepNeedsDirs(w, e);
    if e.Replace? {
      StepIs(w);
      OneHolder(w, e.p, p);
    }
  }

  lemma FileIsOwn(w: World, e: Event, p: Pid)
    requires Inv(w) && Actor(e).Some? && Actor(e) != Some(p)
    requires w.P(p).write.Writing? || w.P(p).write.Synced?
    ensures w.P(p).write.ino in w.vol && w.P(p).write.ino != Touched(w, e)
    ensures w.P(p).lock.Held? && (e.Replace? ==> !w.P(e.p).lock.Held?)
  {
    IdleOk(w, p);
    IdleOk(w, e.p);
    if w.P(e.p).lock.Held? {
      OneHolder(w, e.p, p);
    }
  }

  lemma OtherStepKeepsFile(w: World, e: Event, p: Pid)
    requires Inv(w) && Step(w, e).Some? && Actor(e).Some? && Actor(e) != Some(p)
    requires w.P(p).write.Writing? || w.P(p).write.Synced?
    ensures SameFile(w, Step(w, e).value, w.P(p).write.ino)
  {
    hide Step, Inv, Touched;
    FileIsOwn(w, e, p);
    StepNeedsDirs(w, e);
    if e.Replace? {
      StepIs(w);
    } else {
      StepIsLocal(w, e);
    }
  }

  lemma OtherStepIsKept(w: World, e: Event, p: Pid)
    requires Inv(w) && Step(w, e).Some? && Actor(e).Some? && Actor(e) != Some(p)
    ensures Inv(Step(w, e).value) && KeptFor(w, Step(w, e).value, p)
  {
    hide Step;
    StepKeepsInv(w, e);
    StepKeepsCommits(w, e);
    StepKeepsPublished(w, e);
    OtherStepKeepsProc(w, e, p);
    if w.P(p).lock.Held? {
      OtherStepKeepsHist(w, e, p);
    }
    if w.P(p).write.Writing? || w.P(p).write.Synced? {
      OtherStepKeepsFile(w, e, p);
    }
  }

  lemma KeptNone(w: World, p: Pid)
    requires w.dirs != []
    ensures KeptFor(w, w, p)
  {
  }

  lemma KeptHasDirs(w: World, w1: World, p: Pid)
    requires KeptFor(w, w1, p)
    ensures w1.dirs != []
  {
  }

  lemma KeptTwice(w: World, w1: World, w2: World, p: Pid)
    requires KeptFor(w, w1, p) && KeptFor(w1, w2, p)
    ensures KeptFor(w, w2, p)
  {
  }

  lemma RunOneMore(w: World, es: seq<Event>, e: Event)
    requires Run(w, es).Some?
    ensures Run(w, es + [e]) == Step(Run(w, es).value, e)
  {
    hide Step;
    assert (es + [e])[..|es|] == es;
  }

  predicate CanTake(w: World, p: Pid, e: Event) {
    Actor(e).Some? && Actor(e) != Some(p) && Step(w, e).Some?
  }

  /** Processes other than `p` take the given steps, as far as they can. */
  function Taken(w: World, p: Pid, es: seq<Event>): World {
    if es == [] then w
    else
      var w1 := Taken(w, p, es[..|es| - 1]);
      var e := es[|es| - 1];
      if CanTake(w1, p, e) then Step(w1, e).value else w1
  }

  lemma TakenNone(w: World, p: Pid)
    ensures Taken(w, p, []) == w
  {
  }

  lemma TakeableIs(w: World, p: Pid, e: Event)
    ensures CanTake(w, p, e) <==> Actor(e).Some? && Actor(e) != Some(p) && Step(w, e).Some?
  {
    hide Step;
  }

  lemma TakenOneMore(w: World, p: Pid, es: seq<Event>, e: Event)
    ensures var w1 := Taken(w, p, es); Taken(w, p, es + [e]) == if CanTake(w1, p, e) then Step(w1, e).value else w1
  {
    hide Step;
    assert (es + [e])[..|es|] == es;
  }

  /**
    A file system, a lock table and the processes using them. Each time the
    process at hand lets the others run, the clock `turn` advances and they
    take the steps that the schedule has for that turn, so what they do at one
    point of a program is independent of what they do at another. Likewise
    `chunk(turn)` says how much one `read` or `write` call transfers.
   */
  class Machine {
    const others: nat -> seq<Event>
    const chunk: nat -> nat
    var turn: nat
    var world: World
    ghost var start: World
    ghost var trace: seq<Event>
    /** How many commits each process has made. */
    ghost var made: map<Pid, nat>

    ghost predicate Valid()
      reads this
    {
      Start(start) && Run(start, trace) == Some(world)
    }

    ghost function Made(p: Pid): nat
      reads this
    {
      if p in made then made[p] else 0
    }

    constructor (w: World, others: nat -> seq<Event>, chunk: nat -> nat)
      requires Start(w)
      ensures Valid() && world == w && turn == 0 && this.others == others && this.chunk == chunk
    {
      this.others, this.chunk := others, chunk;
      turn, world, start, trace, made := 0, w, w, [], map[];
    }

    /** One step of one process. */
    method Do(e: Event)
      requires Valid() && Actor(e).Some? && Step(world, e).Some?
      modifies `world, `trace, `made
      ensures Valid() && Inv(old(world)) && Inv(world) && Step(old(world), e) == Some(world)
      ensures forall p :: Made(p) == old(Made(p)) + (if e == Replace(p) then 1 else 0)
    {
      hide Step;
      assert Reachable(world);
      ReachableOk(world);
      StepKeepsInv(world, e);
      RunOneMore(start, trace, e);
      if e.Replace? {
        made := made[e.p := Made(e.p) + 1];
      }
      trace := trace + [e];
      world := Step(world, e).value;
    }

    /** Another process takes a step, if it can. */
    method OtherStep(p: Pid, e: Event)
      requires Valid() && Inv(world) && world.dirs != []
      modifies `world, `trace, `made
      ensures Valid() && world == if CanTake(old(world), p, e) then Step(old(world), e).value else old(world)
      ensures Inv(world) && KeptFor(old(world), world, p) && Made(p) == old(Made(p))
    {
      hide Step, Run, Start, Inv, Valid;
      TakeableIs(world, p, e);
      if CanTake(world, p, e) {
        OtherStepIsKept(world, e, p);
        Do(e);
      }
    }

    /** Other processes take the steps of this turn. */
    method Others(p: Pid)
      requires Valid() && world.dirs != []
      modifies this
      ensures Valid() && turn == old(turn) + 1 && world == Taken(old(world), p, others(old(turn)))
      ensures Inv(world) && KeptFor(old(world), world, p) && Made(p) == old(Made(p))
    {
      hide Step, Run, Start, Taken, CanTake, Inv, KeptFor;
      assert Reachable(world);
      ReachableOk(world);
      var es := others(turn);
      TakenNone(world, p);
      KeptNone(world, p);
      turn := turn + 1;
      var i := 0;
      while i < |es|
        invariant 0 <= i <= |es| && turn == old(turn) + 1 && world == Taken(old(world), p, es[..i])
        invariant Valid() && Inv(world) && KeptFor(old(world), world, p) && Made(p) == old(Made(p))
      {
        TakenOneMore(old(world), p, es[..i], es[i]);
        assert es[..i] + [es[i]] == es[..i + 1];
        KeptHasDirs(old(world), world, p);
        ghost var w := world;
        OtherStep(p, es[i]);
        KeptTwice(old(world), w, world, p);
        i := i + 1;
      }
      assert es[..i] == es;
    }
  }
}
