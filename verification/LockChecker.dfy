/** The lock checker of the debug build: a spin lock that reports when a thread
    acquires it while it owns it already, and when a lock is released that
    nobody has acquired. */
module LockChecker {
  import opened Wrappers

  type Thread = nat

  /** IsAcquired and OwnerThread, and the NDIS spin lock by its holder. */
  datatype Lock = Lock(isAcquired: int, owner: Option<Thread>, holder: Option<Thread>)

  /** Where a thread is: outside, waiting for the NDIS lock, between getting it and marking it,
      inside, between unmarking it and giving it back, or inside and waiting for itself. */
  datatype Pc = Out | Waiting | Got | Inside | Leaving | Stuck

  datatype Step = Acquire | Take | Mark | Unmark | Release

  /** Every thread calls acquire and release in a bracketed way; an acquire inside is allowed. */
  predicate Enabled(l: Lock, pc: Pc, s: Step) {
    match s
    case Acquire => pc.Out? || pc.Inside?
    case Take => pc.Waiting? && l.holder == None
    case Mark => pc.Got?
    case Unmark => pc.Inside?
    case Release => pc.Leaving?
  }

  function Act(l: Lock, t: Thread, pc: Pc, s: Step): (Lock, Pc) {
    match s
    case Acquire => (l.(isAcquired := l.isAcquired + 1), if pc.Inside? then Stuck else Waiting)
    case Take => (l.(holder := Some(t)), Got)
    case Mark => (l.(owner := Some(t)), Inside)
    case Unmark => (l.(isAcquired := l.isAcquired - 1, owner := None), Leaving)
    case Release => (l.(holder := None), Out)
  }

  /** "Detected multiple locking". */
  predicate ReportsMultiple(l: Lock, t: Thread) {
    l.isAcquired != 0 && l.owner == Some(t)
  }

  /** "Detected release of unacquired lock". */
  predicate ReportsUnacquired(l: Lock) {
    l.isAcquired == 0
  }

  // ---- Runs -----------------------------------------------------------------------

  datatype Sys = Sys(l: Lock, ts: seq<Pc>)

  function Initially(n: nat): Sys {
    Sys(Lock(0, None, None), seq(n, i => Out))
  }

  predicate Guard(s: Sys, t: Thread, step: Step) {
    t < |s.ts| && Enabled(s.l, s.ts[t], step)
  }

  function Next(s: Sys, t: Thread, step: Step): Sys
    requires Guard(s, t, step)
  {
    var (l', pc') := Act(s.l, t, s.ts[t], step);
    Sys(l', s.ts[t := pc'])
  }

  ghost predicate IsRun(n: nat, es: seq<(Thread, Step)>, ss: seq<Sys>) {
    && |ss| == |es| + 1 && ss[0] == Initially(n)
    && forall i :: 0 <= i < |es| ==> Guard(ss[i], es[i].0, es[i].1) && ss[i + 1] == Next(ss[i], es[i].0, es[i].1)
  }

  ghost predicate Reachable(s: Sys) {
    exists n: nat, es: seq<(Thread, Step)>, ss: seq<Sys> :: IsRun(n, es, ss) && ss[|es|] == s
  }

  // ---- The invariant ------------------------------------------------------------------

  /** How often a thread is counted in IsAcquired. */
  function Weight(pc: Pc): nat {
    match pc
    case Out => 0
    case Waiting => 1
    case Got => 1
    case Inside => 1
    case Leaving => 0
    case Stuck => 2
  }

  function Total(ts: seq<Pc>): nat {
    if ts == [] then 0 else Weight(ts[0]) + Total(ts[1..])
  }

  predicate HasNdisLock(pc: Pc) {
    pc.Got? || pc.Inside? || pc.Leaving? || pc.Stuck?
  }

  predicate Owns(pc: Pc) {
    pc.Inside? || pc.Stuck?
  }

  ghost predicate Inv(s: Sys) {
    && s.l.isAcquired == Total(s.ts)
    && (forall t :: 0 <= t < |s.ts| ==> (HasNdisLock(s.ts[t]) <==> s.l.holder == Some(t)))
    && (forall t :: 0 <= t < |s.ts| ==> (Owns(s.ts[t]) <==> s.l.owner == Some(t)))
    && (s.l.holder.Some? ==> s.l.holder.value < |s.ts|)
    && (s.l.owner.Some? ==> s.l.owner == s.l.holder)
  }

  lemma {:induction false} TotalUpdate(ts: seq<Pc>, t: nat, pc: Pc)
    requires t < |ts|
    ensures Total(ts[t := pc]) == Total(ts) - Weight(ts[t]) + Weight(pc)
    ensures Total(ts) >= Weight(ts[t])
  {
    if t == 0 {
      assert ts[t := pc][1..] == ts[1..];
    } else {
      assert ts[t := pc][1..] == ts[1..][t - 1 := pc];
      TotalUpdate(ts[1..], t - 1, pc);
    }
  }

  lemma {:induction false} AllOut(ts: seq<Pc>)
    requires forall t :: 0 <= t < |ts| ==> ts[t] == Out
    ensures Total(ts) == 0
  {
    if ts != [] {
      AllOut(ts[1..]);
    }
  }

  lemma StepKeeps(s: Sys, t: Thread, step: Step)
    requires Inv(s) && Guard(s, t, step)
    ensures Inv(Next(s, t, step))
  {
    TotalUpdate(s.ts, t, Act(s.l, t, s.ts[t], step).1);
  }

  lemma {:induction false} RunInvariant(n: nat, es: seq<(Thread, Step)>, ss: seq<Sys>, i: nat)
    requires IsRun(n, es, ss) && i < |ss|
    ensures Inv(ss[i])
  {
    if i == 0 {
      AllOut(Initially(n).ts);
    } else {
      RunInvariant(n, es, ss, i - 1);
      StepKeeps(ss[i - 1], es[i - 1].0, es[i - 1].1);
    }
  }

  lemma ReachableInv(s: Sys)
    requires Reachable(s)
    ensures Inv(s)
  {
    var n: nat, es: seq<(Thread, Step)>, ss: seq<Sys> :| IsRun(n, es, ss) && ss[|es|] == s;
    RunInvariant(n, es, ss, |es|);
  }

  // ---- What the checker is worth --------------------------------------------------------

  /** An acquire is reported exactly when the caller already owns the lock, whatever the others do. */
  lemma ReportsExactly(s: Sys, t: Thread)
    requires Reachable(s) && Guard(s, t, Acquire)
    ensures ReportsMultiple(s.l, t) <==> s.ts[t].Inside?
  {
    ReachableInv(s);
    TotalUpdate(s.ts, t, Out);
  }

  /** A bracketed release is never reported as a release of an unacquired lock. */
  lemma NoFalseRelease(s: Sys, t: Thread)
    requires Reachable(s) && Guard(s, t, Unmark)
    ensures !ReportsUnacquired(s.l)
  {
    ReachableInv(s);
    TotalUpdate(s.ts, t, Out);
  }

  /** What is reported is a deadlock: a thread that acquires the lock inside waits for itself, and all
      that anyone else can still do is to queue up behind it. */
  lemma StuckForever(s: Sys, t: Thread, u: Thread, step: Step)
    requires Reachable(s) && t < |s.ts| && s.ts[t].Stuck? && Guard(s, u, step)
    ensures u != t && step == Acquire && s.ts[u].Out? && Next(s, u, step).ts[t].Stuck?
  {
    ReachableInv(s);
  }

  // ---- The lock record, updated in place ----------------------------------------------------

  class DebugLock {
    var isAcquired: int
    var ownerThread: Option<Thread>
    var ndisLock: Option<Thread>

    ghost function View(): Lock
      reads this
    {
      Lock(isAcquired, ownerThread, ndisLock)
    }

    /** ndisprotAllocateSpinLock. */
    constructor ()
      ensures View() == Lock(0, None, None)
    {
      isAcquired, ownerThread, ndisLock := 0, None, None;
    }

    /** ndisprotAcquireSpinLock up to the release of the checker's own lock. */
    method AcquireCheck(me: Thread, ghost pc: Pc) returns (reported: bool)
      modifies this
      ensures reported <==> ReportsMultiple(old(View()), me)
      ensures View() == Act(old(View()), me, pc, Acquire).0
    {
      reported := false;
      if isAcquired != 0 {
        if ownerThread == Some(me) {
          reported := true;
        }
      }
      isAcquired := isAcquired + 1;
    }

    /** NdisAcquireSpinLock, when it gets through. */
    method AcquireTake(me: Thread, ghost pc: Pc)
      requires ndisLock == None
      modifies this
      ensures View() == Act(old(View()), me, pc, Take).0
    {
      ndisLock := Some(me);
    }

    method AcquireMark(me: Thread, ghost pc: Pc)
      modifies this
      ensures View() == Act(old(View()), me, pc, Mark).0
    {
      ownerThread := Some(me);
    }

    /** ndisprotReleaseSpinLock up to the release of the checker's own lock. */
    method ReleaseCheck(me: Thread, ghost pc: Pc) returns (reported: bool)
      modifies this
      ensures reported <==> ReportsUnacquired(old(View()))
      ensures View() == Act(old(View()), me, pc, Unmark).0
    {
      reported := isAcquired == 0;
      isAcquired := isAcquired - 1;
      ownerThread := None;
    }

    method ReleaseGive(me: Thread, ghost pc: Pc)
      modifies this
      ensures View() == Act(old(View()), me, pc, Release).0
    {
      ndisLock := None;
    }
  }
}
