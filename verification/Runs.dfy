/** Runs of the protocol: any interleaving of the threads of the driver with
    the calls that NDIS and the I/O manager make.

    The guards are the environment contract. NDIS calls the bind, unbind and
    plug-and-play handlers of one binding one at a time, completes each net
    buffer list that it was given once, and completes the close of an adapter
    when no receive indication is running. The I/O manager sends one Cleanup
    and then one Close per file object, the Close after every IRP on the file
    object has been completed; there is no Cleanup of a file object during its
    own OPEN_DEVICE and no OPEN_DEVICE after its Cleanup has begun. Clients are
    free to use a file object at any time.

    A run ends where a thread is about to access the context through FsContext
    alone and the context has been freed: what such an access does is not known. */
module Runs {
  import opened Wrappers
  import opened Lists
  import opened Protocol
  import opened Laws

  /** The context and the program counters of all threads; thread 0 is the control thread. */
  datatype Sys = Sys(c: Ctx, ts: seq<Pc>)

  datatype Event =
    | Run(t: nat, o: bool)
    | StartControl(ctl: ControlPc)
    | DispatchRead(f: File)
    | DispatchWrite(f: File)
    | DispatchIoctl(f: File)
    | DispatchOpen(f: File)
    | DispatchCleanup(f: File)
    | DispatchClose(f: File)
    | CancelReadIrp(x: Irp)
    | CancelWriteIrp(w: Irp)
    | Indicate
    | CompleteSends(chain: seq<Irp>)
    | TakenElsewhere(f: File)
    | DroppedElsewhere(f: File)

  function Initially(): Sys {
    Sys(InitialContext(), [Control(New)])
  }

  /** What NDIS may call next on the binding. */
  predicate MayStart(c: Ctx, now: Pc, ctl: ControlPc) {
    || (now == Control(New) && ctl == Bind(BindRef))
    || (now == Control(Bound)
        && (ctl == Unbind(UnbindMark) || ctl == Event(PauseLock) || (ctl == Event(Restart) && c.b.state == Paused)
            || ctl == Event(SetPower(true)) || ctl == Event(SetPower(false))))
  }

  predicate ReadCompleted(rd: Reads, x: Irp) {
    x in rd.served || x in rd.byCancel || x in rd.byPurge || x in rd.byDispatch
  }

  predicate WriteCompleted(tx: Sends, w: Irp) {
    w in tx.bySendComplete || w in tx.byDispatch
  }

  /** Every IRP that was issued on the file object has been completed. */
  ghost predicate IrpsCompleted(s: Sys, f: File) {
    && (forall x: nat :: x < |s.c.rd.owner| && s.c.rd.owner[x] == f ==> ReadCompleted(s.c.rd, x))
    && (forall w: nat :: w < |s.c.tx.owner| && s.c.tx.owner[w] == f ==> WriteCompleted(s.c.tx, w))
    && Total(Weight(UsesOf(f)), s.ts) == 0 && Total(Weight(OpeningOf(f)), s.ts) == 0
  }

  ghost predicate Guard(s: Sys, e: Event) {
    match e
    case Run(t, _) =>
      && t < |s.ts| && WellFormed(s.ts[t]) && Enabled(s.c, s.ts[t])
      && (s.ts[t] == Control(Drain(ShutClose)) ==> Total(Weight(Indicating), s.ts) == 0)
      && (StandsOnFile(s.ts[t]) ==> s.c.frees == 0)
    case StartControl(ctl) => s.ts != [] && MayStart(s.c, s.ts[0], ctl)
    case DispatchRead(f) => f in s.c.fs.here
    case DispatchWrite(f) => f in s.c.fs.here
    case DispatchIoctl(f) => f in s.c.fs.here
    case DispatchOpen(f) => f !in s.c.fs.here && f !in s.c.fs.elsewhere && f !in s.c.fs.begun
    case DispatchCleanup(f) =>
      f in s.c.fs.here && f !in s.c.fs.begun && f !in s.c.fs.cleaned && Total(Weight(OpeningOf(f)), s.ts) == 0
    case DispatchClose(f) => f in s.c.fs.here && f in s.c.fs.cleaned && IrpsCompleted(s, f)
    case CancelReadIrp(x) => x < |s.c.rd.owner|
    case CancelWriteIrp(w) => w < |s.c.tx.owner|
    case Indicate => s.c.b.adapter
    case CompleteSends(ch) => ch != [] && Elements(ch) <= s.c.tx.inNdis && forall w :: Count(ch, w) <= 1
    case TakenElsewhere(f) => f !in s.c.fs.here && f !in s.c.fs.elsewhere
    case DroppedElsewhere(f) => f in s.c.fs.elsewhere
  }

  /** The context change and the new thread of a call from outside. */
  function Arrive(c: Ctx, e: Event): (Ctx, Pc)
    requires !e.Run? && !e.StartControl?
  {
    match e
    case DispatchRead(f) => (c.(rd := c.rd.(owner := c.rd.owner + [f])), Read(|c.rd.owner|, f, Enter))
    case DispatchWrite(f) => (c.(tx := c.tx.(owner := c.tx.owner + [f])), Write(|c.tx.owner|, f, WriteLock))
    case DispatchIoctl(f) => (c, Request(ForIoctl(f), RequestEnter))
    case DispatchOpen(f) => (c, OpenDevice(f, Lookup))
    case DispatchCleanup(f) => (c.(fs := c.fs.(begun := c.fs.begun + {f})), Request(ForCleanup(f), RequestEnter))
    case DispatchClose(f) => (c.(fs := c.fs.(here := c.fs.here - {f})), CloseDrop)
    case CancelReadIrp(x) => (c, CancelRead(x, SetCancel))
    case CancelWriteIrp(w) => (c, CancelWrite(w, TakeWriteRoutine))
    case Indicate => (c.(rx := c.rx.(next := c.rx.next + 1)), Receive(c.rx.next, LookPausing))
    case CompleteSends(ch) => (c.(tx := c.tx.(inNdis := c.tx.inNdis - Elements(ch))), Sent(ch, ClearCancel))
    case TakenElsewhere(f) => (c.(fs := c.fs.(elsewhere := c.fs.elsewhere + {f})), Done)
    case DroppedElsewhere(f) => (c.(fs := c.fs.(elsewhere := c.fs.elsewhere - {f})), Done)
  }

  ghost function Next(s: Sys, e: Event): Sys
    requires Guard(s, e)
  {
    match e
    case Run(t, o) => var (c', pc') := Act(s.c, s.ts[t], o); Sys(c', s.ts[t := pc'])
    case StartControl(ctl) => Sys(s.c, s.ts[0 := Control(ctl)])
    case _ => var (c', pc) := Arrive(s.c, e); Sys(c', s.ts + [pc])
  }

  /** Where a run begins, and the thread that does not move in it, if there is one. */
  datatype Origin = Origin(s: Sys, parked: Option<nat>)

  function Beginning(): Origin {
    Origin(Initially(), None)
  }

  predicate Moves(e: Event, parked: Option<nat>) {
    e.Run? && parked == Some(e.t)
  }

  ghost predicate StepAt(a: Origin, es: seq<Event>, ss: seq<Sys>, i: nat)
    requires i < |es| && i + 1 < |ss|
  {
    !Moves(es[i], a.parked) && Guard(ss[i], es[i]) && ss[i + 1] == Next(ss[i], es[i])
  }

  /** ss is the sequence of states of the run es from the origin. */
  ghost predicate IsRun(a: Origin, es: seq<Event>, ss: seq<Sys>) {
    && |ss| == |es| + 1 && ss[0] == a.s
    && forall i :: 0 <= i < |es| ==> StepAt(a, es, ss, i)
  }

  /** A run from the origin leads to s. */
  ghost predicate Leads(a: Origin, s: Sys) {
    exists es: seq<Event>, ss: seq<Sys> :: IsRun(a, es, ss) && ss[|es|] == s
  }

  ghost predicate Reachable(s: Sys) {
    Leads(Beginning(), s)
  }

  lemma LeadsToItself(a: Origin)
    ensures Leads(a, a.s)
  {
    assert IsRun(a, [], [a.s]);
  }

  lemma LeadsOn(a: Origin, s: Sys, e: Event)
    requires Leads(a, s) && Guard(s, e) && !Moves(e, a.parked)
    ensures Leads(a, Next(s, e))
  {
    var es: seq<Event>, ss: seq<Sys> :| IsRun(a, es, ss) && ss[|es|] == s;
    var es', ss' := es + [e], ss + [Next(s, e)];
    forall i | 0 <= i < |es'| ensures StepAt(a, es', ss', i) {
      if i < |es| {
        assert StepAt(a, es, ss, i);
        assert ss'[i] == ss[i] && es'[i] == es[i] && ss'[i + 1] == ss[i + 1];
      }
    }
    assert IsRun(a, es', ss');
  }

  lemma {:induction false} RunLeads(a: Origin, es: seq<Event>, ss: seq<Sys>, i: nat)
    requires IsRun(a, es, ss) && Reachable(a.s) && i < |ss|
    ensures Reachable(ss[i])
  {
    if i > 0 {
      RunLeads(a, es, ss, i - 1);
      assert StepAt(a, es, ss, i - 1);
      LeadsOn(Beginning(), ss[i - 1], es[i - 1]);
    }
  }
}
