/** What the protocol promises, for every state of every run. */
module Theorems {
  import opened Wrappers
  import opened Lists
  import opened Protocol
  import opened Laws
  import opened Runs
  import opened Invariant
  import opened Actions
  import opened Preserve

  lemma LawHolds(s: Sys, k: Key)
    requires Reachable(s) && IsLaw(k)
    ensures Part(k, s.c) + Total(k, s.ts) == 0
  {
    ReachableInv(s);
  }

  lemma {:induction false} CountBound(ch: seq<nat>, x: nat)
    ensures Count(ch, x) <= |ch|
  {
    if ch != [] {
      CountBound(ch[1..], x);
    }
  }

  /** A thread weighs nothing where the total is nothing. */
  lemma Weightless(k: Key, ts: seq<Pc>)
    requires Total(k, ts) == 0
    ensures forall t :: 0 <= t < |ts| ==> W(k, ts[t]) == 0
  {
    forall t | 0 <= t < |ts| ensures W(k, ts[t]) == 0 {
      TotalAtLeast(k, ts, t);
    }
  }

  /** The histories that the theorems count only ever grow, from step to step of a run. */
  lemma HistoriesOnlyGrow(s: Sys, e: Event)
    requires Reachable(s) && Guard(s, e)
    ensures Grows(s.c, Next(s, e).c) && s.c.frees <= Next(s, e).c.frees
  {
    hide Reachable, Inv, Act, Arrive, Grows;
    ReachableInv(s);
    match e
    case Run(t, o) => RunGrows(s, t, o);
    case StartControl(ctl) => NothingGrows(s.c);
    case _ => ArrivalGrows(s.c, e);
  }

  lemma NothingGrows(c: Ctx)
    ensures Grows(c, c)
  {
  }

  lemma RunGrows(s: Sys, t: nat, o: bool)
    requires Inv(s) && Guard(s, Run(t, o))
    ensures Grows(s.c, Next(s, Run(t, o)).c) && s.c.frees <= Next(s, Run(t, o)).c.frees
  {
    hide Inv, Act, Prepared, Grows, Enabled, Touches;
    Ready(s, t, o);
    HistoriesGrow(s.c, s.ts[t], o);
    ReferenceStep(s.c, s.ts[t], o);
  }

  lemma ArrivalGrows(c: Ctx, e: Event)
    requires !e.Run? && !e.StartControl?
    ensures Grows(c, Arrive(c, e).0) && Arrive(c, e).0.frees == c.frees
  {
    hide Arrive;
    ArriveFrame(c, e);
  }

  // ---- References -----------------------------------------------------------

  /** RefCount is the number of long-lived references plus those that threads
      hold on the way, plus one for each packet dropped while pausing or paused. */
  lemma ReferenceLedger(s: Sys)
    requires Reachable(s)
    ensures s.c.refCount == Ind(s.c.b.bound) + |s.c.fs.here| + |s.c.rd.pended| + |s.c.rx.queue| + |s.c.tx.inNdis|
                            + Total(References, s.ts) + s.c.leaked
    ensures forall t :: 0 <= t < |s.ts| ==> Refs(s.ts[t]) <= s.c.refCount
  {
    LawHolds(s, References);
    forall t | 0 <= t < |s.ts| ensures Refs(s.ts[t]) <= s.c.refCount {
      TotalAtLeast(References, s.ts, t);
    }
  }

  /** No thread accesses the context after it has been freed, except through FsContext alone. */
  lemma NoUseAfterFree(s: Sys, t: nat)
    requires Reachable(s) && t < |s.ts| && Enabled(s.c, s.ts[t]) && Touches(s.c, s.ts[t]) && !StandsOnFile(s.ts[t])
    ensures s.c.frees == 0
    ensures s.c.refCount > 0 || s.ts[t] == Control(Bind(BindRef))
  {
    hide Reachable, Balances, FilesUsed, Working, Exclusive, QuietWrites, EventExact, QuietQueue, Fifo, Drained;
    hide ControlShape, Enabled, Touches, StandsOnFile;
    ReachableInv(s);
    Alive(s, t);
  }

  /** A context on the global list can still be referenced: its binding reference is held. */
  lemma ListedIsHeld(s: Sys)
    requires Reachable(s) && s.c.b.listed
    ensures s.c.b.bound && s.c.frees == 0 && s.c.refCount > 0
  {
    hide Reachable, FilesUsed, Working, Exclusive, QuietWrites, EventExact, QuietQueue, Fifo, Drained;
    ReachableInv(s);
    LawHolds(s, References);
  }

  /** The context is freed at most once, and then nothing is tied to it. */
  lemma FreedContext(s: Sys)
    requires Reachable(s)
    ensures s.c.frees <= 1
    ensures s.c.frees == 1 ==>
              && s.c.refCount == 0 && !s.c.b.handle && !s.c.b.listed && s.c.fs.pFileObject == None && s.c.fs.here == {}
              && s.c.rd.pended == [] && s.c.rx.queue == [] && s.c.tx.inNdis == {} && s.c.leaked == 0
              && Released(s.c.b) && Handler(s) == Control(Gone)
  {
    hide Reachable, FilesUsed, Working, QuietWrites, EventExact, QuietQueue, Fifo, ControlShape, Refs, Drained;
    ReachableInv(s);
    LawHolds(s, References);
    if s.c.frees == 1 {
      Weightless(References, s.ts);
      assert |s.c.tx.inNdis| == 0 && |s.c.fs.here| == 0;
      UnboundShape(s.c.b, s.ts[0]);
    }
  }

  /** A handler that holds no reference, not even that of the binding, is over or has not begun. */
  lemma UnboundShape(b: Binding, pc: Pc)
    requires ControlShape(b, pc) && IsControl(pc) && !b.bound && Refs(pc) == 0 && !Unborn(pc)
    ensures pc == Control(Gone) && !b.handle && !b.listed && Released(b)
  {
    match pc
    case Purge(_, _) =>
    case Flush(_, _) =>
    case _ =>
  }

  /** The context has been freed exactly if the binding is gone, no file object is tied to it, no thread
      holds a reference, and none was leaked. */
  lemma FreedExactly(s: Sys)
    requires Reachable(s)
    ensures s.c.frees == 1 <==> Handler(s) == Control(Gone) && s.c.fs.here == {} && s.c.leaked == 0
                                && Total(References, s.ts) == 0
  {
    hide Reachable, FilesUsed, Working, Exclusive, QuietWrites, EventExact, QuietQueue, Fifo;
    ReachableInv(s);
    FreedContext(s);
    LawHolds(s, References);
    CountsPositive(s);
  }

  /** A packet is turned away under the lock: one of the two loads of State finds its value. */
  predicate TurnsAway(s: Sys, e: Event) {
    && e.Run? && e.t < |s.ts| && s.ts[e.t].Receive?
    && ((s.ts[e.t].q.QueueLock? && s.c.b.state == Paused) || (s.ts[e.t].q.QueueAgain? && s.c.b.state == Pausing))
  }

  lemma LeakStep(s: Sys, e: Event)
    requires Reachable(s) && Guard(s, e)
    ensures Next(s, e).c.leaked == s.c.leaked + Ind(TurnsAway(s, e))
  {
    if e.Run? {
      ReachableInv(s);
      Ready(s, e.t, e.o);
      LeakAct(s.c, s.ts[e.t], e.o);
    }
  }

  lemma LeakAct(c: Ctx, pc: Pc, o: bool)
    requires WellFormed(pc) && Prepared(c, pc)
    ensures Act(c, pc, o).0.leaked == c.leaked
              + Ind(pc.Receive? && ((pc.q.QueueLock? && c.b.state == Paused)
                                    || (pc.q.QueueAgain? && c.b.state == Pausing)))
  {
    hide ServiceTest, ActControl, PurgeTest, WriteSection, ActSent, ActRequest, ActOpen;
    match pc
    case Service(k, v) => TakeRest(c, k, 0); TakeRest(c.(rd := c.rd.(count := c.rd.count - 1)), k, 0);
    case Purge(k, p) => PurgeKeepsLeaked(c, k, p);
    case Write(w, f, wp) => WriteKeepsLeaked(c, w, f, wp, o);
    case Sent(ch, sp) => SentKeepsLeaked(c, ch, sp);
    case Request(k, rp) => RequestKeepsLeaked(c, k, rp, o);
    case OpenDevice(f, op) => OpenKeepsLeaked(c, f, op, o);
    case Control(ctl) => ControlStep(c, ctl, o);
    case _ =>
  }

  lemma PurgeKeepsLeaked(c: Ctx, k: PurgeCaller, p: PurgePc)
    ensures ActPurge(c, k, p).0.leaked == c.leaked
  {
  }

  lemma WriteKeepsLeaked(c: Ctx, w: Irp, f: File, wp: WritePc, o: bool)
    ensures ActWrite(c, w, f, wp, o).0.leaked == c.leaked
  {
  }

  lemma SentKeepsLeaked(c: Ctx, ch: seq<Irp>, sp: SentPc)
    requires ch != []
    ensures ActSent(c, ch, sp).0.leaked == c.leaked
  {
  }

  lemma RequestKeepsLeaked(c: Ctx, k: RequestCaller, rp: RequestPc, o: bool)
    ensures ActRequest(c, k, rp, o).0.leaked == c.leaked
  {
  }

  lemma OpenKeepsLeaked(c: Ctx, f: File, op: OpenPc, o: bool)
    ensures ActOpen(c, f, op, o).0.leaked == c.leaked
  {
  }

  /** Nothing is going on any more: the binding is gone, every thread has
      returned and every file object has been closed. */
  predicate AllGone(s: Sys) {
    && s.ts != [] && s.ts[0] == Control(Gone) && s.c.fs.here == {}
    && (forall t :: 0 < t < |s.ts| ==> s.ts[t] == Done)
  }

  lemma {:induction false} DoneWeighsNothing(k: Key, ts: seq<Pc>)
    requires forall t :: 0 <= t < |ts| ==> ts[t] == Done
    ensures Total(k, ts) == 0
  {
    if ts != [] {
      DoneWeighsNothing(k, ts[1..]);
      match k
      case OfReads(rk) => NoReadsWeight(Done, rk);
      case OfSends(sk) => NoSendsWeight(Done, sk);
      case _ =>
    }
  }

  /** When everything is over, what is left of the reference count is what was
      leaked, so the context has been freed exactly if no packet was dropped
      while pausing or paused. */
  lemma FreedUnlessLeaked(s: Sys)
    requires Reachable(s) && AllGone(s)
    ensures s.c.refCount == s.c.leaked
    ensures s.c.frees == 1 <==> s.c.leaked == 0
  {
    ReachableInv(s);
    LawHolds(s, References);
    LawHolds(s, OfReads(InFlight));
    CountsPositive(s);
    DoneWeighsNothing(References, s.ts[1..]);
    DoneWeighsNothing(OfReads(InFlight), s.ts[1..]);
    assert Total(References, s.ts) == Refs(s.ts[0]) + Total(References, s.ts[1..]);
  }

  /** How many packets the run turns away on its way to state j. */
  function TurnedAway(es: seq<Event>, ss: seq<Sys>, j: nat): nat
    requires j < |ss| && |ss| == |es| + 1
  {
    if j == 0 then 0 else TurnedAway(es, ss, j - 1) + Ind(TurnsAway(ss[j - 1], es[j - 1]))
  }

  lemma BeginningReachable()
    ensures Reachable(Beginning().s)
  {
    LeadsToItself(Beginning());
  }

  lemma {:induction false} LeakedAreTurnedAway(es: seq<Event>, ss: seq<Sys>, j: nat)
    requires IsRun(Beginning(), es, ss) && j < |ss|
    ensures ss[j].c.leaked == TurnedAway(es, ss, j)
  {
    hide Reachable, Guard, Next, TurnsAway;
    if j > 0 {
      LeakedAreTurnedAway(es, ss, j - 1);
      BeginningReachable();
      RunLeads(Beginning(), es, ss, j - 1);
      assert StepAt(Beginning(), es, ss, j - 1);
      LeakStep(ss[j - 1], es[j - 1]);
    }
  }

  lemma {:induction false} NoneTurnedAway(es: seq<Event>, ss: seq<Sys>, j: nat)
    requires j < |ss| && |ss| == |es| + 1
    ensures TurnedAway(es, ss, j) == 0 <==> forall i :: 0 <= i < j ==> !TurnsAway(ss[i], es[i])
  {
    hide TurnsAway;
    if j > 0 {
      NoneTurnedAway(es, ss, j - 1);
    }
  }

  /** What a run leaves of the reference count, when everything is over, is the number of packets that it
      turned away; the context has been freed exactly if it turned none away. */
  lemma FreedUnlessTurnedAway(es: seq<Event>, ss: seq<Sys>, j: nat)
    requires IsRun(Beginning(), es, ss) && j < |ss| && AllGone(ss[j])
    ensures ss[j].c.refCount == TurnedAway(es, ss, j)
    ensures ss[j].c.frees == 1 <==> forall i :: 0 <= i < j ==> !TurnsAway(ss[i], es[i])
  {
    hide Reachable, TurnsAway, AllGone, StepAt;
    BeginningReachable();
    RunLeads(Beginning(), es, ss, j);
    FreedUnlessLeaked(ss[j]);
    LeakedAreTurnedAway(es, ss, j);
    NoneTurnedAway(es, ss, j);
  }

  // ---- The lock ---------------------------------------------------------------

  /** What the sections under the lock edit. */
  function UnderLock(c: Ctx): (seq<Irp>, int, seq<Nbl>, int, seq<Irp>, int, bool, BindState, bool, Option<File>) {
    (c.rd.pended, c.rd.count, c.rx.queue, c.rx.count, c.tx.pended, c.tx.count, c.tx.closingEvent, c.b.bind,
     c.fs.openActive, c.fs.pFileObject)
  }

  predicate SameUnderLock(c: Ctx, c': Ctx) {
    c'.lock == c.lock && UnderLock(c') == UnderLock(c)
  }

  /** The thread is about to walk or test one of the three lists. */
  predicate LooksAtLists(pc: Pc) {
    match pc
    case Service(_, v) => v.ServeTop? || v.ServeDecrement?
    case CancelRead(_, cr) => cr.Unlink?
    case Purge(_, p) => p.PurgeTop? || p.PurgeDecrement?
    case Flush(_, fl) => fl.FlushTop?
    case Sent(_, sp) => sp.UnlinkWrite?
    case CancelWrite(_, cw) => cw.FindWrite?
    case _ => false
  }

  /** While one thread holds the lock between two of its actions, no other thread moves what the lock guards, looks
      at the lists, or takes the lock. */
  lemma LockExcludes(s: Sys, e: Event)
    requires Reachable(s) && Guard(s, e) && s.c.lock.Some?
    requires e.Run? ==> !HoldsLock(s.ts[e.t], s.c.lock.value)
    ensures SameUnderLock(s.c, Next(s, e).c)
    ensures e.Run? ==> !LooksAtLists(s.ts[e.t])
  {
    hide Reachable, FilesUsed, Working, Exclusive, QuietWrites, EventExact, QuietQueue, Fifo, FreedOnce, ControlShape;
    hide Act;
    ReachableInv(s);
    if e.Run? {
      var pc := s.ts[e.t];
      if pc.Read? && (pc.r.Test? || pc.r.List?) {
        HolderHasLock(s, e.t, ByRead(pc.x));
      } else if pc.Receive? && pc.q.QueueAgain? {
        HolderHasLock(s, e.t, ByReceive(pc.n));
      }
      LockedOut(s.c, pc, e.o);
    } else if !e.StartControl? {
      hide Arrive;
      ArriveFrame(s.c, e);
      ArriveAssociation(s.c, e);
    }
  }

  lemma ArriveAssociation(c: Ctx, e: Event)
    requires !e.Run? && !e.StartControl?
    ensures Arrive(c, e).0.fs.openActive == c.fs.openActive && Arrive(c, e).0.fs.pFileObject == c.fs.pFileObject
  {
  }

  lemma LockedOut(c: Ctx, pc: Pc, o: bool)
    requires WellFormed(pc) && Enabled(c, pc) && c.lock.Some?
    requires !(pc.Read? && (pc.r.Test? || pc.r.List?)) && !(pc.Receive? && pc.q.QueueAgain?)
    ensures SameUnderLock(c, Act(c, pc, o).0)
  {
    hide ActControl, ServiceTest, PurgeTest, WriteSection, ActSent, ActRead, ActOpen;
    match pc
    case Read(x, f, r) => ReadLockedOut(c, x, f, r);
    case Sent(ch, sp) => SentLockedOut(c, ch, sp);
    case OpenDevice(f, op) => OpenLockedOut(c, f, op, o);
    case Control(ctl) => ControlLockedOut(c, ctl, o);
    case _ =>
  }

  lemma ReadLockedOut(c: Ctx, x: Irp, f: File, r: ReadPc)
    requires r.Fail? || r.Late?
    ensures SameUnderLock(c, ActRead(c, x, f, r).0)
  {
  }

  lemma SentLockedOut(c: Ctx, ch: seq<Irp>, sp: SentPc)
    requires ch != [] && !TakesLock(Sent(ch, sp))
    ensures SameUnderLock(c, ActSent(c, ch, sp).0)
  {
  }

  lemma OpenLockedOut(c: Ctx, f: File, op: OpenPc, o: bool)
    requires op.Lookup? || op.OpenDrop?
    ensures SameUnderLock(c, ActOpen(c, f, op, o).0)
  {
  }

  lemma ControlLockedOut(c: Ctx, ctl: ControlPc, o: bool)
    requires Enabled(c, Control(ctl)) && c.lock.Some?
    ensures SameUnderLock(c, ActControl(c, ctl, o).0)
  {
    hide ActBind, ActResource, ActUnbind, ActDrain, ActRelease, ActEvent, UnderLock;
    match ctl
    case Bind(bp) => BindLockedOut(c, bp);
    case Resource(rp) => ResourceLockedOut(c, rp, o);
    case Unbind(up) => UnbindLockedOut(c, up);
    case Drain(dp) => DrainLockedOut(c, dp);
    case Release(sp, failed) => ReleaseLockedOut(c, sp, failed);
    case Event(ep) => EventLockedOut(c, ep);
    case _ =>
  }

  lemma BindLockedOut(c: Ctx, bp: BindPc)
    requires !TakesLock(Control(Bind(bp)))
    ensures SameUnderLock(c, ActBind(c, bp).0)
  {
    match bp
    case BindRef =>
    case BindList =>
    case BindHold =>
    case BindPaused =>
    case BindRelease =>
  }

  lemma ResourceLockedOut(c: Ctx, rp: ResourcePc, o: bool)
    ensures SameUnderLock(c, ActResource(c, rp, o).0)
  {
    match rp
    case BindName =>
    case BindAdapter =>
    case _ =>
  }

  lemma UnbindLockedOut(c: Ctx, up: UnbindPc)
    requires !TakesLock(Control(Unbind(up)))
    ensures SameUnderLock(c, ActUnbind(c, up).0)
  {
  }

  lemma DrainLockedOut(c: Ctx, dp: DrainPc)
    ensures SameUnderLock(c, ActDrain(c, dp).0)
  {
  }

  lemma ReleaseLockedOut(c: Ctx, sp: ReleasePc, failed: bool)
    requires !TakesLock(Control(Release(sp, failed)))
    ensures SameUnderLock(c, ActRelease(c, sp, failed).0)
  {
    match sp
    case ShutHandle =>
    case ShutUnlist =>
    case ShutFree =>
    case _ =>
  }

  lemma EventLockedOut(c: Ctx, ep: EventPc)
    requires !TakesLock(Control(Event(ep)))
    ensures SameUnderLock(c, ActEvent(c, ep).0)
  {
    match ep
    case PauseDone =>
    case Restart =>
    case SetPower(_) =>
  }

  // ---- Reads ------------------------------------------------------------------

  /** Every issued read is in exactly one place: on the list, in the hands of one
      thread, or completed by one of the four completers. */
  lemma ReadInOnePlace(s: Sys, x: Irp)
    requires Reachable(s)
    ensures Count(s.c.rd.pended, x) + Total(OfReads(At(x)), s.ts) + Count(s.c.rd.served, x) + Count(s.c.rd.byCancel, x)
            + Count(s.c.rd.byPurge, x) + Count(s.c.rd.byDispatch, x) == Ind(x < |s.c.rd.owner|)
  {
    LawHolds(s, OfReads(At(x)));
  }

  /** A read that returned PENDING is completed at most once, and never by its
      dispatch routine; a read that did not is completed by its dispatch routine only. */
  lemma PendingReadCompletedOnce(s: Sys, x: Irp)
    requires Reachable(s)
    ensures Count(s.c.rd.served, x) + Count(s.c.rd.byCancel, x) + Count(s.c.rd.byPurge, x)
            + Count(s.c.rd.byDispatch, x) <= 1
    ensures x in s.c.rd.stored ==> Count(s.c.rd.byDispatch, x) == 0
    ensures x !in s.c.rd.stored ==>
              Count(s.c.rd.served, x) == 0 && Count(s.c.rd.byCancel, x) == 0 && Count(s.c.rd.byPurge, x) == 0
  {
    LawHolds(s, OfReads(At(x)));
    LawHolds(s, OfReads(Listed(x)));
    TotalBelow(OfReads(Listed(x)), OfReads(At(x)), s.ts);
  }

  predicate Claims(pc: Pc, x: Irp) {
    pc.CancelRead? && pc.x == x && (pc.cr.Fetch? || pc.cr.NullContext? || pc.cr.Unlink?)
  }

  /** While the lock is free, a listed read has its cancel routine exactly if no
      cancel routine is on its way to unlink it, and no two are on their way. */
  lemma ListedReadClaimedOnce(s: Sys, x: Irp)
    requires Reachable(s) && x in s.c.rd.pended
    ensures x in s.c.rd.routine <==> !exists t :: 0 <= t < |s.ts| && Claims(s.ts[t], x)
    ensures forall t, u :: 0 <= t < |s.ts| && 0 <= u < |s.ts| && Claims(s.ts[t], x) && Claims(s.ts[u], x) ==> t == u
  {
    var k := OfReads(Claimed(x));
    LawHolds(s, k);
    LawHolds(s, OfReads(At(x)));
    LawHolds(s, OfReads(Listed(x)));
    LawHolds(s, LockHeld(ByRead(x)));
    CountIn(s.c.rd.pended, x);
    TotalBelow(LockHeld(ByRead(x)), OfReads(At(x)), s.ts);
    forall t, u | 0 <= t < |s.ts| && 0 <= u < |s.ts| && Claims(s.ts[t], x) && Claims(s.ts[u], x) ensures t == u {
      if t < u {
        TotalOfTwo(k, s.ts, t, u);
      } else if u < t {
        TotalOfTwo(k, s.ts, u, t);
      }
    }
    if x in s.c.rd.routine {
      Weightless(k, s.ts);
      forall t | 0 <= t < |s.ts| ensures !Claims(s.ts[t], x) {
        assert W(k, s.ts[t]) == 0;
      }
    } else {
      var t := TotalWitness(k, s.ts);
      assert Claims(s.ts[t], x);
    }
  }

  /** The cancel routine finds no context in the IRP exactly while the read
      dispatch routine is between installing the routine and listing the IRP. */
  lemma FetchFindsNull(s: Sys, t: nat)
    requires Reachable(s) && t < |s.ts| && s.ts[t].CancelRead? && s.ts[t].cr.Fetch?
    ensures s.ts[t].x !in s.c.rd.stored <==> s.c.lock == Some(ByRead(s.ts[t].x))
  {
    var x := s.ts[t].x;
    LawHolds(s, OfReads(Claimed(x)));
    LawHolds(s, OfReads(At(x)));
    LawHolds(s, OfReads(Listed(x)));
    LawHolds(s, LockHeld(ByRead(x)));
    TotalAtLeast(OfReads(Claimed(x)), s.ts, t);
    if s.c.lock == Some(ByRead(x)) {
      var u := TotalWitness(LockHeld(ByRead(x)), s.ts);
      TotalDominated(OfReads(Listed(x)), OfReads(At(x)), s.ts, u);
    }
  }

  /** A purge thread at the lock leaves exactly if no read is listed, takes the first one exactly if that has its
      cancel routine, and otherwise waits for a cancel routine that is on its way to unlink it. */
  lemma PurgeDecides(s: Sys, t: nat, k: PurgeCaller, o: bool)
    requires Reachable(s) && t < |s.ts| && (s.ts[t] == Purge(k, PurgeTop) || s.ts[t] == Purge(k, PurgeDecrement))
    ensures var (rd, next) := (s.c.rd, Act(s.c, s.ts[t], o).1);
            var rd' := Act(s.c, s.ts[t], o).0.rd;
            && (next == Purge(k, PurgeExit) <==> rd.pended == [])
            && (rd.pended != [] ==>
                  var x := rd.pended[0];
                  && (next == Purge(k, PurgeComplete(x)) <==> x in rd.routine)
                  && (x in rd.routine ==> rd'.pended == rd.pended[1..] && rd'.routine == rd.routine - {x})
                  && (x !in rd.routine ==> next == Purge(k, PurgeTop) && rd'.pended == rd.pended
                                           && exists u :: 0 <= u < |s.ts| && Claims(s.ts[u], x)))
  {
    hide Reachable;
    if s.c.rd.pended != [] {
      var x := s.c.rd.pended[0];
      assert x in s.c.rd.pended;
      ListedReadClaimedOnce(s, x);
    }
  }

  /** PendedReadCount is the number of listed reads and of reads that a service
      or purge thread has taken off the list and not counted down yet. */
  lemma ReadsInFlight(s: Sys)
    requires Reachable(s)
    ensures s.c.rd.count == |s.c.rd.pended| + Total(OfReads(InFlight), s.ts)
  {
    LawHolds(s, OfReads(InFlight));
  }

  // ---- Packets ------------------------------------------------------------------

  /** Every indicated packet is in exactly one place: queued, held by one thread,
      or given back once. */
  lemma PacketInOnePlace(s: Sys, n: Nbl)
    requires Reachable(s)
    ensures Count(s.c.rx.queue, n) + Total(OfPacket(n), s.ts) + Count(s.c.rx.returned, n) == Ind(n < s.c.rx.next)
    ensures Count(s.c.rx.returned, n) <= 1
  {
    LawHolds(s, OfPacket(n));
  }

  /** The queue is a FIFO of at most 4096 packets: what ever entered is what left, in order, and what is there. */
  lemma QueueIsFifo(s: Sys)
    requires Reachable(s)
    ensures s.c.rx.entered == s.c.rx.left + s.c.rx.queue
    ensures s.c.rx.count == |s.c.rx.queue| <= 4096
  {
    ReachableInv(s);
  }

  /** A packet that is dropped from a full queue is the oldest one. */
  lemma TrimDropsOldest(s: Sys, n: Nbl)
    requires Reachable(s) && s.c.b.state != Pausing && s.c.b.bind == BindActive && s.c.b.d0
    ensures var (c', pc') := QueueSection(s.c, n);
            var all := s.c.rx.queue + [n];
            if |s.c.rx.queue| < 4096 then c'.rx.queue == all && pc'.Service?
            else c'.rx.queue == all[1..] && pc' == Receive(all[0], TrimFree)
  {
    ReachableInv(s);
  }

  /** While the lock is free: if a packet is queued and a read can be claimed, some
      thread is going to look at both again. */
  lemma WorkConservation(s: Sys)
    requires Reachable(s) && s.c.rx.queue != []
    requires exists x :: x in s.c.rd.pended && x in s.c.rd.routine
    ensures exists t :: 0 <= t < |s.ts| && IsCommitted(s.ts[t])
  {
    ReachableInv(s);
    Claimable(s.c.rd);
    var t := TotalWitness(Weight(Committed), s.ts);
    assert IsCommitted(s.ts[t]);
  }

  // ---- Writes -------------------------------------------------------------------

  /** Every issued write is in exactly one place, and is completed at most once. */
  lemma WriteInOnePlace(s: Sys, w: Irp)
    requires Reachable(s)
    ensures Ind(w in s.c.tx.inNdis) + Total(OfSends(WriteAt(w)), s.ts) + Count(s.c.tx.bySendComplete, w)
            + Count(s.c.tx.byDispatch, w) == Ind(w < |s.c.tx.owner|)
    ensures Count(s.c.tx.bySendComplete, w) + Count(s.c.tx.byDispatch, w) <= 1
  {
    LawHolds(s, OfSends(WriteAt(w)));
  }

  /** A write that went pending is completed by SendComplete only. */
  lemma PendingWriteCompletedBySendComplete(s: Sys, w: Irp)
    requires Reachable(s)
    ensures w in s.c.tx.went ==> Count(s.c.tx.byDispatch, w) == 0
    ensures w !in s.c.tx.went ==> Count(s.c.tx.bySendComplete, w) == 0
  {
    LawHolds(s, OfSends(WriteAt(w)));
    LawHolds(s, OfSends(WentAt(w)));
    TotalBelow(OfSends(WentAt(w)), OfSends(WriteAt(w)), s.ts);
  }

  /** The net buffer list of a write is freed at most once, not before its
      write went pending, and no thread that still reads it finds it freed. */
  lemma SendNblFreedOnce(s: Sys, w: Irp)
    requires Reachable(s)
    ensures Count(s.c.tx.nblFreed, w) <= 1
    ensures Count(s.c.tx.bySendComplete, w) <= Count(s.c.tx.nblFreed, w)
    ensures forall t :: 0 <= t < |s.ts| && s.ts[t].Sent? && s.ts[t].chain != [] && s.ts[t].chain[0] == w
                        && Stage(s.ts[t].sp) < 3 ==>
              Count(s.c.tx.nblFreed, w) == 0
    ensures forall t :: 0 <= t < |s.ts| && s.ts[t].Sent? && s.ts[t].chain != [] && w in s.ts[t].chain[1..] ==>
              Count(s.c.tx.nblFreed, w) == 0
  {
    var k := OfSends(SendNblAt(w));
    LawHolds(s, k);
    LawHolds(s, OfSends(WentAt(w)));
    TotalBelow(k, OfSends(WentAt(w)), s.ts) by {
      forall pc {:trigger W(k, pc)} ensures W(k, pc) <= W(OfSends(WentAt(w)), pc) {
        if pc.Sent? && pc.chain != [] {
          CountTail(pc.chain);
        }
      }
    }
    forall t | 0 <= t < |s.ts| && s.ts[t].Sent? && s.ts[t].chain != []
               && (w in s.ts[t].chain[1..] || (Stage(s.ts[t].sp) < 3 && s.ts[t].chain[0] == w))
      ensures Count(s.c.tx.nblFreed, w) == 0
    {
      TotalAtLeast(k, s.ts, t);
      CountIn(s.ts[t].chain[1..], w);
      CountTail(s.ts[t].chain);
    }
  }

  /** A context pointer that CancelWrite finds under the cancel lock is backed by
      the reference of a send that is still outstanding, and CancelWrite always
      finds one: its branch for NULL is never taken. */
  lemma CancelWriteFindsContext(s: Sys, w: Irp)
    requires Reachable(s)
    ensures w in s.c.tx.stored ==> s.c.refCount > 0 && s.c.frees == 0
    ensures w in s.c.tx.routine ==> w in s.c.tx.stored
  {
    ReachableInv(s);
    if w in s.c.tx.stored {
      OnSend(s, w);
      LawHolds(s, References);
    }
  }

  /** CancelWrite, like the cancellation of a read, never completes a write. */
  lemma OnlySendCompleteCompletes(c: Ctx, pc: Pc, o: bool)
    requires WellFormed(pc) && Prepared(c, pc)
    requires Act(c, pc, o).0.tx.bySendComplete != c.tx.bySendComplete
    ensures pc.Sent? && pc.sp.SentComplete?
    ensures Act(c, pc, o).0.tx.bySendComplete == c.tx.bySendComplete + [pc.chain[0]]
  {
    match pc
    case Read(x, f, r) => ReadActRest(c, x, f, r);
    case Service(q, v) => ServiceActFrame(c, q, v);
    case CancelRead(x, cr) => CancelReadActRest(c, x, cr);
    case Control(ctl) => ControlStep(c, ctl, o);
    case Purge(q, p) => PurgeActRest(c, q, p);
    case Flush(q, fl) => FlushActFrame(c, q, fl);
    case Receive(m, q) => ReceiveActFrame(c, m, q);
    case _ =>
  }

  /** PendedSendCount is the number of outstanding writes and of running OID requests. */
  lemma SendsInFlight(s: Sys)
    requires Reachable(s)
    ensures s.c.tx.count == WritesOutstanding(s) + Total(Weight(RequestsOut), s.ts)
  {
    LawHolds(s, OfSends(Counted));
    TotalSum(OfSends(Counted), Weight(WritesOut), Weight(RequestsOut), s.ts);
  }

  // ---- Shutdown -------------------------------------------------------------------

  /** ClosingEvent is set exactly while the binding is closing and something is counted. */
  lemma ClosingEventExact(s: Sys)
    requires Reachable(s)
    ensures s.c.tx.closingEvent <==> s.c.b.bind == BindClosing && s.c.tx.count > 0
    ensures s.c.tx.closingEvent ==> !s.c.tx.signalled
    ensures Handler(s) == Control(Gone) ==> !s.c.tx.closingEvent
  {
    ReachableInv(s);
  }

  /** The thread that brings the count to zero while the binding closes finds
      the event, signals it, and takes it away. */
  lemma LastDecrementSignals(s: Sys, t: nat, o: bool)
    requires Reachable(s) && Guard(s, Run(t, o)) && s.c.b.bind == BindClosing
    requires Next(s, Run(t, o)).c.tx.count == 0 && s.c.tx.count > 0
    ensures s.c.tx.closingEvent
    ensures Next(s, Run(t, o)).c.tx.signalled && !Next(s, Run(t, o)).c.tx.closingEvent
  {
    ReachableInv(s);
    Ready(s, t, o);
    if t == 0 {
      NoCountInControl(s.c, s.ts[0], o);
    } else {
      OthersGentle(s.c, s.ts[t], o);
    }
  }

  lemma NoCountInControl(c: Ctx, pc: Pc, o: bool)
    requires IsControl(pc) && Prepared(c, pc)
    ensures WellFormed(pc) && Act(c, pc, o).0.tx.count == c.tx.count
  {
    match pc
    case Purge(k, p) => PurgeActRest(c, k, p);
    case Flush(k, fl) => FlushActFrame(c, k, fl);
    case Control(ctl) => ControlStep(c, ctl, o);
    case _ =>
  }

  /** From CLOSING on nothing enters: no count rises, no read is listed, no packet is queued. */
  lemma NothingEntersAfterClosing(s: Sys, e: Event)
    requires Reachable(s) && Guard(s, e) && s.c.b.bind == BindClosing
    ensures var s' := Next(s, e);
            && s'.c.tx.count <= s.c.tx.count && s'.c.rd.count <= s.c.rd.count
            && (s.c.rx.queue == [] ==> s'.c.rx.queue == [])
            && s'.c.b.bind != BindActive
  {
    ReachableInv(s);
    if e.Run? {
      Ready(s, e.t, e.o);
      if e.t == 0 {
        NoCountInControl(s.c, s.ts[0], e.o);
        ClosingControl(s, e.o);
      } else {
        OthersGentle(s.c, s.ts[e.t], e.o);
      }
    } else if e.StartControl? {
    } else {
      ArriveFrame(s.c, e);
    }
  }

  lemma ClosingControl(s: Sys, o: bool)
    requires Inv(s) && Guard(s, Run(0, o)) && s.c.b.bind == BindClosing
    ensures var c' := Next(s, Run(0, o)).c;
            && c'.rd.count <= s.c.rd.count && (s.c.rx.queue == [] ==> c'.rx.queue == []) && c'.b.bind != BindActive
  {
    var pc := s.ts[0];
    Ready(s, 0, o);
    if pc.Purge? {
      PurgeGentle(s.c, pc.pk, pc.p);
    } else if pc.Flush? {
      FlushGentle(s.c, pc.fk, pc.fl);
    } else {
      ControlStep(s.c, pc.ctl, o);
    }
  }

  /** Shutdown that waits is woken: as long as the event is not signalled something is
      still counted, and once it is signalled nothing is. */
  lemma WaitIsWoken(s: Sys)
    requires Reachable(s) && Handler(s) == Control(Drain(ShutWait))
    ensures s.c.tx.signalled <==> s.c.tx.count == 0
    ensures !s.c.tx.signalled ==> s.c.tx.closingEvent && s.c.tx.count > 0
  {
    ReachableInv(s);
    RunBalancesPositive(s);
  }

  lemma RunBalancesPositive(s: Sys)
    requires Inv(s)
    ensures s.c.tx.count >= 0 && s.c.rd.count >= 0
  {
    CountsPositive(s);
  }

  /** After its test of PendedSendCount shutdown loads a NULL event exactly if the
      last send or request finished between the test and the load. */
  lemma WaitLoadsNull(s: Sys)
    requires Reachable(s) && Handler(s) == Control(Drain(ShutLoad))
    ensures ActDrain(s.c, ShutLoad).1 == Control(Drain(ShutNull)) <==> s.c.tx.count == 0
  {
    ReachableInv(s);
    CountsPositive(s);
  }

  /** When shutdown reaches NdisCloseAdapterEx nothing is in flight: both counters are
      zero, the three lists are empty, NDIS owns no send, and no service or purge thread
      holds a read or a packet. */
  lemma DrainedBeforeClose(s: Sys)
    requires Reachable(s) && Handler(s) == Control(Drain(ShutClose))
    ensures s.c.tx.count == 0 && s.c.rd.count == 0
    ensures s.c.rd.pended == [] && s.c.tx.pended == [] && s.c.rx.queue == [] && s.c.tx.inNdis == {}
    ensures forall t :: 0 <= t < |s.ts| ==>
              && (s.ts[t].Service? ==> s.ts[t].v.ServeRef? || s.ts[t].v.ServeTop? || s.ts[t].v.ServeExit?)
              && (s.ts[t].Purge? ==> s.ts[t].p.PurgeRef? || s.ts[t].p.PurgeTop? || s.ts[t].p.PurgeExit?)
              && (s.ts[t].Write? ==> !s.ts[t].wp.WriteSend?)
              && (s.ts[t].Sent? ==> s.ts[t].sp.SentDrop? && |s.ts[t].chain| == 1)
              && (s.ts[t].Request? ==> s.ts[t].rp.RequestEnter?)
  {
    ReachableInv(s);
    CountsPositive(s);
    assert |s.c.tx.inNdis| == 0;
    NoWriteListed(s);
    Weightless(OfReads(InFlight), s.ts);
    Weightless(OfSends(Counted), s.ts);
    forall t | 0 <= t < |s.ts| ensures
              && (s.ts[t].Service? ==> s.ts[t].v.ServeRef? || s.ts[t].v.ServeTop? || s.ts[t].v.ServeExit?)
              && (s.ts[t].Purge? ==> s.ts[t].p.PurgeRef? || s.ts[t].p.PurgeTop? || s.ts[t].p.PurgeExit?)
              && (s.ts[t].Write? ==> !s.ts[t].wp.WriteSend?)
              && (s.ts[t].Sent? ==> s.ts[t].sp.SentDrop? && |s.ts[t].chain| == 1)
              && (s.ts[t].Request? ==> s.ts[t].rp.RequestEnter?)
    {
      assert W(OfReads(InFlight), s.ts[t]) == 0 && W(OfSends(Counted), s.ts[t]) == 0;
      assert WellFormed(s.ts[t]);
    }
  }

  lemma NoWriteListed(s: Sys)
    requires Reachable(s) && s.c.tx.count == 0
    ensures s.c.tx.pended == []
  {
    hide Reachable, FilesUsed, Working, Exclusive, FreedOnce, QuietWrites, EventExact, QuietQueue, Fifo, Drained,
        ControlShape;
    ReachableInv(s);
    CountsPositive(s);
    if s.c.tx.pended != [] {
      var w := s.c.tx.pended[0];
      var k := OfSends(LinkedAt(w));
      LawHolds(s, k);
      CountIn(s.c.tx.pended, w);
      TotalBelow(k, OfSends(Counted), s.ts) by {
        forall pc {:trigger W(k, pc)} ensures W(k, pc) <= W(OfSends(Counted), pc) {
          if pc.Sent? && pc.chain != [] {
            CountBound(pc.chain, w);
            CountBound(pc.chain[1..], w);
            CountTail(pc.chain);
          }
        }
      }
    }
  }

  /** While a send, a request or a read is counted or a packet is queued, the binding handle is open. */
  lemma CountedKeepsHandle(s: Sys)
    requires Reachable(s) && (s.c.tx.count > 0 || s.c.rd.count > 0 || s.c.rx.queue != [])
    ensures s.c.b.handle && s.c.b.adapter && s.c.b.listed && s.c.b.bound
  {
    hide Reachable, Balances, FilesUsed, Working, Exclusive, QuietWrites, EventExact, QuietQueue, Fifo, FreedOnce;
    ReachableInv(s);
    CountedShape(s.c, s.ts[0]);
  }

  /** The control thread is between the open of the adapter and its close. */
  predicate AdapterOpen(pc: Pc) {
    match pc
    case Control(Bound) => true
    case Control(Bind(bp)) => bp.BindPaused? || bp.BindActivate? || bp.BindRelease?
    case Control(Unbind(up)) => !(up.ShutLock? && up.failed)
    case Control(Drain(_)) => true
    case Control(Event(_)) => true
    case Purge(_, _) => true
    case Flush(_, _) => true
    case _ => false
  }

  /** The binding handle is open exactly from the open of the adapter to NdisCloseAdapterEx, and stays in its
      field until the next statement of shutdown. */
  lemma HandleOpen(s: Sys)
    requires Reachable(s)
    ensures s.c.b.adapter <==> AdapterOpen(Handler(s))
    ensures s.c.b.handle <==> s.c.b.adapter || Handler(s) == Control(Release(ShutHandle, false))
  {
    hide Reachable, Balances, FilesUsed, Working, Exclusive, QuietWrites, EventExact, QuietQueue, Fifo, FreedOnce;
    hide Drained;
    ReachableInv(s);
    HandleShape(s.c.b, s.ts[0]);
  }

  lemma HandleShape(b: Binding, pc: Pc)
    requires IsControl(pc) && ControlShape(b, pc)
    ensures b.adapter <==> AdapterOpen(pc)
    ensures b.handle <==> b.adapter || pc == Control(Release(ShutHandle, false))
  {
  }

  /** CancelWrite hands NDIS a handle of an open adapter exactly if shutdown has not passed NdisCloseAdapterEx.
      As long as the write it cancels is not completed, shutdown has not: then the IRP may still be read, and
      the handle is open. */
  lemma CancelSendHandle(s: Sys, t: nat)
    requires Reachable(s) && t < |s.ts| && s.ts[t].CancelWrite? && s.ts[t].cw.CancelSend?
    ensures s.c.b.adapter <==> AdapterOpen(Handler(s))
    ensures s.c.b.handle <==> s.c.b.adapter || Handler(s) == Control(Release(ShutHandle, false))
    ensures Count(s.c.tx.bySendComplete, s.ts[t].w) == 0 ==> s.c.b.handle && s.c.b.adapter
  {
    hide Reachable, Balances, FilesUsed, Working, Exclusive, QuietWrites, EventExact, QuietQueue, Fifo, FreedOnce;
    hide Drained;
    hide ControlShape;
    HandleOpen(s);
    var w := s.ts[t].w;
    if Count(s.c.tx.bySendComplete, w) == 0 {
      ReachableInv(s);
      assert Knows(s.c, s.ts[t]);
      WentIsCounted(s, w);
      CountedKeepsHandle(s);
    }
  }

  /** A write that was sent and is not completed is counted. */
  lemma WentIsCounted(s: Sys, w: Irp)
    requires Reachable(s) && w in s.c.tx.went && Count(s.c.tx.bySendComplete, w) == 0
    ensures s.c.tx.count > 0
  {
    hide Reachable, Inv;
    LawHolds(s, OfSends(WentAt(w)));
    LawHolds(s, OfSends(Counted));
    if w !in s.c.tx.inNdis {
      var u := TotalWitness(OfSends(WentAt(w)), s.ts);
      TotalAtLeast(OfSends(Counted), s.ts, u);
      AheadIsCounted(s.ts[u], w);
    }
  }

  lemma AheadIsCounted(pc: Pc, w: Irp)
    requires SentWeight(pc, w, 4) > 0
    ensures SendWeight(pc) > 0
  {
    if pc.Sent? && pc.chain != [] {
      CountBound(pc.chain[1..], w);
    }
  }

  /** When the adapter may be closed, a thread still holds a packet exactly if it is the flush of a file
      object's cleanup, about to give that packet back. */
  lemma HeldAtClose(s: Sys, o: bool, t: nat, n: Nbl)
    requires Reachable(s) && Handler(s) == Control(Drain(ShutClose)) && Guard(s, Run(0, o))
    requires t < |s.ts|
    ensures PacketWeight(s.ts[t], n) > 0 <==> s.ts[t].Flush? && s.ts[t].fk.AtCleanup? && s.ts[t].fl == FlushFree(n)
  {
    ReachableInv(s);
    DrainedBeforeClose(s);
    TotalAtLeast(Weight(Indicating), s.ts, t);
    assert t > 0 ==> !IsControl(s.ts[t]);
  }

  // ---- Pause and power ---------------------------------------------------------------

  /** Once the state is Paused, no write is outstanding, and at most one packet is queued: one that stood
      between its two loads of State when Paused was stored. */
  lemma PauseBarrier(s: Sys)
    requires Reachable(s) && s.c.b.state == Paused
    ensures WritesOutstanding(s) == 0 && s.c.tx.inNdis == {}
    ensures |s.c.rx.queue| <= Ind(s.c.b.raced)
    ensures forall t :: 0 <= t < |s.ts| ==>
              && (s.ts[t].Write? ==> !s.ts[t].wp.WriteSend?)
              && (s.ts[t].Sent? ==> |s.ts[t].chain| == 1 && s.ts[t].sp.SentDrop?)
  {
    hide Reachable, Balances, FilesUsed, Working, Exclusive, EventExact, Fifo, FreedOnce, ControlShape;
    ReachableInv(s);
    assert |s.c.tx.inNdis| == 0;
    Weightless(Weight(WritesOut), s.ts);
    forall t | 0 <= t < |s.ts| ensures
      && (s.ts[t].Write? ==> !s.ts[t].wp.WriteSend?)
      && (s.ts[t].Sent? ==> |s.ts[t].chain| == 1 && s.ts[t].sp.SentDrop?)
    {
      assert W(Weight(WritesOut), s.ts[t]) == 0;
      assert WellFormed(s.ts[t]);
    }
  }

  /** A packet enters the queue in the Paused state exactly in the second load of a thread whose first load
      came before Paused was stored, in full power. That is the thread which makes raced true. */
  lemma EntersWhilePaused(s: Sys, e: Event)
    requires Reachable(s) && Guard(s, e) && s.c.b.state == Paused
    ensures Next(s, e).c.rx.entered != s.c.rx.entered
            <==> e.Run? && s.ts[e.t].Receive? && s.ts[e.t].q.QueueAgain? && s.c.b.d0 && s.c.b.bind == BindActive
    ensures Next(s, e).c.rx.entered != s.c.rx.entered ==> s.c.b.raced && s.c.rx.queue == []
  {
    hide Reachable, Balances, FilesUsed, Working, Exclusive, EventExact, Fifo, FreedOnce, ControlShape, QuietWrites;
    ReachableInv(s);
    if e.Run? {
      Ready(s, e.t, e.o);
      EntersAct(s.c, s.ts[e.t], e.o);
    } else if !e.StartControl? {
      hide Arrive;
      ArriveFrame(s.c, e);
    }
  }

  lemma EntersAct(c: Ctx, pc: Pc, o: bool)
    requires WellFormed(pc) && Prepared(c, pc) && c.b.state == Paused
    ensures Act(c, pc, o).0.rx.entered != c.rx.entered
            <==> pc.Receive? && pc.q.QueueAgain? && c.b.d0 && c.b.bind == BindActive
    ensures pc.Receive? && pc.q.QueueAgain? ==> Between(c)
  {
    hide ActRead, ActService, ActCancelRead, ActPurge, ActFlush, ActWrite, ActSent, ActControl;
    match pc
    case Read(x, f, r) => ReadActRest(c, x, f, r);
    case Service(k, v) => ServiceEnters(c, k, v);
    case CancelRead(x, cr) => CancelReadActRest(c, x, cr);
    case Purge(k, p) => PurgeActRest(c, k, p);
    case Flush(k, fl) => FlushEnters(c, k, fl);
    case Write(w, f, wp) => WriteActFrame(c, w, f, wp, o);
    case Sent(ch, sp) => SentActRest(c, ch, sp);
    case Control(ctl) => ControlStep(c, ctl, o);
    case Receive(n, q) => ReceiveEnters(c, n, q);
    case _ => RestActFrame(c, pc, o);
  }

  lemma ServiceEnters(c: Ctx, k: ServiceCaller, v: ServicePc)
    ensures ActService(c, k, v).0.rx.entered == c.rx.entered
  {
  }

  lemma FlushEnters(c: Ctx, k: FlushCaller, fl: FlushPc)
    ensures ActFlush(c, k, fl).0.rx.entered == c.rx.entered
  {
  }

  lemma ReceiveEnters(c: Ctx, n: Nbl, q: ReceivePc)
    requires c.b.state == Paused
    ensures ActReceive(c, n, q).0.rx.entered != c.rx.entered <==> q.QueueAgain? && c.b.d0 && c.b.bind == BindActive
  {
  }

  /** Only Restart, a new pause or an unbind ends the Paused state. */
  lemma PausedStays(s: Sys, e: Event)
    requires Reachable(s) && Guard(s, e) && s.c.b.state == Paused && Next(s, e).c.b.state != Paused
    ensures e.Run? && e.t == 0
    ensures Handler(s) == Control(Event(Restart)) || Handler(s) == Control(Event(PauseLock))
            || Handler(s) == Control(Unbind(UnbindState))
  {
    hide ActPurge, ActFlush, ActControl, Prepared, Balances, FilesUsed, Working, Exclusive, FreedOnce, QuietWrites;
    hide Reachable, ControlShape, Drained, EventExact, QuietQueue, Fifo, Signals, Enabled;
    ReachableInv(s);
    if e.Run? {
      Ready(s, e.t, e.o);
      if e.t != 0 {
        OthersGentle(s.c, s.ts[e.t], e.o);
      } else {
        var pc := s.ts[0];
        if pc.Purge? {
          PurgeActRest(s.c, pc.pk, pc.p);
        } else if pc.Flush? {
          FlushActFrame(s.c, pc.fk, pc.fl);
        } else {
          ControlReady(s.c.b, pc.ctl);
          ControlUnpauses(s.c, pc.ctl, e.o);
        }
      }
    } else if !e.StartControl? {
      ArriveFrame(s.c, e);
    }
  }

  lemma ControlUnpauses(c: Ctx, ctl: ControlPc, o: bool)
    requires ControlShape(c.b, Control(ctl)) && ControlPrepared(c.b, ctl)
    requires c.b.state == Paused && ActControl(c, ctl, o).0.b.state != Paused
    ensures ctl == Event(Restart) || ctl == Event(PauseLock) || ctl == Unbind(UnbindState)
  {
    hide ActBind, ActResource, ActUnbind, ActDrain, ActRelease, ActEvent, ControlRefs, BindShape;
    ControlStep(c, ctl, o);
    match ctl
    case Bind(bp) => BindPauses(c); if bp.BindHold? { HoldIsInitializing(c.b); }
    case Event(ep) => if !ep.Restart? && !ep.PauseLock? { EventStaysPaused(c, ep); }
    case _ =>
  }

  lemma BindPauses(c: Ctx)
    ensures ActBind(c, BindPaused).0.b.state == Paused
  {
  }

  lemma HoldIsInitializing(b: Binding)
    requires BindShape(b, BindHold)
    ensures b.state == Initializing
  {
  }

  lemma EventStaysPaused(c: Ctx, ep: EventPc)
    requires c.b.state == Paused && !ep.Restart? && !ep.PauseLock?
    ensures ActEvent(c, ep).0.b.state == Paused
  {
  }

  /** After the flush of a power-down the queue stays empty until the device is in D0 again. */
  lemma LowPowerQueueEmpty(s: Sys)
    requires Reachable(s) && !s.c.b.d0
    requires Handler(s).Flush? && Handler(s).fk.AtPowerDown? ==> Handler(s).fl.FlushExit?
    ensures s.c.rx.queue == []
  {
    ReachableInv(s);
  }

  // ---- Bind --------------------------------------------------------------------------

  /** A bind that succeeds leaves the context listed, ACTIVE and Paused, with the
      binding reference and those of other users. */
  lemma BindSucceeds(s: Sys, o: bool)
    requires Reachable(s) && Guard(s, Run(0, o)) && s.ts[0] == Control(Bind(BindRelease))
    ensures var s' := Next(s, Run(0, o));
            && s'.ts[0] == Control(Bound)
            && s'.c.b.listed && s'.c.b.bind == BindActive && s'.c.b.state == Paused && s'.c.b.handle
            && s'.c.refCount == 1 + |s.c.fs.here| + |s.c.rd.pended| + |s.c.tx.inNdis|
                                + Total(References, s.ts[1..]) + s.c.leaked
            && s'.c.frees == 0
  {
    ReachableInv(s);
    PauseBarrier(s);
    LawHolds(s, References);
    assert Total(References, s.ts) == Refs(s.ts[0]) + Total(References, s.ts[1..]);
  }

  /** A bind that fails leaves the context unlisted, everything released, and both
      references of the bind given back, so that only other users keep it. */
  lemma BindFails(s: Sys, o: bool)
    requires Reachable(s) && Guard(s, Run(0, o)) && s.ts[0] == Control(Release(BindFailRelease, true))
    ensures var s' := Next(s, Run(0, o));
            && s'.ts[0] == Control(Gone)
            && !s'.c.b.listed && !s'.c.b.handle && !s'.c.b.bound && s'.c.b.bind == BindFailed && Released(s'.c.b)
            && s'.c.refCount == |s.c.fs.here| + |s.c.rd.pended| + |s.c.tx.inNdis|
                                + Total(References, s.ts[1..]) + s.c.leaked
            && (s'.c.frees == 1 <==> s'.c.refCount == 0)
  {
    ReachableInv(s);
    StepKeeps(s, Run(0, o));
    LawHolds(s, References);
    assert Total(References, s.ts) == Refs(s.ts[0]) + Total(References, s.ts[1..]);
  }

  // ---- File objects --------------------------------------------------------------------

  /** At most one file object that has not been cleaned up is tied to the context, it is the one
      in pFileObject, and no file object is tied to two contexts. */
  lemma ExclusiveAssociation(s: Sys)
    requires Reachable(s)
    ensures forall f, g ::
              f in s.c.fs.here && f !in s.c.fs.cleaned && g in s.c.fs.here && g !in s.c.fs.cleaned ==> f == g
    ensures forall f :: f in s.c.fs.here && f !in s.c.fs.cleaned <==> s.c.fs.pFileObject == Some(f)
    ensures s.c.fs.openActive <==> s.c.fs.pFileObject != None
    ensures s.c.fs.here !! s.c.fs.elsewhere
  {
    ReachableInv(s);
  }
}
