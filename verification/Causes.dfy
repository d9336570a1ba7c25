/** Why a thread stands where it stands: for every run, the earlier step that
    sent it there and what that step found. A request is refused, a packet
    turned away or given back, and a loop left, for the reasons given here and
    for no others. */
module Causes {
  import opened Wrappers
  import opened Lists
  import opened Protocol
  import opened Laws
  import opened Runs
  import opened Invariant
  import opened Actions
  import opened Preserve
  import opened Theorems

  // ---- The step that brought a thread where it is ------------------------------------

  /** Neither a new thread nor a handler stands at P. */
  ghost predicate NotBorn(P: Pc -> bool) {
    && (forall c: Ctx, e: Event :: !e.Run? && !e.StartControl? ==> !P(Arrive(c, e).1))
    && (forall ctl :: !P(Control(ctl)))
  }

  /** Event i is a step of thread t, from outside P into P. */
  ghost predicate StepsInto(es: seq<Event>, ss: seq<Sys>, i: nat, t: nat, P: Pc -> bool)
    requires |ss| == |es| + 1 && i < |es|
  {
    && es[i].Run? && es[i].t == t && t < |ss[i].ts| && t < |ss[i + 1].ts|
    && WellFormed(ss[i].ts[t]) && Enabled(ss[i].c, ss[i].ts[t])
    && !P(ss[i].ts[t]) && P(ss[i + 1].ts[t])
    && (ss[i + 1].c, ss[i + 1].ts[t]) == Act(ss[i].c, ss[i].ts[t], es[i].o)
  }

  /** A thread that stands at P stepped into P. */
  lemma {:induction false} Entered(es: seq<Event>, ss: seq<Sys>, j: nat, t: nat, P: Pc -> bool) returns (i: nat)
    requires IsRun(Beginning(), es, ss) && j < |ss| && t < |ss[j].ts| && P(ss[j].ts[t]) && NotBorn(P)
    ensures i < j && StepsInto(es, ss, i, t, P)
  {
    hide Act, Arrive, Enabled;
    if j > 0 {
      assert StepAt(Beginning(), es, ss, j - 1);
      if t < |ss[j - 1].ts| && P(ss[j - 1].ts[t]) {
        i := Entered(es, ss, j - 1, t, P);
      } else {
        i := j - 1;
      }
    }
  }

  /** Between a state in which State is not v and a later one in which it is, some step made it v. */
  lemma {:induction false} MovedTo(es: seq<Event>, ss: seq<Sys>, i: nat, j: nat, v: OpenState) returns (m: nat)
    requires |ss| == |es| + 1 && i <= j < |ss| && ss[i].c.b.state != v && ss[j].c.b.state == v
    ensures i <= m < j && ss[m].c.b.state != v && ss[m + 1].c.b.state == v
  {
    if ss[j - 1].c.b.state == v {
      m := MovedTo(es, ss, i, j - 1, v);
    } else {
      m := j - 1;
    }
  }

  /** Which kinds of thread can turn into which. */
  lemma KindsFollow(c: Ctx, pc: Pc, o: bool)
    requires WellFormed(pc)
    ensures var next := Act(c, pc, o).1;
            && (next.Read? ==> pc.Read? || pc.Service?)
            && (next.Receive? ==> pc.Receive?)
            && (next.Write? ==> pc.Write?)
            && (next.CancelWrite? ==> pc.CancelWrite?)
            && (next.Service? ==> pc.Service? || pc.Read? || pc.Receive?)
            && (next.OpenDevice? ==> pc.OpenDevice? || pc.Request?)
            && (next.Purge? ==> pc.Purge? || pc.CleanupMark? || pc.Control?)
            && (next.Flush? ==> pc.Flush? || pc.Purge? || pc.Control?)
  {
    hide ServiceTest, ActControl, PurgeTest, WriteSection, QueueSection;
    match pc
    case Service(k, v) => ServiceTestStays(c, k); ServiceTestStays(c.(rd := c.rd.(count := c.rd.count - 1)), k);
    case Purge(k, p) => PurgeTestStays(c, k); PurgeTestStays(c.(rd := c.rd.(count := c.rd.count - 1)), k);
    case Receive(n, q) => ReceiveTurns(c, n, q);
    case Write(w, f, wp) => WriteTurns(c, w, f, wp, o);
    case Control(ctl) => ControlTurns(c, ctl, o);
    case _ =>
  }

  lemma ServiceTestStays(c: Ctx, k: ServiceCaller)
    ensures var next := ServiceTest(c, k).1; next.Service? && next.k == k
  {
  }

  lemma PurgeTestStays(c: Ctx, k: PurgeCaller)
    ensures var next := PurgeTest(c, k).1; next.Purge? && next.pk == k
  {
  }

  lemma ReceiveTurns(c: Ctx, n: Nbl, q: ReceivePc)
    ensures var next := ActReceive(c, n, q).1; next.Receive? || next.Service? || next == Done
  {
  }

  lemma WriteTurns(c: Ctx, w: Irp, f: File, wp: WritePc, o: bool)
    ensures var next := ActWrite(c, w, f, wp, o).1; next.Write? || next == Done
  {
  }

  lemma ControlTurns(c: Ctx, ctl: ControlPc, o: bool)
    ensures var next := ActControl(c, ctl, o).1; next.Control? || next.Purge? || next.Flush?
  {
  }

  // ---- Reads ------------------------------------------------------------------------

  /** The dispatch routine is about to complete the read, or runs the service loop before that. */
  predicate Refusing(pc: Pc, x: Irp, f: File) {
    pc == Read(x, f, Late) || (pc.Service? && pc.k == FromCancelledRead(x, f))
  }

  predicate CompletesRead(pc: Pc, x: Irp) {
    pc.Read? && pc.x == x && (pc.r.Fail? || pc.r.Late?)
  }

  /** A read in the history of the dispatch routine was put there by its thread. */
  lemma {:induction false} RefusedBy(es: seq<Event>, ss: seq<Sys>, j: nat, x: Irp) returns (i: nat)
    requires IsRun(Beginning(), es, ss) && j < |ss| && x in ss[j].c.rd.byDispatch
    ensures i < j && es[i].Run? && es[i].t < |ss[i].ts| && CompletesRead(ss[i].ts[es[i].t], x)
  {
    hide Act, Arrive, Enabled;
    if j > 0 {
      var s, e := ss[j - 1], es[j - 1];
      assert StepAt(Beginning(), es, ss, j - 1);
      if x in s.c.rd.byDispatch {
        i := RefusedBy(es, ss, j - 1, x);
      } else {
        if e.Run? {
          RefusesOne(s.c, s.ts[e.t], e.o, x);
        } else if !e.StartControl? {
          ArriveFrame(s.c, e);
        }
        i := j - 1;
      }
    }
  }

  lemma RefusesOne(c: Ctx, pc: Pc, o: bool, x: Irp)
    requires WellFormed(pc) && x in Act(c, pc, o).0.rd.byDispatch && x !in c.rd.byDispatch
    ensures CompletesRead(pc, x)
  {
    hide ServiceTest, ActPurge, ActFlush, ActReceive, ActWrite, ActSent, ActControl;
    match pc
    case Service(k, v) => ServiceRefusesNone(c, k, v);
    case Purge(k, p) => PurgeRefusesNone(c, k, p);
    case Flush(k, fl) => FlushActFrame(c, k, fl);
    case Receive(m, q) => ReceiveActFrame(c, m, q);
    case Write(w, f, wp) => WriteRefusesNoRead(c, w, f, wp, o);
    case Sent(ch, sp) => SentRefusesNone(c, ch, sp);
    case Control(ctl) => ControlFrames(c, ctl, o);
    case _ =>
  }

  lemma ServiceRefusesNone(c: Ctx, k: ServiceCaller, v: ServicePc)
    ensures ActService(c, k, v).0.rd.byDispatch == c.rd.byDispatch
  {
  }

  lemma PurgeRefusesNone(c: Ctx, k: PurgeCaller, p: PurgePc)
    ensures ActPurge(c, k, p).0.rd.byDispatch == c.rd.byDispatch
  {
  }

  lemma WriteRefusesNoRead(c: Ctx, w: Irp, f: File, wp: WritePc, o: bool)
    ensures ActWrite(c, w, f, wp, o).0.rd == c.rd
  {
  }

  lemma SentRefusesNone(c: Ctx, ch: seq<Irp>, sp: SentPc)
    requires ch != []
    ensures ActSent(c, ch, sp).0.rd == c.rd && ActSent(c, ch, sp).0.tx.byDispatch == c.tx.byDispatch
  {
  }

  lemma ControlFrames(c: Ctx, ctl: ControlPc, o: bool)
    ensures var c' := ActControl(c, ctl, o).0; c'.rd == c.rd && c'.rx == c.rx && c'.tx.byDispatch == c.tx.byDispatch
  {
  }

  /** A read is completed by its dispatch routine only if the binding was not ACTIVE when it came to the lock, or
      its Cancel was set before it was listed. */
  lemma ReadRefused(es: seq<Event>, ss: seq<Sys>, j: nat, x: Irp) returns (i: nat)
    requires IsRun(Beginning(), es, ss) && j < |ss| && x in ss[j].c.rd.byDispatch
    ensures i < j && es[i].Run? && es[i].t < |ss[i].ts|
    ensures var pc := ss[i].ts[es[i].t];
            && pc.Read? && pc.x == x
            && ((pc.r.Enter? && ss[i].c.b.bind != BindActive) || (pc.r.Test? && x in ss[i].c.rd.cancelled))
  {
    hide IsRun, Act, Enabled;
    var m := RefusedBy(es, ss, j, x);
    assert |ss| == |es| + 1 by { RunLength(es, ss); }
    var t := es[m].t;
    var pc := ss[m].ts[t];
    var f := pc.f;
    var P := if pc.r.Fail? then (q: Pc) => q == Read(x, f, Fail) else (q: Pc) => Refusing(q, x, f);
    i := Entered(es, ss, m, t, P);
    RefusalCause(ss[i].c, ss[i].ts[t], es[i].o, x, f);
  }

  lemma RunLength(es: seq<Event>, ss: seq<Sys>)
    requires IsRun(Beginning(), es, ss)
    ensures |ss| == |es| + 1
  {
  }

  lemma RefusalCause(c: Ctx, pc: Pc, o: bool, x: Irp, f: File)
    requires WellFormed(pc)
    ensures var next := Act(c, pc, o).1;
            && (next == Read(x, f, Fail) && pc != next ==> pc == Read(x, f, Enter) && c.b.bind != BindActive)
            && (Refusing(next, x, f) && !Refusing(pc, x, f) ==> pc == Read(x, f, Test) && x in c.rd.cancelled)
  {
    KindsFollow(c, pc, o);
    if pc.Service? {
      TakeRest(c, pc.k, 0);
      TakeRest(c.(rd := c.rd.(count := c.rd.count - 1)), pc.k, 0);
    } else if !pc.Read? && !pc.Receive? {
      hide Act;
    }
  }

  // ---- Writes -----------------------------------------------------------------------

  lemma {:induction false} WriteRefusedBy(es: seq<Event>, ss: seq<Sys>, j: nat, w: Irp) returns (i: nat)
    requires IsRun(Beginning(), es, ss) && j < |ss| && w in ss[j].c.tx.byDispatch
    ensures i < j && es[i].Run? && es[i].t < |ss[i].ts|
    ensures var pc := ss[i].ts[es[i].t]; pc.Write? && pc.w == w && pc.wp.WriteFail?
  {
    hide Act, Arrive, Enabled;
    if j > 0 {
      var s, e := ss[j - 1], es[j - 1];
      assert StepAt(Beginning(), es, ss, j - 1);
      if w in s.c.tx.byDispatch {
        i := WriteRefusedBy(es, ss, j - 1, w);
      } else {
        if e.Run? {
          RefusesOneWrite(s.c, s.ts[e.t], e.o, w);
        } else if !e.StartControl? {
          ArriveFrame(s.c, e);
        }
        i := j - 1;
      }
    }
  }

  lemma RefusesOneWrite(c: Ctx, pc: Pc, o: bool, w: Irp)
    requires WellFormed(pc) && w in Act(c, pc, o).0.tx.byDispatch && w !in c.tx.byDispatch
    ensures pc.Write? && pc.w == w && pc.wp.WriteFail?
  {
    hide ActRead, ServiceTest, ActCancelRead, ActPurge, ActFlush, ActReceive, ActSent, ActControl;
    match pc
    case Read(x, f, r) => ReadActRest(c, x, f, r);
    case Service(k, v) => TakeRest(c, k, 0); TakeRest(c.(rd := c.rd.(count := c.rd.count - 1)), k, 0);
    case CancelRead(x, cr) => CancelReadSends(c, x, cr);
    case Purge(k, p) => PurgeActRest(c, k, p);
    case Flush(k, fl) => FlushActFrame(c, k, fl);
    case Receive(m, q) => ReceiveActFrame(c, m, q);
    case Sent(ch, sp) => SentRefusesNone(c, ch, sp);
    case Control(ctl) => ControlFrames(c, ctl, o);
    case _ =>
  }

  lemma CancelReadSends(c: Ctx, x: Irp, cr: CancelReadPc)
    ensures ActCancelRead(c, x, cr).0.tx == c.tx
  {
  }

  /** A write is completed by its dispatch routine only if, at its section, the binding was not ACTIVE, not Running
      or not in full power, or no net buffer list could be allocated. */
  lemma WriteRefused(es: seq<Event>, ss: seq<Sys>, j: nat, w: Irp) returns (i: nat)
    requires IsRun(Beginning(), es, ss) && j < |ss| && w in ss[j].c.tx.byDispatch
    ensures i < j && es[i].Run? && es[i].t < |ss[i].ts|
    ensures var (pc, b) := (ss[i].ts[es[i].t], ss[i].c.b);
            && pc.Write? && pc.w == w && pc.wp.WriteLock?
            && (b.bind != BindActive || b.state != Running || !b.d0 || es[i].o)
  {
    hide IsRun, Act, Enabled;
    var m := WriteRefusedBy(es, ss, j, w);
    RunLength(es, ss);
    var t := es[m].t;
    var pc := ss[m].ts[t];
    i := Entered(es, ss, m, t, q => q == pc);
    WriteCause(ss[i].c, ss[i].ts[t], es[i].o, w, pc.f);
  }

  lemma WriteCause(c: Ctx, pc: Pc, o: bool, w: Irp, f: File)
    requires WellFormed(pc) && Act(c, pc, o).1 == Write(w, f, WriteFail)
    ensures pc == Write(w, f, WriteLock) && (c.b.bind != BindActive || c.b.state != Running || !c.b.d0 || o)
  {
    KindsFollow(c, pc, o);
    if !pc.Write? {
      hide Act;
    }
  }

  // ---- Packets -----------------------------------------------------------------------

  /** What the step that led a packet to GiveUp, DropFree or TrimFree found. */
  predicate PacketReason(c: Ctx, pc: Pc, n: Nbl, q: ReceivePc) {
    match q
    case GiveUp =>
      && pc.Receive? && pc.n == n
      && (if pc.q.LookPausing? || pc.q.QueueAgain? then c.b.state == Pausing
          else (pc.q.LookPaused? || pc.q.QueueLock?) && c.b.state == Paused)
    case DropFree => pc == Receive(n, QueueAgain) && (c.b.bind != BindActive || !c.b.d0)
    case TrimFree =>
      pc.Receive? && pc.q.QueueAgain? && c.rx.count + 1 > 4096 && n == (c.rx.queue + [pc.n])[0]
    case QueueRef => pc == Receive(n, LookPaused) && c.b.state != Paused
    case LookPaused => pc == Receive(n, LookPausing) && c.b.state != Pausing
    case QueueLock => pc == Receive(n, QueueRef)
    case QueueAgain => pc == Receive(n, QueueLock) && c.b.state != Paused
    case _ => true
  }

  lemma PacketCause(c: Ctx, pc: Pc, o: bool, n: Nbl, q: ReceivePc)
    requires WellFormed(pc) && Act(c, pc, o).1 == Receive(n, q)
    ensures PacketReason(c, pc, n, q)
  {
    KindsFollow(c, pc, o);
    if !pc.Receive? {
      hide Act;
    }
  }

  /** A packet that the receive path gives back was tested while the binding was pausing or paused, or met a binding
      that was not ACTIVE or not in full power, or was the oldest of a full queue; one that comes to the lock has
      passed both tests. */
  lemma PacketCame(es: seq<Event>, ss: seq<Sys>, j: nat, t: nat) returns (i: nat)
    requires IsRun(Beginning(), es, ss) && j < |ss| && t < |ss[j].ts| && ss[j].ts[t].Receive?
    requires !ss[j].ts[t].q.LookPausing?
    ensures i < j && es[i].Run? && es[i].t == t && t < |ss[i].ts|
    ensures PacketReason(ss[i].c, ss[i].ts[t], ss[j].ts[t].n, ss[j].ts[t].q)
  {
    hide IsRun, Act, Enabled, PacketReason;
    var pc := ss[j].ts[t];
    RunLength(es, ss);
    i := Entered(es, ss, j, t, q => q == pc);
    PacketCause(ss[i].c, ss[i].ts[t], es[i].o, pc.n, pc.q);
  }

  /** The step stores Pausing or Paused. */
  predicate Pauses(s: Sys, e: Event, s': Sys) {
    && e.Run? && e.t == 0 && s.ts != []
    && (s.ts[0] == Control(Event(PauseLock)) || s.ts[0] == Control(Event(PauseDone))
        || s.ts[0] == Control(Bind(BindPaused)))
    && s.c.b.state != s'.c.b.state && (s'.c.b.state == Pausing || s'.c.b.state == Paused)
  }

  /** Only pause, and the end of a bind, store Pausing or Paused. */
  lemma StoredByHandler(s: Sys, e: Event)
    requires Reachable(s) && Guard(s, e) && Next(s, e).c.b.state != s.c.b.state
    requires Next(s, e).c.b.state == Pausing || Next(s, e).c.b.state == Paused
    ensures Pauses(s, e, Next(s, e))
  {
    hide ActPurge, ActFlush, ActControl, Prepared, Balances, FilesUsed, Working, Exclusive, FreedOnce, QuietWrites;
    hide Reachable, ControlShape, Drained, EventExact, QuietQueue, Fifo, Signals, Enabled;
    ReachableInv(s);
    if e.Run? {
      Ready(s, e.t, e.o);
      if e.t != 0 {
        OthersGentle(s.c, s.ts[e.t], e.o);
      } else {
        var pc := s.ts[0];
        if pc.Purge? {
          PurgeActRest(s.c, pc.pk, pc.p);
        } else if pc.Flush? {
          FlushActFrame(s.c, pc.fk, pc.fl);
        } else {
          ControlPauses(s.c, pc.ctl, e.o);
        }
      }
    } else if !e.StartControl? {
      ArriveFrame(s.c, e);
    }
  }

  lemma ControlPauses(c: Ctx, ctl: ControlPc, o: bool)
    requires ActControl(c, ctl, o).0.b.state != c.b.state
    requires ActControl(c, ctl, o).0.b.state == Pausing || ActControl(c, ctl, o).0.b.state == Paused
    ensures ctl == Event(PauseLock) || ctl == Event(PauseDone) || ctl == Bind(BindPaused)
  {
    hide ActBind, ActResource, ActUnbind, ActDrain, ActRelease, ActEvent;
    match ctl
    case Bind(bp) => BindStores(c, bp);
    case Resource(rp) => ResourceStores(c, rp, o);
    case Unbind(up) => UnbindStores(c, up);
    case Drain(dp) => DrainStores(c, dp);
    case Release(sp, failed) => ReleaseStores(c, sp, failed);
    case Event(ep) => EventStores(c, ep);
    case _ =>
  }

  lemma BindStores(c: Ctx, bp: BindPc)
    ensures var state := ActBind(c, bp).0.b.state;
            state == c.b.state || state == Initializing || (bp.BindPaused? && state == Paused)
  {
    match bp
    case BindRef =>
    case BindList =>
    case BindHold =>
    case BindStart =>
    case BindFail =>
    case _ =>
  }

  lemma ResourceStores(c: Ctx, rp: ResourcePc, o: bool)
    ensures ActResource(c, rp, o).0.b.state == c.b.state
  {
    match rp
    case BindName =>
    case BindAdapter =>
    case _ =>
  }

  lemma UnbindStores(c: Ctx, up: UnbindPc)
    ensures var state := ActUnbind(c, up).0.b.state; state == c.b.state || state == Closing
  {
    hide BeginShutdown;
    match up
    case ShutLock(failed) => ShutdownStores(c, failed);
    case UnbindMark =>
    case UnbindState =>
  }

  lemma ShutdownStores(c: Ctx, failed: bool)
    ensures BeginShutdown(c, failed).0.b.state == c.b.state
  {
  }

  lemma DrainStores(c: Ctx, dp: DrainPc)
    ensures ActDrain(c, dp).0.b.state == c.b.state
  {
  }

  lemma ReleaseStores(c: Ctx, sp: ReleasePc, failed: bool)
    ensures ActRelease(c, sp, failed).0.b.state == c.b.state
  {
    match sp
    case ShutHandle =>
    case ShutIdle =>
    case ShutUnlist =>
    case ShutFree =>
    case ShutRelease =>
    case BindFailRelease =>
  }

  lemma EventStores(c: Ctx, ep: EventPc)
    ensures var state := ActEvent(c, ep).0.b.state;
            state == c.b.state || state == Running || ep.PauseLock? || ep.PauseDone?
  {
    match ep
    case PauseWait =>
    case SetPower(_) =>
    case _ =>
  }

  /** A packet on its way to the lock, back to its tests of State: event r is the second test, event i the first. */
  lemma BackToTests(es: seq<Event>, ss: seq<Sys>, j: nat, t: nat) returns (i: nat, r: nat)
    requires IsRun(Beginning(), es, ss) && j < |ss| && t < |ss[j].ts|
    requires ss[j].ts[t].Receive? && (ss[j].ts[t].q.QueueLock? || ss[j].ts[t].q.QueueAgain?)
    ensures i < r < j && es[i].Run? && es[i].t == t && es[r].Run? && es[r].t == t && t < |ss[i].ts| && t < |ss[r].ts|
    ensures ss[i].ts[t] == Receive(ss[j].ts[t].n, LookPausing) && ss[i].c.b.state != Pausing
    ensures ss[r].ts[t] == Receive(ss[j].ts[t].n, LookPaused) && ss[r].c.b.state != Paused
  {
    hide IsRun;
    RunLength(es, ss);
    var l := j;
    if ss[j].ts[t].q.QueueAgain? {
      l := PacketCame(es, ss, j, t);
    }
    var q := PacketCame(es, ss, l, t);
    r := PacketCame(es, ss, q, t);
    i := PacketCame(es, ss, r, t);
  }

  /** A packet that is turned away under the lock, and leaks its reference, met a pause: event i is its first test
      of State, and event m, after it and before the packet was turned away, stored Pausing or Paused. */
  lemma TurnedAwayMeetsPause(es: seq<Event>, ss: seq<Sys>, j: nat) returns (i: nat, m: nat)
    requires IsRun(Beginning(), es, ss) && j < |es| && j < |ss| && TurnsAway(ss[j], es[j])
    ensures i < m < j && m + 1 < |ss| && Pauses(ss[m], es[m], ss[m + 1])
    ensures es[i].Run? && es[i].t == es[j].t && es[i].t < |ss[i].ts|
    ensures ss[i].ts[es[i].t] == Receive(ss[j].ts[es[j].t].n, LookPausing)
  {
    hide IsRun, Reachable, Guard, Next;
    RunLength(es, ss);
    var t := es[j].t;
    var r;
    i, r := BackToTests(es, ss, j, t);
    m := MovedTo(es, ss, if ss[j].ts[t].q.QueueAgain? then i else r, j, ss[j].c.b.state);
    Stored(es, ss, m);
  }

  lemma Stored(es: seq<Event>, ss: seq<Sys>, m: nat)
    requires IsRun(Beginning(), es, ss) && m + 1 < |ss| && ss[m].c.b.state != ss[m + 1].c.b.state
    requires ss[m + 1].c.b.state == Pausing || ss[m + 1].c.b.state == Paused
    ensures Pauses(ss[m], es[m], ss[m + 1])
  {
    hide Reachable, Guard, Next, Pauses;
    BeginningReachable();
    RunLeads(Beginning(), es, ss, m);
    assert StepAt(Beginning(), es, ss, m);
    StoredByHandler(ss[m], es[m]);
  }

  lemma {:induction false} ThreadsGrow(es: seq<Event>, ss: seq<Sys>, i: nat, j: nat)
    requires IsRun(Beginning(), es, ss) && i <= j < |ss|
    ensures |ss[i].ts| <= |ss[j].ts|
  {
    hide Act, Arrive, Enabled;
    if i < j {
      ThreadsGrow(es, ss, i, j - 1);
      assert StepAt(Beginning(), es, ss, j - 1);
    }
  }

  /** A packet that has not been indicated yet at state b is not turned away where State stays as it is from b on. */
  lemma SteadyStateLeaksNothing(es: seq<Event>, ss: seq<Sys>, b: nat, j: nat)
    requires IsRun(Beginning(), es, ss) && b <= j < |es| && j < |ss| && es[j].Run? && |ss[b].ts| <= es[j].t
    requires forall m :: b <= m <= j ==> ss[m].c.b.state == ss[b].c.b.state
    ensures !TurnsAway(ss[j], es[j])
  {
    hide IsRun;
    if TurnsAway(ss[j], es[j]) {
      var i, m := TurnedAwayMeetsPause(es, ss, j);
      if i <= b {
        ThreadsGrow(es, ss, i, b);
      }
    }
  }

  // ---- Opens --------------------------------------------------------------------------

  /** What the step that led an OPEN_DEVICE to its undo, or to the end of one that failed, found. */
  predicate OpenReason(c: Ctx, pc: Pc, o: bool, f: File, op: OpenPc) {
    match op
    case Undo =>
      || (pc == Request(ForOpen(f), RequestEnter) && c.b.bind != BindActive)
      || pc == Request(ForOpen(f), RequestLeave(false))
    case OpenDrop =>
      || (pc == OpenDevice(f, Associate) && (c.fs.openActive || f in c.fs.here || f in c.fs.elsewhere))
      || pc == OpenDevice(f, Undo)
    case Associate => pc == OpenDevice(f, Lookup) && c.b.listed && o
    case _ => true
  }

  lemma OpenCause(c: Ctx, pc: Pc, o: bool, f: File, op: OpenPc)
    requires WellFormed(pc) && Act(c, pc, o).1 == OpenDevice(f, op)
    ensures OpenReason(c, pc, o, f, op)
  {
    KindsFollow(c, pc, o);
    if !pc.OpenDevice? && !pc.Request? {
      hide Act;
    }
  }

  /** An OPEN_DEVICE is refused only for a device that is open or a file object that is in use, and undone only if
      its filter request has failed or found the binding not ACTIVE. */
  lemma OpenRefused(es: seq<Event>, ss: seq<Sys>, j: nat, t: nat) returns (i: nat)
    requires IsRun(Beginning(), es, ss) && j < |ss| && t < |ss[j].ts| && ss[j].ts[t].OpenDevice?
    requires !ss[j].ts[t].op.Lookup?
    ensures i < j && es[i].Run? && es[i].t == t && t < |ss[i].ts|
    ensures OpenReason(ss[i].c, ss[i].ts[t], es[i].o, ss[j].ts[t].f, ss[j].ts[t].op)
  {
    hide IsRun, Act, Enabled, OpenReason;
    var pc := ss[j].ts[t];
    RunLength(es, ss);
    i := Entered(es, ss, j, t, q => q == pc);
    OpenCause(ss[i].c, ss[i].ts[t], es[i].o, pc.f, pc.op);
  }

  // ---- Loops --------------------------------------------------------------------------

  /** What the step that led a thread out of its loop, or to a call of NDIS, found. */
  predicate ExitReason(c: Ctx, pc: Pc, next: Pc) {
    match next
    case Purge(k, p) =>
      (p.PurgeExit? ==> pc.Purge? && pc.pk == k && (pc.p.PurgeTop? || pc.p.PurgeDecrement?) && c.rd.pended == [])
    case Flush(k, fl) => (fl.FlushExit? ==> pc == Flush(k, FlushTop) && c.rx.queue == [])
    case Service(k, v) =>
      (v.ServeExit? ==> && pc.Service? && pc.k == k && (pc.v.ServeTop? || pc.v.ServeDecrement?)
                        && (c.rx.queue == [] || forall x :: x in c.rd.pended ==> x !in c.rd.routine))
    case CancelWrite(w, cw) =>
      && (cw.CancelSend? ==> pc == CancelWrite(w, FindWrite) && w in c.tx.pended)
    case _ => true
  }

  predicate Exits(pc: Pc) {
    || (pc.Purge? && pc.p.PurgeExit?) || (pc.Flush? && pc.fl.FlushExit?) || (pc.Service? && pc.v.ServeExit?)
    || (pc.CancelWrite? && pc.cw.CancelSend?)
  }

  lemma ExitCause(c: Ctx, pc: Pc, o: bool)
    requires WellFormed(pc) && Exits(Act(c, pc, o).1) && pc != Act(c, pc, o).1
    ensures ExitReason(c, pc, Act(c, pc, o).1)
  {
    KindsFollow(c, pc, o);
    match pc
    case Service(k, v) => Claimable(c.rd); Claimable(c.rd.(count := c.rd.count - 1));
    case Control(ctl) => ControlEntersLoops(c, ctl, o);
    case _ =>
  }

  lemma ControlEntersLoops(c: Ctx, ctl: ControlPc, o: bool)
    ensures !Exits(ActControl(c, ctl, o).1)
  {
  }

  /** A purge leaves its loop only when no read is listed, a flush when the queue is empty, a service thread when
      there is nothing to serve; NDIS is asked to cancel a send only for a write that is listed. */
  lemma LeftFor(es: seq<Event>, ss: seq<Sys>, j: nat, t: nat) returns (i: nat)
    requires IsRun(Beginning(), es, ss) && j < |ss| && t < |ss[j].ts| && Exits(ss[j].ts[t])
    ensures i < j && es[i].Run? && es[i].t == t && t < |ss[i].ts|
    ensures ExitReason(ss[i].c, ss[i].ts[t], ss[j].ts[t])
  {
    hide IsRun, Act, Enabled, ExitReason;
    var pc := ss[j].ts[t];
    RunLength(es, ss);
    i := Entered(es, ss, j, t, q => q == pc);
    ExitCause(ss[i].c, ss[i].ts[t], es[i].o);
  }
}
