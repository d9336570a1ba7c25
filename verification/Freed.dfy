/** Requests that reach the context through FsContext alone, with no reference of
    their own: when such a request can find the context freed. */
module Freed {
  import opened Wrappers
  import opened Lists
  import opened Protocol
  import opened Laws
  import opened Runs
  import opened Invariant
  import opened Actions
  import opened Preserve
  import opened Theorems
  import opened Moving

  // ---- What a freed context says ---------------------------------------------------

  /** Besides the file object f, nothing holds the context: the binding is gone, no other file object is
      tied to it, no thread has a reference, and none was leaked. */
  ghost predicate NothingElseHolds(s: Sys, f: File) {
    Handler(s) == Control(Gone) && s.c.fs.here <= {f} && s.c.leaked == 0 && Total(References, s.ts) == 0
  }

  /** Theorems.FreedExactly, seen from f: what stands on the FsContext of f finds the context freed if and only
      if f does not name the context any more and nothing else holds it. */
  lemma FindsFreed(s: Sys, f: File)
    requires Reachable(s)
    ensures s.c.frees == 1 <==> f !in s.c.fs.here && NothingElseHolds(s, f)
  {
    hide Reachable, Inv;
    FreedExactly(s);
    if f !in s.c.fs.here && s.c.fs.here <= {f} {
      assert s.c.fs.here == {};
    }
  }

  /** A dispatch routine that has listed its read and finds the context freed on its way into ServiceReads
      finds, besides, that its read has been completed by someone else. */
  lemma FreedReadIsCompleted(s: Sys, t: nat, x: Irp, f: File)
    requires Reachable(s) && t < |s.ts| && s.ts[t] == Service(FromRead(x, f), ServeRef)
    ensures s.c.frees == 1 <==> ReadCompleted(s.c.rd, x) && f !in s.c.fs.here && NothingElseHolds(s, f)
  {
    hide Reachable, Inv;
    FindsFreed(s, f);
    if s.c.frees == 1 {
      FreedContext(s);
      ListedIsStored(s, t);
      LawHolds(s, OfReads(Listed(x)));
      ListedBelowReferences(s.ts, x);
      CompletedIsLogged(s.c.rd, x);
    }
  }

  lemma ListedIsStored(s: Sys, t: nat)
    requires Reachable(s) && t < |s.ts| && s.ts[t].Service? && s.ts[t].k.FromRead?
    ensures s.ts[t].k.x in s.c.rd.stored
  {
    hide Reachable, Balances;
    ReachableInv(s);
    assert Knows(s.c, s.ts[t]);
  }

  lemma ListedBelowReferences(ts: seq<Pc>, x: Irp)
    ensures Total(OfReads(Listed(x)), ts) <= Total(References, ts)
  {
    TotalBelow(OfReads(Listed(x)), References, ts);
  }

  lemma CompletedIsLogged(rd: Reads, x: Irp)
    ensures ReadCompleted(rd, x)
            <==> Count(rd.served, x) + Count(rd.byCancel, x) + Count(rd.byPurge, x) + Count(rd.byDispatch, x) > 0
  {
    CountIn(rd.served, x);
    CountIn(rd.byCancel, x);
    CountIn(rd.byPurge, x);
    CountIn(rd.byDispatch, x);
  }

  // ---- How an association ends while a request runs -----------------------------------

  /** Over one step a thread keeps its place and takes up no other IRP. */
  lemma UseFalls(s: Sys, e: Event, t: nat, f: File)
    requires Guard(s, e) && t < |s.ts|
    ensures t < |Next(s, e).ts| && UseWeight(Next(s, e).ts[t], f) <= UseWeight(s.ts[t], f)
  {
    hide Act, Arrive, UseWeight, Enabled;
    if e.Run? && e.t == t {
      MeasuresFall(s.c, s.ts[t], e.o, f);
    } else if e.StartControl? && t == 0 {
      StartUses(s.ts[0], e.ctl, s.c, f);
    }
  }

  lemma StartUses(pc: Pc, ctl: ControlPc, c: Ctx, f: File)
    ensures UseWeight(Control(ctl), f) == 0
  {
  }

  /** While a request on f is not completed, only the undo of its OPEN_DEVICE takes f off the context. */
  lemma OnlyUndoUnties(s: Sys, e: Event, t: nat, f: File)
    requires Inv(s) && Guard(s, e) && t < |s.ts| && f in s.c.fs.here && UseWeight(s.ts[t], f) > 0
    requires f !in Next(s, e).c.fs.here
    ensures e.Run? && s.ts[e.t] == OpenDevice(f, Undo)
  {
    hide Inv, Enabled, UseWeight, OpenedWeight, OpeningWeight;
    TotalAtLeast(Weight(UsesOf(f)), s.ts, t);
    if e.Run? {
      hide Act;
      Ready(s, e.t, e.o);
      if s.ts[e.t] != OpenDevice(f, Undo) {
        KeepsHere(s.c, s.ts[e.t], e.o, f);
      }
    } else if !e.StartControl? {
      hide Arrive;
      ArriveFileWeights(s.c, e, f);
    }
  }

  lemma KeepsHere(c: Ctx, pc: Pc, o: bool, f: File)
    requires WellFormed(pc) && Prepared(c, pc) && f in c.fs.here && pc != OpenDevice(f, Undo)
    ensures f in Act(c, pc, o).0.fs.here
  {
    if !TouchesFiles(pc) {
      hide Act;
      FilesKept(c, pc, o);
    }
  }

  /** Event k of the run undoes the association of f, which is not made again up to state j. */
  predicate UndoneAt(es: seq<Event>, ss: seq<Sys>, k: nat, j: nat, f: File)
    requires j < |ss| && |ss| == |es| + 1
  {
    && k < j && es[k].Run? && es[k].t < |ss[k].ts| && ss[k].ts[es[k].t] == OpenDevice(f, Undo)
    && forall i :: k < i <= j ==> f !in ss[i].c.fs.here
  }

  /** An association that is gone while a request dispatched on it still runs was undone while it ran. */
  lemma {:induction false} UndoneWhileItRan(a: Origin, es: seq<Event>, ss: seq<Sys>, j: nat, t: nat, f: File)
    returns (k: nat)
    requires IsRun(a, es, ss) && Reachable(a.s) && j < |ss| && t < |a.s.ts|
    requires f in a.s.c.fs.here && t < |ss[j].ts| && UseWeight(ss[j].ts[t], f) > 0 && f !in ss[j].c.fs.here
    ensures UndoneAt(es, ss, k, j, f)
  {
    hide Reachable, Inv, Guard, Next, UseWeight;
    assert j > 0;
    var s, e := ss[j - 1], es[j - 1];
    assert StepAt(a, es, ss, j - 1);
    ThreadsStay(a, es, ss, j - 1, t);
    UseFalls(s, e, t, f);
    if f !in s.c.fs.here {
      k := UndoneWhileItRan(a, es, ss, j - 1, t, f);
    } else {
      RunLeads(a, es, ss, j - 1);
      ReachableInv(s);
      OnlyUndoUnties(s, e, t, f);
      k := j - 1;
      RunsAThread(s, e);
    }
  }

  lemma RunsAThread(s: Sys, e: Event)
    requires Guard(s, e) && e.Run?
    ensures e.t < |s.ts|
  {
  }

  lemma {:induction false} ThreadsStay(a: Origin, es: seq<Event>, ss: seq<Sys>, j: nat, t: nat)
    requires IsRun(a, es, ss) && j < |ss| && t < |a.s.ts|
    ensures t < |ss[j].ts|
  {
    hide Act, Arrive, Enabled;
    if j > 0 {
      ThreadsStay(a, es, ss, j - 1, t);
      assert StepAt(a, es, ss, j - 1);
    }
  }

  // ---- A request dispatched after its OPEN_DEVICE ----------------------------------------

  /** f names the context and no OPEN_DEVICE that may undo it is running. */
  predicate Settled(s: Sys, f: File) {
    f in s.c.fs.here && forall u :: 0 <= u < |s.ts| ==> !MayUndo(s.ts[u], f)
  }

  /** Over one step a settled file object stays so, as long as a request on it runs. */
  lemma SettledStep(s: Sys, e: Event, t: nat, f: File)
    requires Inv(s) && Guard(s, e) && t < |s.ts| && Settled(s, f) && UseWeight(s.ts[t], f) > 0
    ensures Settled(Next(s, e), f)
  {
    hide Inv, Enabled, UseWeight, MayUndo;
    if e.Run? {
      hide Act;
      Ready(s, e.t, e.o);
      UndoMayUndo(f);
      KeepsHere(s.c, s.ts[e.t], e.o, f);
      UndoFalls(s.c, s.ts[e.t], e.o, f);
    } else if e.StartControl? {
      ControlUndoesNothing(e.ctl, f);
    } else {
      hide Arrive;
      TotalAtLeast(Weight(UsesOf(f)), s.ts, t);
      ArriveFileWeights(s.c, e, f);
      MayUndoWeighs(Arrive(s.c, e).1, f);
    }
  }

  lemma UndoMayUndo(f: File)
    ensures MayUndo(OpenDevice(f, Undo), f)
  {
  }

  lemma ControlUndoesNothing(ctl: ControlPc, f: File)
    ensures !MayUndo(Control(ctl), f)
  {
  }

  lemma MayUndoWeighs(pc: Pc, f: File)
    ensures MayUndo(pc, f) ==> OpenedWeight(pc, f) > 0
  {
  }

  /** No action makes a thread one that may undo the association of a file object that is tied already. */
  lemma UndoFalls(c: Ctx, pc: Pc, o: bool, f: File)
    requires WellFormed(pc) && f in c.fs.here
    ensures MayUndo(Act(c, pc, o).1, f) ==> MayUndo(pc, f)
  {
    OpenedFalls(c, pc, o, f);
    MayUndoWeighs(Act(c, pc, o).1, f);
    if pc.Request? || pc.OpenDevice? {
    } else {
      hide Act;
    }
  }

  /** An OPEN_DEVICE on a file object that names a context is refused. */
  lemma OpenedFalls(c: Ctx, pc: Pc, o: bool, f: File)
    requires WellFormed(pc) && f in c.fs.here
    ensures OpenedWeight(Act(c, pc, o).1, f) <= OpenedWeight(pc, f)
  {
    if pc == OpenDevice(f, Associate) {
    } else {
      hide Act, OpenedWeight;
      MeasuresFall(c, pc, o, f);
    }
  }

  lemma {:induction false} StaysSettled(a: Origin, es: seq<Event>, ss: seq<Sys>, j: nat, t: nat, f: File)
    requires IsRun(a, es, ss) && Reachable(a.s) && j < |ss| && t < |a.s.ts|
    requires Settled(a.s, f) && t < |ss[j].ts| && UseWeight(ss[j].ts[t], f) > 0
    ensures Settled(ss[j], f)
  {
    hide Reachable, Inv, Guard, Next, UseWeight, Settled;
    if j > 0 {
      var s, e := ss[j - 1], es[j - 1];
      assert StepAt(a, es, ss, j - 1);
      ThreadsStay(a, es, ss, j - 1, t);
      UseFalls(s, e, t, f);
      StaysSettled(a, es, ss, j - 1, t, f);
      RunLeads(a, es, ss, j - 1);
      ReachableInv(s);
      SettledStep(s, e, t, f);
    }
  }

  /** A request dispatched on a file object whose OPEN_DEVICE has returned finds the context allocated until
      its IRP is completed, wherever the run goes. */
  lemma SettledIsSafe(a: Origin, es: seq<Event>, ss: seq<Sys>, j: nat, t: nat, f: File)
    requires IsRun(a, es, ss) && Reachable(a.s) && j < |ss| && t < |a.s.ts|
    requires Settled(a.s, f) && t < |ss[j].ts| && UseWeight(ss[j].ts[t], f) > 0
    ensures ss[j].c.frees == 0
  {
    hide Reachable, Inv, Guard, Next, UseWeight, IsRun;
    StaysSettled(a, es, ss, j, t, f);
    RunLeads(a, es, ss, j);
    FreedContext(ss[j]);
  }

  // ---- Exactly when the context can be freed under a parked thread ---------------------------

  /** The context can be freed while thread t does not move. */
  ghost predicate CanBeFreed(s: Sys, t: nat) {
    exists s' :: Leads(Origin(s, Some(t)), s') && s'.c.frees == 1
  }

  /** Only thread t is under way; the binding is active, and nothing is queued, counted or leaked. */
  predicate AtRest(s: Sys, t: nat) {
    && 0 < t < |s.ts| && s.ts[0] == Control(Bound)
    && (forall u :: 0 < u < |s.ts| && u != t ==> s.ts[u] == Done)
    && s.c.lock == None && s.c.tx.count == 0 && s.c.rd.count == 0 && s.c.rx.queue == [] && s.c.leaked == 0
  }

  /** Threads that weigh nothing: they have returned, wait, or stand before their first access. */
  predicate Idle(pc: Pc) {
    pc == Done || pc == Control(Bound) || StandsOnFile(pc)
  }

  lemma IdleRefs(pc: Pc, f: File)
    requires Idle(pc)
    ensures Refs(pc) == 0 && ReadWeight(pc) == 0 && SendWeight(pc) == 0
    ensures OpeningWeight(pc, f) == 0 && !IsIndication(pc)
  {
  }

  lemma RestIsIdle(s: Sys, t: nat)
    requires AtRest(s, t) && StandsOnFile(s.ts[t])
    ensures forall u :: 0 <= u < |s.ts| ==> Idle(s.ts[u])
  {
    hide StandsOnFile;
  }

  lemma IdleTotal(k: Key, ts: seq<Pc>)
    requires forall u :: 0 <= u < |ts| ==> Idle(ts[u])
    requires k == References || k == OfReads(InFlight) || k == OfSends(Counted)
             || (k.Weight? && (k.m.OpeningOf? || k.m.Indicating?))
    ensures Total(k, ts) == 0
  {
    hide Idle, Refs, ReadWeight, SendWeight, OpeningWeight;
    forall u | 0 <= u < |ts| ensures W(k, ts[u]) == 0 {
      IdleRefs(ts[u], if k.Weight? && k.m.OpeningOf? then k.m.f else 0);
    }
    NoTotal(k, ts);
  }

  /** What is left of the context at rest. */
  lemma RestContext(s: Sys, t: nat)
    requires Reachable(s) && AtRest(s, t) && StandsOnFile(s.ts[t])
    ensures s.c.b.bind == BindActive && Quiet(s.c) && s.c.rd.pended == [] && s.c.tx.inNdis == {}
    ensures s.c.refCount == 1 + |s.c.fs.here| && s.c.frees == 0
    ensures forall f :: f in s.c.fs.begun ==> f in s.c.fs.cleaned
  {
    hide Reachable, FilesUsed, Working, QuietWrites, QuietQueue, Fifo, Exclusive, StandsOnFile, Idle;
    ReachableInv(s);
    RestIsIdle(s, t);
    IdleTotal(References, s.ts);
    IdleTotal(OfReads(InFlight), s.ts);
    IdleTotal(OfSends(Counted), s.ts);
    LawHolds(s, References);
    CountsPositive(s);
    forall f | f in s.c.fs.begun ensures f in s.c.fs.cleaned {
      NoCleanupAtRest(s, t, f);
    }
  }

  lemma NoCleanupAtRest(s: Sys, t: nat, f: File)
    requires Reachable(s) && AtRest(s, t) && StandsOnFile(s.ts[t]) && f in s.c.fs.begun
    ensures f in s.c.fs.cleaned
  {
    hide Reachable;
    RestIsIdle(s, t);
    forall u | 0 <= u < |s.ts| ensures W(Cleaning(f), s.ts[u]) == 0 {
      assert Idle(s.ts[u]);
    }
    NoTotal(Cleaning(f), s.ts);
    LawHolds(s, Cleaning(f));
  }

  // ---- Requests with an IRP of their own

  /** At rest, with no other file object tied to the context, the context can be freed under a request that
      stands on FsContext if and only if its file object does not name the context any more. */
  lemma RequestFreedIff(s: Sys, t: nat, f: File)
    requires Reachable(s) && AtRest(s, t) && StandsOnFile(s.ts[t]) && UseWeight(s.ts[t], f) > 0 && s.c.fs.here <= {f}
    ensures CanBeFreed(s, t) <==> f !in s.c.fs.here
  {
    hide Reachable, Leads, StandsOnFile, UseWeight;
    if f in s.c.fs.here {
      if CanBeFreed(s, t) {
        var s' :| Leads(Origin(s, Some(t)), s') && s'.c.frees == 1;
        RestIsSettled(s, t, f);
        NotUnderSettled(s, t, f, s');
      }
    } else {
      assert s.c.fs.here == {};
      FreeAtRest(s, t);
    }
  }

  lemma RestIsSettled(s: Sys, t: nat, f: File)
    requires AtRest(s, t) && StandsOnFile(s.ts[t]) && f in s.c.fs.here
    ensures Settled(s, f)
  {
    hide StandsOnFile;
    RestIsIdle(s, t);
    forall u | 0 <= u < |s.ts| ensures !MayUndo(s.ts[u], f) {
      IdleUndoesNothing(s.ts[u], f);
    }
  }

  lemma IdleUndoesNothing(pc: Pc, f: File)
    requires Idle(pc)
    ensures !MayUndo(pc, f)
  {
  }

  lemma NotUnderSettled(s: Sys, t: nat, f: File, s': Sys)
    requires Reachable(s) && 0 < t < |s.ts| && UseWeight(s.ts[t], f) > 0 && Settled(s, f)
    requires Leads(Origin(s, Some(t)), s')
    ensures s'.c.frees == 0
  {
    hide Reachable, Inv, StandsOnFile, UseWeight;
    var a := Origin(s, Some(t));
    var es: seq<Event>, ss: seq<Sys> :| IsRun(a, es, ss) && ss[|es|] == s';
    ParkedStays(a, es, ss, |es|, t);
    SettledIsSafe(a, es, ss, |es|, t, f);
  }

  lemma {:induction false} ParkedStays(a: Origin, es: seq<Event>, ss: seq<Sys>, j: nat, t: nat)
    requires IsRun(a, es, ss) && j < |ss| && 0 < t < |a.s.ts| && a.parked == Some(t)
    ensures t < |ss[j].ts| && ss[j].ts[t] == a.s.ts[t]
  {
    hide Act, Arrive, Enabled;
    if j > 0 {
      ParkedStays(a, es, ss, j - 1, t);
      assert StepAt(a, es, ss, j - 1);
    }
  }

  /** With no file object tied to it, the context at rest is freed by an unbind. */
  lemma FreeAtRest(s: Sys, t: nat)
    requires Reachable(s) && AtRest(s, t) && StandsOnFile(s.ts[t]) && s.c.fs.here == {}
    ensures CanBeFreed(s, t)
  {
    hide Reachable, Leads, StandsOnFile;
    var a := Origin(s, Some(t));
    RestContext(s, t);
    RestIsIdle(s, t);
    assert s.ts == [Control(Bound)] + s.ts[1..];
    LeadsToItself(a);
    UnbindAtRest(a, s.c, s.ts[1..]);
  }

  lemma UnbindAtRest(a: Origin, c: Ctx, rest: seq<Pc>)
    requires Leads(a, Sys(c, [Control(Bound)] + rest)) && NotParked(a) && c.b.bind == BindActive && Quiet(c)
    requires c.refCount == 1 && c.frees == 0 && forall u :: 0 <= u < |rest| ==> Idle(rest[u])
    ensures exists s' :: Leads(a, s') && s'.c.frees == 1
  {
    hide Leads, Idle;
    forall u | 0 <= u < |rest| ensures !IsIndication(rest[u]) {
      IdleRefs(rest[u], 0);
    }
    var c' := UnbindToGone(a, c, rest);
    assert Sys(c', [Control(Gone)] + rest).c.frees == 1;
  }

  /** A request dispatched while f named the context, in a run that has come to rest: the context can be freed
      under it if and only if the association was undone while it ran, and not made again. */
  lemma FreedIffUndone(a: Origin, es: seq<Event>, ss: seq<Sys>, j: nat, t: nat, f: File)
    requires IsRun(a, es, ss) && Reachable(a.s) && j < |ss| && t < |a.s.ts| && f in a.s.c.fs.here
    requires AtRest(ss[j], t) && StandsOnFile(ss[j].ts[t]) && UseWeight(ss[j].ts[t], f) > 0 && ss[j].c.fs.here <= {f}
    ensures CanBeFreed(ss[j], t) <==> exists k :: UndoneAt(es, ss, k, j, f)
  {
    hide Reachable, Leads, StandsOnFile, UseWeight;
    RunLeads(a, es, ss, j);
    RequestFreedIff(ss[j], t, f);
    if f !in ss[j].c.fs.here {
      var k := UndoneWhileItRan(a, es, ss, j, t, f);
      assert UndoneAt(es, ss, k, j, f);
    }
  }

  // ---- At the dispatch: a request beside the OPEN_DEVICE of its file object

  /** Besides the request of thread t only thread u is under way: it runs the OPEN_DEVICE that has tied f to the
      context, or has returned. */
  predicate OpenBeside(s: Sys, t: nat, u: nat, f: File) {
    && 0 < t < |s.ts| && 0 < u < |s.ts| && t != u && s.ts[0] == Control(Bound)
    && (forall v :: 0 < v < |s.ts| && v != t && v != u ==> s.ts[v] == Done)
    && (s.ts[u] == Done || s.ts[u] == OpenDevice(f, Undo) || (s.ts[u].Request? && s.ts[u].rk == ForOpen(f)))
    && s.c.lock == None && s.c.tx.inNdis == {} && s.c.rd.count == 0 && s.c.rx.queue == [] && s.c.leaked == 0
    && s.c.fs.here == {f}
  }

  /** The context can be freed under the request if and only if the OPEN_DEVICE may still undo the association:
      its filter request has not succeeded yet. */
  lemma OpenDecides(s: Sys, t: nat, u: nat, f: File)
    requires Reachable(s) && OpenBeside(s, t, u, f) && StandsOnFile(s.ts[t]) && UseWeight(s.ts[t], f) > 0
    ensures CanBeFreed(s, t) <==> MayUndo(s.ts[u], f)
  {
    hide Reachable, Leads, StandsOnFile, UseWeight, MayUndo, Idle;
    OthersIdle(s, t, u, f);
    if MayUndo(s.ts[u], f) {
      UndoneThenFreed(s, t, u, f);
    } else if CanBeFreed(s, t) {
      forall v | 0 <= v < |s.ts| ensures !MayUndo(s.ts[v], f) {
        if v != u {
          assert Idle(s.ts[u := Done][v]);
          IdleUndoesNothing(s.ts[v], f);
        }
      }
      var s' :| Leads(Origin(s, Some(t)), s') && s'.c.frees == 1;
      NotUnderSettled(s, t, f, s');
    }
  }

  lemma OthersIdle(s: Sys, t: nat, u: nat, f: File)
    requires OpenBeside(s, t, u, f) && StandsOnFile(s.ts[t])
    ensures var ts := s.ts[u := Done]; forall v :: 0 <= v < |ts| ==> Idle(ts[v])
  {
    hide StandsOnFile;
  }

  /** All that is counted is counted for thread u. */
  lemma BesideTotal(k: Key, s: Sys, t: nat, u: nat, f: File)
    requires OpenBeside(s, t, u, f) && StandsOnFile(s.ts[t])
    requires k == References || k == OfReads(InFlight) || k == OfSends(Counted)
    ensures Total(k, s.ts) == W(k, s.ts[u])
  {
    hide Idle, StandsOnFile;
    OthersIdle(s, t, u, f);
    IdleTotal(k, s.ts[u := Done]);
    TotalUpdate(k, s.ts, u, Done);
    DoneWeighsNothing(k, [Done]);
  }

  lemma BesideContext(s: Sys, t: nat, u: nat, f: File)
    requires Reachable(s) && OpenBeside(s, t, u, f) && StandsOnFile(s.ts[t])
    ensures s.c.b.bind == BindActive && !s.c.tx.closingEvent && s.c.rd.pended == []
    ensures s.c.tx.count == SendWeight(s.ts[u]) && s.c.refCount == 2 && s.c.frees == 0
  {
    hide Reachable, FilesUsed, Working, QuietWrites, QuietQueue, Fifo, Exclusive, StandsOnFile, Drained;
    ReachableInv(s);
    BesideTotal(References, s, t, u, f);
    BesideTotal(OfReads(InFlight), s, t, u, f);
    BesideTotal(OfSends(Counted), s, t, u, f);
    LawHolds(s, References);
    CountsPositive(s);
  }

  lemma UndoneThenFreed(s: Sys, t: nat, u: nat, f: File)
    requires Reachable(s) && OpenBeside(s, t, u, f) && StandsOnFile(s.ts[t]) && MayUndo(s.ts[u], f)
    ensures CanBeFreed(s, t)
  {
    hide Reachable, Leads, StandsOnFile, MayUndo, Idle;
    var a := Origin(s, Some(t));
    BesideContext(s, t, u, f);
    OthersIdle(s, t, u, f);
    LeadsToItself(a);
    var h, rest := s.ts[..u], s.ts[u + 1..];
    assert s.ts == h + [s.ts[u]] + rest;
    UndoFrom(a, s.c, h, s.ts[u], rest, f);
    var c := Undone(s.c, f);
    var ts := h + [Done] + rest;
    assert ts == s.ts[u := Done];
    assert ts == [Control(Bound)] + ts[1..];
    UnbindAtRest(a, c, ts[1..]);
  }

  // ---- The dispatch routine of a read that has been listed

  /** At rest, with no other file object tied to the context, the context can always be freed under a dispatch
      routine that has listed its read: the read is completed, so Cleanup and Close need not wait for it. */
  lemma ListedReadCanBeFreed(s: Sys, t: nat, x: Irp, f: File)
    requires Reachable(s) && AtRest(s, t) && s.ts[t] == Service(FromRead(x, f), ServeRef) && s.c.fs.here <= {f}
    ensures ReadCompleted(s.c.rd, x) && CanBeFreed(s, t)
  {
    hide Reachable, Leads, StandsOnFile;
    RestContext(s, t) by { RestStands(s.ts[t]); }
    RestReadCompleted(s, t, x, f);
    if f in s.c.fs.here {
      assert s.c.fs.here == {f};
      CloseAtRest(s, t, x, f);
    } else {
      assert s.c.fs.here == {};
      FreeAtRest(s, t) by { RestStands(s.ts[t]); }
    }
  }

  lemma RestStands(pc: Pc)
    requires pc.Service? && pc.k.FromRead? && pc.v.ServeRef?
    ensures StandsOnFile(pc)
  {
  }

  /** Where no read is listed, no write is with NDIS, and every thread is done, waits, or is past its read,
      every IRP is completed. */
  predicate Past(pc: Pc) {
    pc == Done || pc == Control(Bound) || (pc.Service? && pc.k.FromRead? && pc.v.ServeRef?)
  }

  lemma PastWeights(pc: Pc, x: Irp, f: File)
    requires Past(pc)
    ensures PendedWeight(pc, x) == 0 && DispatchWeight(pc, x) == 0 && SentWeight(pc, x, 4) == 0
    ensures DispatchWriteWeight(pc, x) == 0 && UseWeight(pc, f) == 0 && OpeningWeight(pc, f) == 0
  {
  }

  lemma PastTotal(k: Key, ts: seq<Pc>, f: File)
    requires forall u :: 0 <= u < |ts| ==> Past(ts[u])
    requires (k.OfReads? && k.rk.At?) || (k.OfSends? && k.sk.WriteAt?)
             || k == Weight(UsesOf(f)) || k == Weight(OpeningOf(f))
    ensures Total(k, ts) == 0
  {
    hide Past, PendedWeight, DispatchWeight, SentWeight, DispatchWriteWeight, UseWeight, OpeningWeight;
    forall u | 0 <= u < |ts| ensures W(k, ts[u]) == 0 {
      PastWeights(ts[u], if k.OfReads? then k.rk.x else if k.OfSends? then k.sk.w else 0, f);
    }
    NoTotal(k, ts);
  }

  lemma PastIrps(s: Sys, f: File)
    requires Reachable(s) && s.c.rd.pended == [] && s.c.tx.inNdis == {}
    requires forall u :: 0 <= u < |s.ts| ==> Past(s.ts[u])
    ensures IrpsCompleted(s, f)
  {
    hide Reachable, Past;
    PastTotal(Weight(UsesOf(f)), s.ts, f);
    PastTotal(Weight(OpeningOf(f)), s.ts, f);
    forall x: nat | x < |s.c.rd.owner| ensures ReadCompleted(s.c.rd, x) {
      PastRead(s, x);
    }
    forall w: nat | w < |s.c.tx.owner| ensures WriteCompleted(s.c.tx, w) {
      PastWrite(s, w);
    }
  }

  lemma PastRead(s: Sys, x: Irp)
    requires Reachable(s) && s.c.rd.pended == [] && x < |s.c.rd.owner|
    requires forall u :: 0 <= u < |s.ts| ==> Past(s.ts[u])
    ensures ReadCompleted(s.c.rd, x)
  {
    hide Reachable, Past, ReadCompleted;
    PastTotal(OfReads(At(x)), s.ts, 0);
    LawHolds(s, OfReads(At(x)));
    CompletedIsLogged(s.c.rd, x);
  }

  lemma PastWrite(s: Sys, w: Irp)
    requires Reachable(s) && s.c.tx.inNdis == {} && w < |s.c.tx.owner|
    requires forall u :: 0 <= u < |s.ts| ==> Past(s.ts[u])
    ensures WriteCompleted(s.c.tx, w)
  {
    hide Reachable, Past;
    PastTotal(OfSends(WriteAt(w)), s.ts, 0);
    LawHolds(s, OfSends(WriteAt(w)));
    CountIn(s.c.tx.bySendComplete, w);
    CountIn(s.c.tx.byDispatch, w);
  }

  lemma RestReadCompleted(s: Sys, t: nat, x: Irp, f: File)
    requires Reachable(s) && AtRest(s, t) && s.ts[t] == Service(FromRead(x, f), ServeRef) && s.c.rd.pended == []
    ensures ReadCompleted(s.c.rd, x)
  {
    hide Reachable, Inv, ReadCompleted;
    ListedIsStored(s, t);
    LawHolds(s, OfReads(Listed(x)));
    forall u | 0 <= u < |s.ts| ensures W(OfReads(Listed(x)), s.ts[u]) == 0 {
    }
    NoTotal(OfReads(Listed(x)), s.ts);
    CompletedIsLogged(s.c.rd, x);
  }

  lemma LeadsReachable(a: Origin, s: Sys)
    requires Leads(a, s) && Reachable(a.s)
    ensures Reachable(s)
  {
    hide Reachable;
    var es: seq<Event>, ss: seq<Sys> :| IsRun(a, es, ss) && ss[|es|] == s;
    RunLeads(a, es, ss, |es|);
  }

  /** Cleanup, unless it has been, then Close, then unbind. */
  lemma CloseAtRest(s: Sys, t: nat, x: Irp, f: File)
    requires Reachable(s) && AtRest(s, t) && s.ts[t] == Service(FromRead(x, f), ServeRef) && s.c.fs.here == {f}
    ensures CanBeFreed(s, t)
  {
    hide Reachable, Leads;
    var a := Origin(s, Some(t));
    RestContext(s, t);
    RestIsIdle(s, t);
    LeadsToItself(a);
    if f in s.c.fs.cleaned {
      CloseThenFree(a, s.c, s.ts, f);
    } else {
      IdleTotal(Weight(OpeningOf(f)), s.ts);
      CleanUpAtRest(a, s.c, s.ts, f);
      CloseThenFree(a, CleanedUp(s.c, f), s.ts + [Done], f);
    }
  }

  lemma CleanUpAtRest(a: Origin, c: Ctx, h: seq<Pc>, f: File)
    requires Leads(a, Sys(c, h)) && a.parked.Some? && a.parked.value < |h| && c.b.bind == BindActive && Quiet(c)
    requires f in c.fs.here && f !in c.fs.begun && f !in c.fs.cleaned && c.rd.pended == [] && c.refCount > 0
    requires Total(Weight(OpeningOf(f)), h) == 0
    ensures Leads(a, Sys(CleanedUp(c, f), h + [Done]))
  {
    hide Leads;
    CleanupToPurge(a, c, h, f);
    PurgeToFlush(a, CleanedUp(c, f), h, f);
    FlushToDone(a, CleanedUp(c, f), h, f);
  }

  lemma CloseThenFree(a: Origin, c: Ctx, h: seq<Pc>, f: File)
    requires Leads(a, Sys(c, h)) && Reachable(a.s) && a.parked.Some? && 0 < a.parked.value < |h|
    requires c.b.bind == BindActive && Quiet(c) && c.refCount == 2 && c.frees == 0
    requires c.fs.here == {f} && f in c.fs.cleaned
    requires c.rd.pended == [] && c.tx.inNdis == {}
    requires h[0] == Control(Bound) && forall u :: 0 <= u < |h| ==> Past(h[u])
    ensures exists s' :: Leads(a, s') && s'.c.frees == 1
  {
    hide Reachable, Leads;
    LeadsReachable(a, Sys(c, h));
    PastIrps(Sys(c, h), f);
    Close(a, c, h, f);
    var c' := Deref(c.(fs := c.fs.(here := c.fs.here - {f})));
    var rest := h[1..] + [Done];
    assert h + [Done] == [Control(Bound)] + rest;
    forall u | 0 <= u < |rest| ensures Idle(rest[u]) {
    }
    UnbindAtRest(a, c', rest);
  }
}
