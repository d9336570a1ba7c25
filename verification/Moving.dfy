/** Building runs: single steps of one thread among others, and the courses of
    an unbind and of a cleanup when nothing else is going on. */
module Moving {
  import opened Wrappers
  import opened Lists
  import opened Protocol
  import opened Laws
  import opened Runs
  import opened Invariant
  import opened Theorems

  // ---- Single steps ------------------------------------------------------------

  /** The thread may take a step now. */
  predicate MayStep(c: Ctx, pc: Pc) {
    WellFormed(pc) && Enabled(c, pc) && pc != Control(Drain(ShutClose)) && (StandsOnFile(pc) ==> c.frees == 0)
  }

  /** Thread t of ts takes one step. */
  lemma Move(a: Origin, c: Ctx, ts: seq<Pc>, t: nat, o: bool)
    requires Leads(a, Sys(c, ts)) && t < |ts| && a.parked != Some(t) && MayStep(c, ts[t])
    ensures var (c', pc') := Act(c, ts[t], o); Leads(a, Sys(c', ts[t := pc']))
  {
    hide Leads, Act;
    LeadsOn(a, Sys(c, ts), Run(t, o));
  }

  /** The control thread takes one step; the other threads are rest. */
  lemma Handle(a: Origin, c: Ctx, pc: Pc, rest: seq<Pc>, o: bool)
    requires Leads(a, Sys(c, [pc] + rest)) && a.parked != Some(0) && MayStep(c, pc)
    ensures var (c', pc') := Act(c, pc, o); Leads(a, Sys(c', [pc'] + rest))
  {
    hide Leads, Act;
    Move(a, c, [pc] + rest, 0, o);
    assert ([pc] + rest)[0 := Act(c, pc, o).1] == [Act(c, pc, o).1] + rest;
  }

  /** The last thread takes one step; the other threads are before. */
  lemma Last(a: Origin, c: Ctx, before: seq<Pc>, pc: Pc, o: bool)
    requires Leads(a, Sys(c, before + [pc])) && a.parked != Some(|before|) && MayStep(c, pc)
    ensures var (c', pc') := Act(c, pc, o); Leads(a, Sys(c', before + [pc']))
  {
    hide Leads, Act;
    Move(a, c, before + [pc], |before|, o);
    assert (before + [pc])[|before| := Act(c, pc, o).1] == before + [Act(c, pc, o).1];
  }

  /** A thread in the middle takes one step. */
  lemma Middle(a: Origin, c: Ctx, before: seq<Pc>, pc: Pc, after: seq<Pc>, o: bool)
    requires Leads(a, Sys(c, before + [pc] + after)) && a.parked != Some(|before|) && MayStep(c, pc)
    ensures var (c', pc') := Act(c, pc, o); Leads(a, Sys(c', before + [pc'] + after))
  {
    hide Leads, Act;
    Move(a, c, before + [pc] + after, |before|, o);
    assert (before + [pc] + after)[|before| := Act(c, pc, o).1] == before + [Act(c, pc, o).1] + after;
  }

  lemma Begin(a: Origin, c: Ctx, pc: Pc, rest: seq<Pc>, ctl: ControlPc)
    requires Leads(a, Sys(c, [pc] + rest)) && MayStart(c, pc, ctl)
    ensures Leads(a, Sys(c, [Control(ctl)] + rest))
  {
    hide Leads;
    LeadsOn(a, Sys(c, [pc] + rest), StartControl(ctl));
    assert ([pc] + rest)[0 := Control(ctl)] == [Control(ctl)] + rest;
  }

  lemma Call(a: Origin, c: Ctx, ts: seq<Pc>, e: Event)
    requires Leads(a, Sys(c, ts)) && !e.Run? && !e.StartControl? && Guard(Sys(c, ts), e)
    ensures var (c', pc) := Arrive(c, e); Leads(a, Sys(c', ts + [pc]))
  {
    hide Leads, Arrive, Guard;
    LeadsOn(a, Sys(c, ts), e);
  }

  lemma {:induction false} NoTotal(k: Key, ts: seq<Pc>)
    requires forall t :: 0 <= t < |ts| ==> W(k, ts[t]) == 0
    ensures Total(k, ts) == 0
  {
    hide W;
    if ts != [] {
      NoTotal(k, ts[1..]);
    }
  }

  // ---- Shutdown --------------------------------------------------------------------

  function Closed(c: Ctx): Ctx {
    c.(b := c.b.(unbindReceived := true, state := Closing, bind := BindClosing))
  }

  predicate Quiet(c: Ctx) {
    c.lock == None && c.tx.count == 0 && c.rd.count == 0 && c.rx.queue == [] && !c.tx.closingEvent
  }

  predicate NotParked(a: Origin) {
    a.parked != Some(0)
  }

  lemma UnbindToDrain(a: Origin, c: Ctx, rest: seq<Pc>)
    requires Leads(a, Sys(c, [Control(Bound)] + rest)) && NotParked(a) && c.b.bind == BindActive && Quiet(c)
    ensures Leads(a, Sys(Closed(c), [Control(Drain(ShutRequests))] + rest))
  {
    hide Leads;
    Begin(a, c, Control(Bound), rest, Unbind(UnbindMark));
    Handle(a, c, Control(Unbind(UnbindMark)), rest, true);
    var c1 := c.(b := c.b.(unbindReceived := true));
    Handle(a, c1, Control(Unbind(UnbindState)), rest, true);
    var c2 := c1.(b := c1.b.(state := Closing));
    UnbindLast(a, c, c2, rest);
  }

  lemma UnbindLast(a: Origin, c: Ctx, c2: Ctx, rest: seq<Pc>)
    requires Leads(a, Sys(c2, [Control(Unbind(ShutLock(false)))] + rest)) && NotParked(a) && Quiet(c)
    requires c2 == c.(b := c.b.(unbindReceived := true, state := Closing)) && c.b.bind == BindActive
    ensures Leads(a, Sys(Closed(c), [Control(Drain(ShutRequests))] + rest))
  {
    hide Leads, ActUnbind;
    Handle(a, c2, Control(Unbind(ShutLock(false))), rest, true);
    ClosingStep(c, c2);
  }

  lemma ClosingStep(c: Ctx, c2: Ctx)
    requires c2 == c.(b := c.b.(unbindReceived := true, state := Closing)) && c.b.bind == BindActive && Quiet(c)
    ensures ActUnbind(c2, ShutLock(false)) == (Closed(c), Control(Drain(ShutRequests)))
  {
    assert Closed(c) == SetBind(c2, BindClosing).(tx := c2.tx.(closingEvent := false));
  }

  lemma DrainToFlush(a: Origin, c: Ctx, rest: seq<Pc>)
    requires Leads(a, Sys(c, [Control(Drain(ShutRequests))] + rest)) && NotParked(a) && Quiet(c)
    ensures Leads(a, Sys(c, [Flush(AtShutdown, FlushRef)] + rest))
  {
    hide Leads;
    Handle(a, c, Control(Drain(ShutRequests)), rest, true);
    Handle(a, c, Control(Drain(ShutTest)), rest, true);
    Handle(a, c, Control(Drain(ShutReads)), rest, true);
  }

  lemma FlushToClose(a: Origin, c: Ctx, rest: seq<Pc>)
    requires Leads(a, Sys(c, [Flush(AtShutdown, FlushRef)] + rest)) && NotParked(a) && Quiet(c) && c.refCount > 0
    ensures Leads(a, Sys(c, [Control(Drain(ShutClose))] + rest))
  {
    hide Leads;
    Handle(a, c, Flush(AtShutdown, FlushRef), rest, true);
    Handle(a, Ref(c), Flush(AtShutdown, FlushTop), rest, true);
    Handle(a, Ref(c), Flush(AtShutdown, FlushExit), rest, true);
    assert Deref(Ref(c)) == c;
  }

  /** A quiet, active binding can be unbound up to the close of its adapter. */
  lemma UnbindToClose(a: Origin, c: Ctx, rest: seq<Pc>)
    requires Leads(a, Sys(c, [Control(Bound)] + rest)) && NotParked(a) && c.b.bind == BindActive && Quiet(c)
    requires c.refCount > 0
    ensures Leads(a, Sys(Closed(c), [Control(Drain(ShutClose))] + rest))
  {
    hide Leads;
    UnbindToDrain(a, c, rest);
    DrainToFlush(a, Closed(c), rest);
    FlushToClose(a, Closed(c), rest);
  }

  /** ... and, when no indication runs, to the handle that is no longer valid. */
  lemma CloseToIdle(a: Origin, c: Ctx, rest: seq<Pc>)
    requires Leads(a, Sys(c, [Control(Drain(ShutClose))] + rest)) && NotParked(a) && c.lock == None
    requires Total(Weight(Indicating), [Control(Drain(ShutClose))] + rest) == 0
    ensures Leads(a, Sys(c.(b := c.b.(adapter := false, handle := false)), [Control(Release(ShutIdle, false))] + rest))
  {
    hide Leads, Total;
    var ts := [Control(Drain(ShutClose))] + rest;
    LeadsOn(a, Sys(c, ts), Run(0, true));
    assert ts[0 := Control(Release(ShutHandle, false))] == [Control(Release(ShutHandle, false))] + rest;
    Handle(a, c.(b := c.b.(adapter := false)), Control(Release(ShutHandle, false)), rest, true);
  }

  lemma IdleToFree(a: Origin, c: Ctx, rest: seq<Pc>)
    requires Leads(a, Sys(c, [Control(Release(ShutIdle, false))] + rest)) && NotParked(a) && c.lock == None
    ensures Leads(a, Sys(c.(b := c.b.(bind := BindIdle, unbindReceived := false, listed := false)),
                         [Control(Release(ShutFree, false))] + rest))
  {
    hide Leads;
    Handle(a, c, Control(Release(ShutIdle, false)), rest, true);
    var idle := c.(b := c.b.(bind := BindIdle, unbindReceived := false));
    Handle(a, idle, Control(Release(ShutUnlist, false)), rest, true);
  }

  lemma FreeToGone(a: Origin, c: Ctx, rest: seq<Pc>) returns (c': Ctx)
    requires Leads(a, Sys(c, [Control(Release(ShutFree, false))] + rest)) && NotParked(a)
    ensures Leads(a, Sys(c', [Control(Gone)] + rest)) && c' == Deref(c).(b := c'.b)
  {
    hide Leads;
    Handle(a, c, Control(Release(ShutFree, false)), rest, true);
    var c1 := c.(b := c.b.(name := false, sendPool := false, recvPool := false));
    Handle(a, c1, Control(Release(ShutRelease, false)), rest, true);
    c' := Deref(c1.(b := c1.b.(bound := false)));
  }

  /** A quiet, active binding can be unbound to the end while the other threads stay where they are. */
  lemma UnbindToGone(a: Origin, c: Ctx, rest: seq<Pc>) returns (c': Ctx)
    requires Leads(a, Sys(c, [Control(Bound)] + rest)) && NotParked(a) && c.b.bind == BindActive && Quiet(c)
    requires c.refCount > 0 && forall t :: 0 <= t < |rest| ==> !IsIndication(rest[t])
    ensures Leads(a, Sys(c', [Control(Gone)] + rest)) && c' == Deref(c).(b := c'.b)
  {
    hide Leads;
    UnbindToClose(a, c, rest);
    var c1 := Closed(c);
    NoTotal(Weight(Indicating), [Control(Drain(ShutClose))] + rest);
    CloseToIdle(a, c1, rest);
    var c2 := c1.(b := c1.b.(adapter := false, handle := false));
    IdleToFree(a, c2, rest);
    c' := FreeToGone(a, c2.(b := c2.b.(bind := BindIdle, unbindReceived := false, listed := false)), rest);
  }

  // ---- An open that fails ---------------------------------------------------------------

  /** The OPEN_DEVICE of f has made the association and may still undo it: its filter request has not succeeded. */
  predicate MayUndo(pc: Pc, f: File) {
    pc == OpenDevice(f, Undo) || (pc.Request? && pc.rk == ForOpen(f) && pc.rp != RequestLeave(true))
  }

  /** The context without the association of f, the reference of its OPEN_DEVICE, and its OID request. */
  function Undone(c: Ctx, f: File): Ctx {
    Deref(c.(tx := c.tx.(count := 0),
             fs := c.fs.(openActive := false, pFileObject := None, here := c.fs.here - {f})))
  }

  lemma UndoneForgetsCount(c: Ctx, n: int, f: File)
    ensures Undone(c.(tx := c.tx.(count := n)), f) == Undone(c, f)
  {
  }

  lemma UndoLast(a: Origin, c: Ctx, h: seq<Pc>, rest: seq<Pc>, f: File)
    requires Leads(a, Sys(c, h + [OpenDevice(f, Undo)] + rest)) && a.parked != Some(|h|)
    requires c.lock == None && c.tx.count == 0
    ensures Leads(a, Sys(Undone(c, f), h + [Done] + rest))
  {
    hide Leads;
    Middle(a, c, h, OpenDevice(f, Undo), rest, true);
    var fs := c.fs.(openActive := false, pFileObject := None, here := c.fs.here - {f});
    Middle(a, c.(fs := fs), h, OpenDevice(f, OpenDrop), rest, true);
    assert c.tx.(count := 0) == c.tx;
  }

  lemma LeaveThenUndo(a: Origin, c: Ctx, h: seq<Pc>, rest: seq<Pc>, f: File)
    requires Leads(a, Sys(c, h + [Request(ForOpen(f), RequestLeave(false))] + rest)) && a.parked != Some(|h|)
    requires c.b.bind == BindActive && c.lock == None && c.tx.count == 1
    ensures Leads(a, Sys(Undone(c, f), h + [Done] + rest))
  {
    hide Leads, Undone;
    Middle(a, c, h, Request(ForOpen(f), RequestLeave(false)), rest, true);
    UndoLast(a, c.(tx := c.tx.(count := 0)), h, rest, f);
    UndoneForgetsCount(c, 0, f);
  }

  /** From wherever the OPEN_DEVICE may still undo it, the association of f is undone after its filter request
      has failed; the other threads stay where they are. */
  lemma UndoFrom(a: Origin, c: Ctx, h: seq<Pc>, pc: Pc, rest: seq<Pc>, f: File)
    requires Leads(a, Sys(c, h + [pc] + rest)) && a.parked != Some(|h|) && MayUndo(pc, f)
    requires c.b.bind == BindActive && c.lock == None && c.tx.count == SendWeight(pc)
    ensures Leads(a, Sys(Undone(c, f), h + [Done] + rest))
  {
    hide Leads, Undone;
    if pc.OpenDevice? {
      UndoLast(a, c, h, rest, f);
    } else if pc.rp.RequestLeave? {
      LeaveThenUndo(a, c, h, rest, f);
    } else {
      var c1 := c.(tx := c.tx.(count := 1));
      if pc.rp.RequestEnter? {
        Middle(a, c, h, pc, rest, true);
      }
      assert c.tx.count == 1 ==> c1 == c;
      Middle(a, c1, h, Request(ForOpen(f), RequestRun), rest, false);
      LeaveThenUndo(a, c1, h, rest, f);
      UndoneForgetsCount(c, 1, f);
    }
  }

  // ---- Cleanup and close of a file object ---------------------------------------------

  function CleanedUp(c: Ctx, f: File): Ctx {
    c.(fs := c.fs.(openActive := false, pFileObject := None, begun := c.fs.begun + {f}, cleaned := c.fs.cleaned + {f}))
  }

  /** A cleanup begins and comes to the purge of the reads. */
  lemma CleanupToPurge(a: Origin, c: Ctx, h: seq<Pc>, f: File)
    requires Leads(a, Sys(c, h)) && a.parked != Some(|h|) && c.b.bind == BindActive && c.lock == None
    requires f in c.fs.here && f !in c.fs.begun && f !in c.fs.cleaned
    requires Total(Weight(OpeningOf(f)), h) == 0
    ensures Leads(a, Sys(CleanedUp(c, f), h + [Purge(FromCleanup(f), PurgeRef)]))
  {
    hide Leads, Total;
    Call(a, c, h, DispatchCleanup(f));
    var c1 := c.(fs := c.fs.(begun := c.fs.begun + {f}));
    Last(a, c1, h, Request(ForCleanup(f), RequestEnter), true);
    var c2 := c1.(tx := c1.tx.(count := c1.tx.count + 1));
    Last(a, c2, h, Request(ForCleanup(f), RequestRun), true);
    Last(a, c2, h, Request(ForCleanup(f), RequestLeave(c.b.d0)), true);
    assert Uncount(c2) == c1;
    Last(a, c1, h, CleanupMark(f), true);
    assert ActCleanupMark(c1, f).0 == CleanedUp(c, f);
  }

  /** With no read listed the purge is over at once. */
  lemma PurgeToFlush(a: Origin, c: Ctx, h: seq<Pc>, f: File)
    requires Leads(a, Sys(c, h + [Purge(FromCleanup(f), PurgeRef)])) && a.parked != Some(|h|)
    requires c.lock == None && c.rd.pended == [] && c.refCount > 0
    ensures Leads(a, Sys(c, h + [Flush(AtCleanup(f), FlushRef)]))
  {
    hide Leads;
    Last(a, c, h, Purge(FromCleanup(f), PurgeRef), true);
    Last(a, Ref(c), h, Purge(FromCleanup(f), PurgeTop), true);
    Last(a, Ref(c), h, Purge(FromCleanup(f), PurgeExit), true);
    assert Deref(Ref(c)) == c;
  }

  lemma FlushToDone(a: Origin, c: Ctx, h: seq<Pc>, f: File)
    requires Leads(a, Sys(c, h + [Flush(AtCleanup(f), FlushRef)])) && a.parked != Some(|h|)
    requires c.lock == None && c.rx.queue == [] && c.refCount > 0
    ensures Leads(a, Sys(c, h + [Done]))
  {
    hide Leads;
    Last(a, c, h, Flush(AtCleanup(f), FlushRef), true);
    Last(a, Ref(c), h, Flush(AtCleanup(f), FlushTop), true);
    Last(a, Ref(c), h, Flush(AtCleanup(f), FlushExit), true);
    assert Deref(Ref(c)) == c;
  }

  /** A cleaned-up file object on which every IRP is completed is closed. */
  lemma Close(a: Origin, c: Ctx, h: seq<Pc>, f: File)
    requires Leads(a, Sys(c, h)) && a.parked != Some(|h|)
    requires f in c.fs.here && f in c.fs.cleaned && IrpsCompleted(Sys(c, h), f)
    ensures Leads(a, Sys(Deref(c.(fs := c.fs.(here := c.fs.here - {f}))), h + [Done]))
  {
    hide Leads, IrpsCompleted;
    Call(a, c, h, DispatchClose(f));
    Last(a, c.(fs := c.fs.(here := c.fs.here - {f})), h, CloseDrop, true);
  }
}
