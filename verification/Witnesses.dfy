/** Concrete runs. They show that the guards of the runs leave the whole life of a
    context open, and that eight further claims one might make of the driver fail. */
module Witnesses {
  import opened Wrappers
  import opened Lists
  import opened Protocol
  import opened Laws
  import opened Runs
  import opened Invariant
  import opened Actions
  import opened Theorems
  import opened Moving

  /** All runs here begin at the beginning, and every thread may move. */
  const START := Beginning()

  // ---- Bind, restart, open -------------------------------------------------------

  const LISTED :=
    Binding(BindIdle, false, Initializing, false, false, true, true, false, false, false, false, false)

  const LOADED := Binding(BindOpening, false, Initializing, false, true, true, true, false, false, true, true, true)

  const ACTIVE := Binding(BindActive, false, Paused, false, true, true, true, true, true, true, true, true)

  lemma BindToHold()
    ensures Leads(START, Sys(InitialContext().(refCount := 1, b := LISTED), [Control(Bind(BindHold))] + []))
  {
    hide Leads;
    LeadsToItself(START);
    var c0 := InitialContext();
    assert [Control(New)] == [Control(New)] + [];
    Begin(START, c0, Control(New), [], Bind(BindRef));
    Handle(START, c0, Control(Bind(BindRef)), [], true);
    Handle(START, c0.(refCount := 1, b := c0.b.(bound := true)), Control(Bind(BindList)), [], true);
  }

  lemma BindToName()
    ensures Leads(START, Sys(InitialContext().(refCount := 2, b := LISTED.(bind := BindOpening)),
                             [Control(Resource(BindName))] + []))
  {
    hide Leads;
    BindToHold();
    var c0 := InitialContext().(refCount := 1, b := LISTED);
    Handle(START, c0, Control(Bind(BindHold)), [], true);
    Handle(START, c0.(refCount := 2), Control(Bind(BindStart)), [], true);
  }

  lemma BindToAdapter()
    ensures Leads(START, Sys(InitialContext().(refCount := 2, b := LOADED), [Control(Resource(BindAdapter))] + []))
  {
    hide Leads;
    BindToName();
    var c4 := InitialContext().(refCount := 2, b := LISTED.(bind := BindOpening));
    Handle(START, c4, Control(Resource(BindName)), [], true);
    var c5 := c4.(b := c4.b.(name := true));
    Handle(START, c5, Control(Resource(BindSendPool)), [], true);
    Handle(START, c5.(b := c5.b.(sendPool := true)), Control(Resource(BindRecvPool)), [], true);
  }

  lemma BindToBound()
    ensures Leads(START, Sys(InitialContext().(refCount := 1, b := ACTIVE), [Control(Bound)] + []))
  {
    hide Leads;
    BindToAdapter();
    var c0 := InitialContext().(refCount := 2, b := LOADED);
    Handle(START, c0, Control(Resource(BindAdapter)), [], true);
    var c1 := c0.(b := c0.b.(adapter := true, handle := true));
    Handle(START, c1, Control(Bind(BindPaused)), [], true);
    var c2 := c1.(b := c1.b.(state := Paused));
    Handle(START, c2, Control(Bind(BindActivate)), [], true);
    var c3 := c2.(b := c2.b.(bind := BindActive));
    Handle(START, c3, Control(Bind(BindRelease)), [], true);
    assert c3.(refCount := 1) == InitialContext().(refCount := 1, b := ACTIVE);
  }

  const RESTARTED := InitialContext().(refCount := 1, b := ACTIVE.(state := Running))

  lemma BindToRestarted()
    ensures Leads(START, Sys(RESTARTED, [Control(Bound)] + []))
  {
    hide Leads;
    BindToBound();
    var c0 := InitialContext().(refCount := 1, b := ACTIVE);
    Begin(START, c0, Control(Bound), [], Event(Restart));
    Handle(START, c0, Control(Event(Restart)), [], true);
  }

  const RUNNING := RESTARTED.(refCount := 2, fs := Files(true, Some(0), {0}, {}, {}, {}))

  /** File object 0 is tied to the context; its OPEN_DEVICE has still to set the packet filter. */
  lemma Opening()
    ensures Leads(START, Sys(RUNNING, [Control(Bound)] + [Request(ForOpen(0), RequestEnter)] + []))
  {
    hide Leads;
    BindToRestarted();
    var h := [Control(Bound)] + [];
    Call(START, RESTARTED, h, DispatchOpen(0));
    Last(START, RESTARTED, h, OpenDevice(0, Lookup), true);
    var c2 := RESTARTED.(refCount := 2);
    Last(START, c2, h, OpenDevice(0, Associate), true);
    assert RUNNING.fs.here == c2.fs.here + {0};
    assert h + [Request(ForOpen(0), RequestEnter)]
        == [Control(Bound)] + [Request(ForOpen(0), RequestEnter)] + [];
  }

  /** A running binding on which file object 0 has opened the device. */
  lemma Opened()
    ensures Leads(START, Sys(RUNNING, [Control(Bound), Done]))
  {
    hide Leads;
    Opening();
    var h := [Control(Bound)];
    var c4 := RUNNING.(tx := RUNNING.tx.(count := 1));
    Middle(START, RUNNING, h, Request(ForOpen(0), RequestEnter), [], true);
    Middle(START, c4, h, Request(ForOpen(0), RequestRun), [], true);
    Middle(START, c4, h, Request(ForOpen(0), RequestLeave(true)), [], true);
    assert Uncount(c4) == RUNNING;
    assert h + [Done] + [] == [Control(Bound), Done];
  }

  /** The life of a context can run to its end: it is freed. */
  lemma ContextCanBeFreed()
    ensures exists s :: Reachable(s) && AllGone(s) && s.c.frees == 1
  {
    hide Leads;
    BindToBound();
    var c := InitialContext().(refCount := 1, b := ACTIVE);
    var c' := UnbindToGone(START, c, []);
    var s := Sys(c', [Control(Gone)] + []);
    assert Reachable(s) && AllGone(s);
  }

  // ---- Requests that find the context freed --------------------------------------------

  predicate FoundFreed(s: Sys, t: nat, pc: Pc) {
    t < |s.ts| && s.ts[t] == pc && StandsOnFile(pc) && Enabled(s.c, pc) && Touches(s.c, pc)
    && s.c.frees == 1 && s.c.refCount == 0
  }

  /** While pc stands before its first access the open of file object 0 fails, and the binding goes. */
  lemma UndoneAndUnbound(c: Ctx, pc: Pc, rest: seq<Pc>)
    requires Leads(START, Sys(c, [Control(Bound)] + [Request(ForOpen(0), RequestEnter)] + ([pc] + rest)))
    requires c.b == RUNNING.b && c.fs == RUNNING.fs && Quiet(c) && c.refCount == 2 && c.frees == 0
    requires StandsOnFile(pc) && forall u :: 0 <= u < |rest| ==> rest[u] == Done
    ensures exists s :: Reachable(s) && FoundFreed(s, 2, pc)
  {
    hide Leads;
    UndoFrom(START, c, [Control(Bound)], Request(ForOpen(0), RequestEnter), [pc] + rest, 0);
    var c1 := Undone(c, 0);
    assert [Control(Bound)] + [Done] + ([pc] + rest) == [Control(Bound)] + ([Done, pc] + rest);
    var c' := UnbindToGone(START, c1, [Done, pc] + rest);
    var s := Sys(c', [Control(Gone)] + ([Done, pc] + rest));
    assert s.ts[2] == pc && FoundFreed(s, 2, pc);
  }

  /** A request that is dispatched while the OPEN_DEVICE of its file object runs can find the context freed:
      the open fails and drops its reference, the binding goes, and the request has not come to the lock. */
  lemma RequestDuringOpenFindsFreed(e: Event)
    requires e == DispatchRead(0) || e == DispatchWrite(0) || e == DispatchIoctl(0)
    ensures exists s :: Reachable(s) && FoundFreed(s, 2, Arrive(RUNNING, e).1)
  {
    hide Leads;
    Opening();
    var h := [Control(Bound)] + [Request(ForOpen(0), RequestEnter)];
    assert h + [] == h;
    Call(START, RUNNING, h, e);
    var (c, pc) := Arrive(RUNNING, e);
    assert h + [pc] == h + ([pc] + []);
    UndoneAndUnbound(c, pc, []);
  }

  const READING := RUNNING.(rd := RUNNING.rd.(owner := [0]))

  const READ_LOCKED := READING.(lock := Some(ByRead(0)), rd := READING.rd.(routine := {0}))

  /** The read of a thread that is the third one comes to its test of Cancel. */
  lemma ReadToTest(h: seq<Pc>)
    requires Leads(START, Sys(RUNNING, h)) && |h| == 2
    ensures Leads(START, Sys(READ_LOCKED, h + [Read(0, 0, Test)]))
  {
    hide Leads;
    Call(START, RUNNING, h, DispatchRead(0));
    assert RUNNING.rd.owner + [0] == [0];
    Last(START, READING, h, Read(0, 0, Enter), true);
    assert READING.rd.routine + {0} == {0};
  }

  lemma ReadCancelled()
    ensures Leads(START, Sys(READ_LOCKED.(rd := READ_LOCKED.rd.(cancelled := {0})),
                             [Control(Bound)] + [Request(ForOpen(0), RequestEnter)] + [Read(0, 0, Test)]
                             + [CancelRead(0, TakeRoutine)]))
  {
    hide Leads;
    Opening();
    var h := [Control(Bound)] + [Request(ForOpen(0), RequestEnter)];
    assert h + [] == h;
    ReadToTest(h);
    var g := h + [Read(0, 0, Test)];
    Call(START, READ_LOCKED, g, CancelReadIrp(0));
    Last(START, READ_LOCKED, g, CancelRead(0, SetCancel), true);
    assert READ_LOCKED.rd.cancelled + {0} == {0};
  }

  /** The same happens to a read that was cancelled before it was listed, on its way into ServiceReads. */
  lemma CancelledReadFindsFreed()
    ensures exists s :: Reachable(s) && FoundFreed(s, 2, Service(FromCancelledRead(0, 0), ServeRef))
  {
    hide Leads;
    ReadCancelled();
    var h := [Control(Bound)] + [Request(ForOpen(0), RequestEnter)];
    var c := READ_LOCKED.(rd := READ_LOCKED.rd.(cancelled := {0}));
    var pc := Service(FromCancelledRead(0, 0), ServeRef);
    Middle(START, c, h, Read(0, 0, Test), [CancelRead(0, TakeRoutine)], true);
    var c1 := c.(lock := None, rd := c.rd.(routine := c.rd.routine - {0}));
    Last(START, c1, h + [pc], CancelRead(0, TakeRoutine), true);
    assert h + [pc] + [Done] == h + ([pc] + [Done]);
    UndoneAndUnbound(c1, pc, [Done]);
  }

  // ---- A dispatch routine that is overtaken by the completion of its read ----------------

  /** Read 0 is listed, and its dispatch routine is on its way into ServiceReads. */
  lemma ReadListed() returns (c: Ctx)
    ensures Leads(START, Sys(c, [Control(Bound), Done] + [Service(FromRead(0, 0), ServeRef)]))
    ensures c == RUNNING.(refCount := 3, rd := Reads([0], 1, {}, {0}, {0}, [0], [], [], [], []))
  {
    hide Leads;
    Opened();
    var h := [Control(Bound), Done];
    ReadToTest(h);
    Last(START, READ_LOCKED, h, Read(0, 0, Test), true);
    Last(START, READ_LOCKED, h, Read(0, 0, List), true);
    c := RUNNING.(refCount := 3, rd := Reads([0], 1, {}, {0}, {0}, [0], [], [], [], []));
    assert [] + [0] == [0] && {} + {0} == {0};
  }

  lemma ListedReadClaimed() returns (c: Ctx)
    ensures Leads(START, Sys(c, [Control(Bound), Done] + [Service(FromRead(0, 0), ServeRef)] + [CancelRead(0, Unlink)]))
    ensures c == RUNNING.(refCount := 3, rd := Reads([0], 1, {0}, {}, {0}, [0], [], [], [], []))
  {
    hide Leads;
    var c0 := ReadListed();
    var h := [Control(Bound), Done] + [Service(FromRead(0, 0), ServeRef)];
    Call(START, c0, h, CancelReadIrp(0));
    Last(START, c0, h, CancelRead(0, SetCancel), true);
    var c1 := c0.(rd := c0.rd.(cancelled := {0}));
    assert c0.rd.cancelled + {0} == {0};
    Last(START, c1, h, CancelRead(0, TakeRoutine), true);
    c := RUNNING.(refCount := 3, rd := Reads([0], 1, {0}, {}, {0}, [0], [], [], [], []));
    assert c1.rd.routine - {0} == {};
    Last(START, c, h, CancelRead(0, Fetch), true);
  }

  const READ_OVER := RUNNING.(rd := Reads([], 0, {0}, {}, {0}, [0], [], [0], [], []))

  lemma ListedReadOver()
    ensures Leads(START, Sys(READ_OVER, [Control(Bound), Done] + [Service(FromRead(0, 0), ServeRef)] + [Done]))
  {
    hide Leads;
    var c0 := ListedReadClaimed();
    var h := [Control(Bound), Done] + [Service(FromRead(0, 0), ServeRef)];
    Last(START, c0, h, CancelRead(0, Unlink), true);
    var c1 := c0.(rd := c0.rd.(pended := [], count := 0));
    assert Remove([0], 0) == [];
    Last(START, c1, h, CancelRead(0, CancelComplete), true);
    var c2 := c1.(rd := c1.rd.(byCancel := [0]));
    assert [] + [0] == [0];
    Last(START, c2, h, CancelRead(0, CancelDrop), true);
    assert c2.(refCount := 2) == READ_OVER;
  }

  /** File object 0 is cleaned up and closed behind the back of the dispatch routine. */
  lemma ListedReadClosed() returns (c: Ctx)
    ensures Leads(START, Sys(c, [Control(Bound)] + [Done, Service(FromRead(0, 0), ServeRef), Done, Done, Done]))
    ensures c.b == RUNNING.b && c.refCount == 1 && c.frees == 0 && Quiet(c) && c.rd == READ_OVER.rd
  {
    hide Leads, IrpsCompleted;
    ListedReadOver();
    var h := [Control(Bound), Done] + [Service(FromRead(0, 0), ServeRef)] + [Done];
    NoTotal(Weight(OpeningOf(0)), h);
    CleanupToPurge(START, READ_OVER, h, 0);
    var c1 := CleanedUp(READ_OVER, 0);
    PurgeToFlush(START, c1, h, 0);
    FlushToDone(START, c1, h, 0);
    var g := h + [Done];
    ReadOverIsCompleted(c1, g);
    Close(START, c1, g, 0);
    c := Deref(c1.(fs := c1.fs.(here := c1.fs.here - {0})));
    assert g + [Done] == [Control(Bound)] + [Done, Service(FromRead(0, 0), ServeRef), Done, Done, Done];
  }

  lemma ReadOverIsCompleted(c: Ctx, g: seq<Pc>)
    requires c.rd == READ_OVER.rd && c.tx.owner == []
    requires g == [Control(Bound), Done, Service(FromRead(0, 0), ServeRef), Done, Done]
    ensures IrpsCompleted(Sys(c, g), 0)
  {
    NoTotal(Weight(UsesOf(0)), g);
    NoTotal(Weight(OpeningOf(0)), g);
    forall x: nat | x < |c.rd.owner| ensures ReadCompleted(c.rd, x) {
      assert x == 0;
    }
  }

  /** A dispatch routine that has listed its read can find the context freed on its way into ServiceReads: the
      read is completed by its cancel routine, the file object is closed, and the binding goes. */
  lemma ListedReadFindsFreed()
    ensures exists s :: Reachable(s) && FoundFreed(s, 2, Service(FromRead(0, 0), ServeRef)) && s.c.rd.byCancel == [0]
  {
    hide Leads;
    var c := ListedReadClosed();
    var rest := [Done, Service(FromRead(0, 0), ServeRef), Done, Done, Done];
    var c' := UnbindToGone(START, c, rest);
    var s := Sys(c', [Control(Gone)] + rest);
    assert s.ts[2] == Service(FromRead(0, 0), ServeRef);
  }

  // ---- A packet that meets a pause ---------------------------------------------------

  /** The indication of packet 0 has passed the tests of the state and has taken the reference for the queue. */
  const INDICATED := RESTARTED.(refCount := 2, rx := Packets([], 0, 1, [], [], []))

  lemma PacketArrives()
    ensures Leads(START, Sys(INDICATED, [Control(Bound)] + [Receive(0, QueueLock)]))
  {
    hide Leads;
    BindToRestarted();
    var h := [Control(Bound)] + [];
    Call(START, RESTARTED, h, Indicate);
    var c1 := RESTARTED.(rx := RESTARTED.rx.(next := 1));
    Last(START, c1, h, Receive(0, LookPausing), true);
    Last(START, c1, h, Receive(0, LookPaused), true);
    Last(START, c1, h, Receive(0, QueueRef), true);
    assert h + [Receive(0, QueueLock)] == [Control(Bound)] + [Receive(0, QueueLock)];
  }

  const PAUSING := INDICATED.(b := ACTIVE.(state := Pausing))

  /** Pause has flushed the queue and is about to store Paused. */
  lemma PauseFlushes()
    ensures Leads(START, Sys(PAUSING, [Control(Event(PauseDone))] + [Receive(0, QueueLock)]))
  {
    hide Leads;
    PacketArrives();
    var r := [Receive(0, QueueLock)];
    Begin(START, INDICATED, Control(Bound), r, Event(PauseLock));
    Handle(START, INDICATED, Control(Event(PauseLock)), r, true);
    Handle(START, PAUSING, Flush(AtPause, FlushRef), r, true);
    Handle(START, Ref(PAUSING), Flush(AtPause, FlushTop), r, true);
    Handle(START, Ref(PAUSING), Flush(AtPause, FlushExit), r, true);
    assert Deref(Ref(PAUSING)) == PAUSING;
  }

  const PAUSED_NOW := INDICATED.(b := ACTIVE)

  lemma DropWhilePaused() returns (c: Ctx)
    ensures Leads(START, Sys(c, [Control(Bound)] + [Done]))
    ensures c == PAUSED_NOW.(leaked := 1, rx := Packets([], 0, 1, [], [], [0]))
  {
    hide Leads;
    PauseFlushes();
    Handle(START, PAUSING, Control(Event(PauseDone)), [Receive(0, QueueLock)], true);
    assert PAUSING.(b := PAUSING.b.(state := Paused, raced := false)) == PAUSED_NOW;
    var h := [Control(Bound)];
    Last(START, PAUSED_NOW, h, Receive(0, QueueLock), true);
    var c2 := PAUSED_NOW.(leaked := 1);
    Last(START, c2, h, Receive(0, GiveUp), true);
    assert c2.rx.returned + [0] == [0];
    c := PAUSED_NOW.(leaked := 1, rx := Packets([], 0, 1, [], [], [0]));
  }

  /** One packet whose indication overlaps a pause keeps the context from ever being freed. */
  lemma PausedPacketLeaksContext()
    ensures exists s :: Reachable(s) && AllGone(s) && s.c.refCount == 1 && s.c.frees == 0
  {
    hide Leads;
    var c := DropWhilePaused();
    var c' := UnbindToGone(START, c, [Done]);
    var s := Sys(c', [Control(Gone)] + [Done]);
    assert Reachable(s) && AllGone(s);
  }

  /** The first load of State still sees Pausing, the second one sees Paused: the packet is queued while the
      state is Paused. */
  lemma PausedQueueNotEmpty()
    ensures exists s :: Reachable(s) && s.c.b.state == Paused && s.c.rx.queue == [0]
  {
    hide Leads;
    PauseFlushes();
    var h := [Control(Event(PauseDone))];
    Last(START, PAUSING, h, Receive(0, QueueLock), true);
    var c1 := PAUSING.(lock := Some(ByReceive(0)));
    Handle(START, c1, Control(Event(PauseDone)), [Receive(0, QueueAgain)], true);
    var c2 := c1.(b := ACTIVE.(raced := true));
    Last(START, c2, [Control(Bound)], Receive(0, QueueAgain), true);
    var c3 := c2.(lock := None, rx := Enqueue(c2.rx, 0));
    assert c3.rx.queue == [0];
    assert Reachable(Sys(c3, [Control(Bound)] + [Service(FromReceive, ServeRef)]));
  }

  // ---- Cancel and shutdown ------------------------------------------------------------

  /** A read that is cancelled while its dispatch routine installs it makes the
      cancel routine take NULL for its context. */
  lemma CancelMayFindNullContext()
    ensures exists s, t: nat :: Reachable(s) && t < |s.ts| && s.ts[t] == CancelRead(0, NullContext)
  {
    hide Leads;
    ReadCancelled();
    var g := [Control(Bound)] + [Request(ForOpen(0), RequestEnter)] + [Read(0, 0, Test)];
    var c3 := READ_LOCKED.(rd := READ_LOCKED.rd.(cancelled := {0}));
    Last(START, c3, g, CancelRead(0, TakeRoutine), true);
    var c4 := c3.(rd := c3.rd.(routine := c3.rd.routine - {0}));
    Last(START, c4, g, CancelRead(0, Fetch), true);
    var s := Sys(c4, g + [CancelRead(0, NullContext)]);
    assert Reachable(s) && s.ts[3] == CancelRead(0, NullContext);
  }

  /** An OID request that ends between the two unlocked reads of WaitForPendingIO makes shutdown wait on NULL. */
  lemma ShutdownMayWaitOnNull()
    ensures exists s :: Reachable(s) && Handler(s) == Control(Drain(ShutNull))
  {
    hide Leads;
    Opened();
    var h := [Control(Bound), Done];
    Call(START, RUNNING, h, DispatchIoctl(0));
    Last(START, RUNNING, h, Request(ForIoctl(0), RequestEnter), true);
    assert h + [Request(ForIoctl(0), RequestRun)] == [Control(Bound)] + [Done, Request(ForIoctl(0), RequestRun)];
    var c := UnbindDuringRequest(RUNNING.(tx := RUNNING.tx.(count := 1)));
    RequestEndsThenLoad(c);
  }

  lemma UnbindDuringRequest(c1: Ctx) returns (c: Ctx)
    requires Leads(START, Sys(c1, [Control(Bound)] + [Done, Request(ForIoctl(0), RequestRun)]))
    requires c1 == RUNNING.(tx := RUNNING.tx.(count := 1))
    ensures Leads(START, Sys(c, [Control(Drain(ShutLoad))] + [Done, Request(ForIoctl(0), RequestRun)]))
    ensures c.b.bind == BindClosing && c.tx.count == 1 && c.lock == None
  {
    hide Leads;
    var r := [Done, Request(ForIoctl(0), RequestRun)];
    Begin(START, c1, Control(Bound), r, Unbind(UnbindMark));
    Handle(START, c1, Control(Unbind(UnbindMark)), r, true);
    var c2 := c1.(b := c1.b.(unbindReceived := true));
    Handle(START, c2, Control(Unbind(UnbindState)), r, true);
    var c3 := c2.(b := c2.b.(state := Closing));
    Handle(START, c3, Control(Unbind(ShutLock(false))), r, true);
    c := c3.(b := c3.b.(bind := BindClosing), tx := c3.tx.(closingEvent := true));
    Handle(START, c, Control(Drain(ShutRequests)), r, true);
    Handle(START, c, Control(Drain(ShutTest)), r, true);
  }

  lemma RequestEndsThenLoad(c: Ctx)
    requires Leads(START, Sys(c, [Control(Drain(ShutLoad))] + [Done, Request(ForIoctl(0), RequestRun)]))
    requires c.b.bind == BindClosing && c.tx.count == 1 && c.lock == None
    ensures exists s :: Reachable(s) && Handler(s) == Control(Drain(ShutNull))
  {
    hide Leads;
    var h := [Control(Drain(ShutLoad)), Done];
    assert [Control(Drain(ShutLoad))] + [Done, Request(ForIoctl(0), RequestRun)]
        == h + [Request(ForIoctl(0), RequestRun)];
    Last(START, c, h, Request(ForIoctl(0), RequestRun), true);
    Last(START, c, h, Request(ForIoctl(0), RequestLeave(true)), true);
    var c1 := c.(tx := c.tx.(count := 0, signalled := true, closingEvent := false));
    assert h + [Done] == [Control(Drain(ShutLoad))] + [Done, Done];
    Handle(START, c1, Control(Drain(ShutLoad)), [Done, Done], true);
    var s := Sys(c1, [Control(Drain(ShutNull))] + [Done, Done]);
    assert Reachable(s) && Handler(s) == Control(Drain(ShutNull));
  }

  // ---- A packet that cleanup still holds when the adapter is closed ------------------

  const ONE_PACKET := RUNNING.(refCount := 3, rx := Packets([0], 1, 1, [0], [], []))

  lemma QueueOnePacket()
    ensures Leads(START, Sys(ONE_PACKET, [Control(Bound), Done] + [Service(FromReceive, ServeRef)]))
  {
    hide Leads;
    Opened();
    var h := [Control(Bound), Done];
    Call(START, RUNNING, h, Indicate);
    var c1 := RUNNING.(rx := RUNNING.rx.(next := 1));
    Last(START, c1, h, Receive(0, LookPausing), true);
    Last(START, c1, h, Receive(0, LookPaused), true);
    Last(START, c1, h, Receive(0, QueueRef), true);
    PacketQueued(c1.(refCount := 3), h);
  }

  lemma PacketQueued(c: Ctx, h: seq<Pc>)
    requires Leads(START, Sys(c, h + [Receive(0, QueueLock)]))
    requires c == RUNNING.(refCount := 3, rx := RUNNING.rx.(next := 1))
    ensures Leads(START, Sys(ONE_PACKET, h + [Service(FromReceive, ServeRef)]))
  {
    hide Leads;
    Last(START, c, h, Receive(0, QueueLock), true);
    Last(START, c.(lock := Some(ByReceive(0))), h, Receive(0, QueueAgain), true);
    assert Enqueue(c.rx, 0) == ONE_PACKET.rx;
  }

  lemma ServeNobody()
    ensures Leads(START, Sys(ONE_PACKET, [Control(Bound), Done] + [Done]))
  {
    hide Leads;
    QueueOnePacket();
    var h := [Control(Bound), Done];
    Last(START, ONE_PACKET, h, Service(FromReceive, ServeRef), true);
    Last(START, Ref(ONE_PACKET), h, Service(FromReceive, ServeTop), true);
    Last(START, Ref(ONE_PACKET), h, Service(FromReceive, ServeExit), true);
    assert Deref(Ref(ONE_PACKET)) == ONE_PACKET;
  }

  lemma CleanupHoldsPacket() returns (c: Ctx)
    ensures Leads(START, Sys(c, [Control(Bound)] + [Done, Done, Flush(AtCleanup(0), FlushFree(0))]))
    ensures c.b == RUNNING.b && Quiet(c) && c.refCount > 0
  {
    hide Leads;
    ServeNobody();
    var h := [Control(Bound), Done] + [Done];
    NoTotal(Weight(OpeningOf(0)), h);
    CleanupToPurge(START, ONE_PACKET, h, 0);
    var c1 := CleanedUp(ONE_PACKET, 0);
    PurgeToFlush(START, c1, h, 0);
    Last(START, c1, h, Flush(AtCleanup(0), FlushRef), true);
    Last(START, Ref(c1), h, Flush(AtCleanup(0), FlushTop), true);
    c := Ref(c1).(rx := Dequeue(c1.rx));
    assert h + [Flush(AtCleanup(0), FlushFree(0))]
        == [Control(Bound)] + [Done, Done, Flush(AtCleanup(0), FlushFree(0))];
  }

  /** The close of the adapter does not wait for a packet that the cleanup of a file object is giving back. */
  lemma CleanupMayHoldPacketAtClose()
    ensures exists s, t: nat ::
              && Reachable(s) && Handler(s) == Control(Drain(ShutClose)) && Guard(s, Run(0, true))
              && t < |s.ts| && s.ts[t] == Flush(AtCleanup(0), FlushFree(0))
  {
    hide Leads;
    var c := CleanupHoldsPacket();
    var r := [Done, Done, Flush(AtCleanup(0), FlushFree(0))];
    UnbindToClose(START, c, r);
    var s := Sys(Closed(c), [Control(Drain(ShutClose))] + r);
    NoTotal(Weight(Indicating), s.ts);
    assert Reachable(s) && Guard(s, Run(0, true)) && s.ts[3] == Flush(AtCleanup(0), FlushFree(0));
  }

  // ---- A cancelled write whose binding is closed under it ----------------------------

  const ONE_WRITE := RUNNING.(refCount := 3,
    tx := RUNNING.tx.(pended := [0], count := 1, routine := {0}, stored := {0}, owner := [0], went := {0}))

  lemma WriteBegins()
    ensures Leads(START, Sys(ONE_WRITE, [Control(Bound), Done] + [Write(0, 0, WriteSend)]))
  {
    hide Leads;
    Opened();
    var h := [Control(Bound), Done];
    Call(START, RUNNING, h, DispatchWrite(0));
    var c1 := RUNNING.(tx := RUNNING.tx.(owner := [0]));
    assert RUNNING.tx.owner + [0] == [0];
    Last(START, c1, h, Write(0, 0, WriteLock), false);
    assert ONE_WRITE == WriteSection(c1, 0, 0, false).0 by {
      assert c1.tx.pended + [0] == [0] && c1.tx.routine + {0} == {0} && c1.tx.stored + {0} == {0}
          && c1.tx.went + {0} == {0};
    }
  }

  const CANCELLING := RUNNING.(refCount := 4,
    tx := RUNNING.tx.(pended := [0], count := 1, stored := {0}, owner := [0], inNdis := {0}, went := {0}))

  lemma CancelFindsWrite()
    ensures Leads(START, Sys(CANCELLING, [Control(Bound), Done, Done, CancelWrite(0, CancelSend)]))
  {
    hide Leads;
    WriteBegins();
    var h := [Control(Bound), Done];
    Last(START, ONE_WRITE, h, Write(0, 0, WriteSend), true);
    var c3 := ONE_WRITE.(tx := ONE_WRITE.tx.(inNdis := {0}));
    assert ONE_WRITE.tx.inNdis + {0} == {0};
    var g := h + [Done];
    Call(START, c3, g, CancelWriteIrp(0));
    Last(START, c3, g, CancelWrite(0, TakeWriteRoutine), true);
    assert c3.tx.routine - {0} == {};
    assert CANCELLING == c3.(refCount := 4, tx := c3.tx.(routine := {}));
    Last(START, CANCELLING, g, CancelWrite(0, FindWrite), true);
    assert g + [CancelWrite(0, CancelSend)] == [Control(Bound), Done, Done, CancelWrite(0, CancelSend)];
  }

  const UNLINKED := CANCELLING.(tx := CANCELLING.tx.(pended := [], stored := {}, inNdis := {}))

  lemma SendUnlinks()
    ensures Leads(START, Sys(UNLINKED, [Control(Bound), Done, Done, CancelWrite(0, CancelSend)]
                                       + [Sent([0], FreeSendNbl)]))
  {
    hide Leads;
    CancelFindsWrite();
    var h := [Control(Bound), Done, Done, CancelWrite(0, CancelSend)];
    forall w ensures Count([0], w) <= 1 {
      CountTail([0]);
      assert [0][1..] == [];
    }
    assert Elements([0]) == {0};
    Call(START, CANCELLING, h, CompleteSends([0]));
    var c1 := CANCELLING.(tx := CANCELLING.tx.(inNdis := {}));
    assert CANCELLING.tx.inNdis - Elements([0]) == {};
    Last(START, c1, h, Sent([0], ClearCancel), true);
    var c2 := c1.(tx := c1.tx.(stored := {}));
    assert c1.tx.routine - {0} == {} && c1.tx.stored - {0} == {};
    Last(START, c2, h, Sent([0], UnlinkWrite), true);
    assert Remove([0], 0) == [];
  }

  const COMPLETED := UNLINKED.(refCount := 3, tx := UNLINKED.tx.(count := 0, nblFreed := [0], bySendComplete := [0]))

  lemma SendCompletes()
    ensures Leads(START, Sys(COMPLETED, [Control(Bound)] + [Done, Done, CancelWrite(0, CancelSend), Done]))
  {
    hide Leads;
    SendUnlinks();
    var h := [Control(Bound), Done, Done, CancelWrite(0, CancelSend)];
    Last(START, UNLINKED, h, Sent([0], FreeSendNbl), true);
    var c4 := UNLINKED.(tx := UNLINKED.tx.(nblFreed := [0]));
    assert [] + [0] == [0];
    Last(START, c4, h, Sent([0], SentComplete), true);
    var c5 := c4.(tx := c4.tx.(bySendComplete := [0]));
    Last(START, c5, h, Sent([0], SentDecrement), true);
    var c6 := c5.(tx := c5.tx.(count := 0));
    Last(START, c6, h, Sent([0], SentDrop), true);
    assert COMPLETED == c6.(refCount := 3);
    assert h + [Done] == [Control(Bound)] + [Done, Done, CancelWrite(0, CancelSend), Done];
  }

  /** CancelWrite may call NDIS with a binding handle that is already closed, and a cancel identifier that it
      reads from an IRP that is already completed. */
  lemma CancelWriteMayOutliveHandle()
    ensures exists s, t: nat :: Reachable(s) && t < |s.ts| && s.ts[t] == CancelWrite(0, CancelSend) && !s.c.b.handle
                                && 0 in s.c.tx.bySendComplete
  {
    hide Leads;
    SendCompletes();
    var r := [Done, Done, CancelWrite(0, CancelSend), Done];
    UnbindToClose(START, COMPLETED, r);
    NoTotal(Weight(Indicating), [Control(Drain(ShutClose))] + r);
    CloseToIdle(START, Closed(COMPLETED), r);
    var s := Sys(Closed(COMPLETED).(b := Closed(COMPLETED).b.(adapter := false, handle := false)),
                 [Control(Release(ShutIdle, false))] + r);
    assert Reachable(s) && s.ts[3] == CancelWrite(0, CancelSend) && 0 in s.c.tx.bySendComplete;
  }
}
