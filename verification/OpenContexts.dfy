/** NDISPROT_OPEN_CONTEXT as the driver keeps it: one object whose fields are
    updated in place.

    View reads the abstract context of Protocol off the fields. Every method is
    one section under the spin lock or one interlocked operation, and does to the
    view what the action of that name does; Runs lets any number of threads
    perform these actions in any order, and Theorems says what holds then. ServiceReads
    and FlushReceiveQueue are whole routines, run without interference. */
module OpenContexts {
  import opened Wrappers
  import opened Lists
  import opened Protocol
  import opened Flags
  import opened Alone

  /** The parts of the abstract context that no field of the structure holds. */
  datatype Environment = Environment(
    frees: nat, leaked: nat, lock: Option<Holder>, raced: bool, bound: bool, adapter: bool,
    readOwner: seq<File>, served: seq<Irp>, byCancel: seq<Irp>, byPurge: seq<Irp>, failedReads: seq<Irp>,
    nextNbl: Nbl, entered: seq<Nbl>, left: seq<Nbl>, returned: seq<Nbl>,
    writeOwner: seq<File>, inNdis: set<Irp>, went: set<Irp>, nblFreed: seq<Irp>, bySendComplete: seq<Irp>,
    failedWrites: seq<Irp>,
    begun: set<File>, cleaned: set<File>)

  class OpenContext {
    // The fields of the structure; handles and buffers are present or NULL.
    var flags: bv32
    var refCount: int
    var pFileObject: Option<File>
    var bindingHandle: bool
    var sendNetBufferListPool: bool
    var recvNetBufferListPool: bool
    var deviceName: bool
    var pendedWrites: seq<Irp>
    var pendedSendCount: int
    var pendedReads: seq<Irp>
    var pendedReadCount: int
    var recvNetBufListQueue: seq<Nbl>
    var recvNetBufListCount: int
    var poweredUp: bool
    var state: OpenState
    var closingEvent: bool
    var eventSignalled: bool
    // Membership in Globals.OpenList.
    var listed: bool
    // Words of the IRPs: Cancel, CancelRoutine, DriverContext[0].
    var readCancel: set<Irp>
    var readRoutine: set<Irp>
    var readContext: set<Irp>
    var writeRoutine: set<Irp>
    var writeContext: set<Irp>
    // FsContext of the file objects: this context, or another one.
    var here: set<File>
    var elsewhere: set<File>
    // What NDIS and the I/O manager know, and the histories.
    ghost var env: Environment

    // ---- The abstract context ------------------------------------------------

    ghost function ViewBinding(): Binding
      reads this
    {
      Binding(BindOf(flags), UnbindIs(flags, true), state, env.raced, poweredUp, listed, env.bound, env.adapter,
              bindingHandle, deviceName, sendNetBufferListPool, recvNetBufferListPool)
    }

    ghost function ViewReads(): Reads
      reads this
    {
      Reads(pendedReads, pendedReadCount, readCancel, readRoutine, readContext, env.readOwner,
            env.served, env.byCancel, env.byPurge, env.failedReads)
    }

    ghost function ViewPackets(): Packets
      reads this
    {
      Packets(recvNetBufListQueue, recvNetBufListCount, env.nextNbl, env.entered, env.left, env.returned)
    }

    ghost function ViewSends(): Sends
      reads this
    {
      Sends(pendedWrites, pendedSendCount, closingEvent, eventSignalled, writeRoutine, writeContext, env.writeOwner,
            env.inNdis, env.went, env.nblFreed, env.bySendComplete, env.failedWrites)
    }

    ghost function ViewFiles(): Files
      reads this
    {
      Files(!OpenIs(flags, false), pFileObject, here, elsewhere, env.begun, env.cleaned)
    }

    ghost function View(): Ctx
      reads this
    {
      Ctx(refCount, env.frees, env.leaked, env.lock, ViewBinding(), ViewReads(), ViewPackets(), ViewSends(),
          ViewFiles())
    }

    /** NdisprotBindAdapter zeroes the structure before it uses it. */
    constructor ()
      ensures View() == InitialContext()
    {
      flags, refCount, pFileObject, bindingHandle := 0, 0, None, false;
      sendNetBufferListPool, recvNetBufferListPool, deviceName, listed := false, false, false, false;
      pendedWrites, pendedSendCount, pendedReads, pendedReadCount := [], 0, [], 0;
      recvNetBufListQueue, recvNetBufListCount := [], 0;
      poweredUp, state, closingEvent, eventSignalled := false, Initializing, false, false;
      readCancel, readRoutine, readContext, writeRoutine, writeContext := {}, {}, {}, {}, {};
      here, elsewhere := {}, {};
      env := Environment(
        0, 0, None, false, false, false, [], [], [], [], [], 0, [], [], [], [], {}, {}, [], [], [], {}, {});
    }

    // ---- Single fields ----------------------------------------------------------
    // Each is one statement of the driver, with its effect on the view. The sections below are made of them
    // and keep View hidden: a proof then follows the few records that change and not all fields of the class.

    /** ndisprotRefOpen. */
    method RefOpen()
      modifies `refCount
      ensures refCount == old(refCount) + 1 && View() == Ref(old(View()))
    {
      refCount := refCount + 1;
    }

    /** ndisprotDerefOpen; at zero the context is freed. */
    method DerefOpen()
      modifies `refCount, `env
      ensures refCount == old(refCount) - 1 && View() == Deref(old(View()))
    {
      refCount := refCount - 1;
      if refCount == 0 {
        env := env.(frees := env.frees + 1);
      }
    }

    method SetBindFlags(b: BindState)
      modifies `flags
      ensures View() == SetBind(old(View()), b)
    {
      SetBindBits(flags, b);
      flags := SetFlags(flags, NPROTO_BIND_FLAGS, BindBits(b));
    }

    method SetUnbindFlags(received: bool)
      modifies `flags
      ensures View() == old(View()).(b := old(View()).b.(unbindReceived := received))
    {
      SetUnbindBits(flags, received);
      flags := SetFlags(flags, NPROTO_UNBIND_FLAGS, UnbindBits(received));
    }

    /** The open group of the flags and pFileObject change together. */
    method SetOpenFlags(file: Option<File>)
      modifies `flags, `pFileObject
      ensures View() == old(View()).(fs := old(View()).fs.(openActive := file != None, pFileObject := file))
    {
      SetOpenBits(flags, file != None);
      flags := SetFlags(flags, NPROTO_OPEN_FLAGS, OpenBits(file != None));
      pFileObject := file;
    }

    /** NPROT_TEST_FLAGS of the bind group for one of its nonzero values. */
    method TestBindFlags(b: BindState) returns (r: bool)
      requires b != BindIdle
      ensures r <==> View().b.bind == b
    {
      BindTest(flags, b);
      r := TestFlags(flags, NPROTO_BIND_FLAGS, BindBits(b));
    }

    method SetLock(holder: Option<Holder>)
      modifies `env
      ensures View() == old(View()).(lock := holder)
    {
      env := env.(lock := holder);
    }

    method CountRead(delta: int)
      modifies `pendedReadCount
      ensures pendedReadCount == old(pendedReadCount) + delta
      ensures View() == old(View()).(rd := old(View()).rd.(count := old(View()).rd.count + delta))
    {
      pendedReadCount := pendedReadCount + delta;
    }

    method InsertTailRead(x: Irp)
      modifies `pendedReads
      ensures View() == old(View()).(rd := old(View()).rd.(pended := old(View()).rd.pended + [x]))
    {
      pendedReads := pendedReads + [x];
    }

    /** DriverContext[0] of a read. */
    method NameReadContext(x: Irp)
      modifies `readContext
      ensures View() == old(View()).(rd := old(View()).rd.(stored := old(View()).rd.stored + {x}))
    {
      readContext := readContext + {x};
    }

    /** IoSetCancelRoutine(pIrp, NdisprotCancelRead). */
    method SetReadRoutine(x: Irp)
      modifies `readRoutine
      ensures View() == old(View()).(rd := old(View()).rd.(routine := old(View()).rd.routine + {x}))
    {
      readRoutine := readRoutine + {x};
    }

    /** Unlinks the read at position i, which is the first entry of that read. */
    method UnlinkReadAt(i: nat)
      requires i < |View().rd.pended|
      requires forall j :: 0 <= j < i ==> View().rd.pended[j] != View().rd.pended[i]
      modifies `pendedReads
      ensures var rd := old(View()).rd;
              View() == old(View()).(rd := rd.(pended := Remove(rd.pended, rd.pended[i])))
    {
      RemoveAt(pendedReads, i);
      pendedReads := pendedReads[..i] + pendedReads[i + 1..];
    }

    /** IoSetCancelRoutine(pIrp, NULL) on a read: takes the routine and says whether there was one. */
    method TakeReadRoutine(x: Irp) returns (taken: bool)
      modifies `readRoutine
      ensures taken <==> x in old(readRoutine)
      ensures readRoutine == old(readRoutine) - {x}
      ensures !taken ==> readRoutine == old(readRoutine) && View() == old(View())
      ensures View() == old(View()).(rd := old(View()).rd.(routine := old(View()).rd.routine - {x}))
    {
      taken := x in readRoutine;
      readRoutine := readRoutine - {x};
      assert !taken ==> readRoutine == old(readRoutine);
    }

    method CompleteServed(x: Irp)
      modifies `env
      ensures env == old(env).(served := old(env).served + [x])
      ensures View() == old(View()).(rd := old(View()).rd.(served := old(View()).rd.served + [x]))
    {
      env := env.(served := env.served + [x]);
    }

    method CompletePurged(x: Irp)
      modifies `env
      ensures View() == old(View()).(rd := old(View()).rd.(byPurge := old(View()).rd.byPurge + [x]))
    {
      env := env.(byPurge := env.byPurge + [x]);
    }

    method CountLeak()
      modifies `env
      ensures View() == old(View()).(leaked := old(View()).leaked + 1)
    {
      env := env.(leaked := env.leaked + 1);
    }

    method LinkPacket(n: Nbl)
      modifies `recvNetBufListQueue, `env
      ensures View() == old(View()).(rx := old(View()).rx.(queue := old(View()).rx.queue + [n],
                                                          entered := old(View()).rx.entered + [n]))
    {
      recvNetBufListQueue := recvNetBufListQueue + [n];
      env := env.(entered := env.entered + [n]);
    }

    method UnlinkPacket() returns (n: Nbl)
      requires View().rx.queue != []
      modifies `recvNetBufListQueue, `env
      ensures var rx := old(View()).rx;
              n == rx.queue[0] && View() == old(View()).(rx := rx.(queue := rx.queue[1..], left := rx.left + [n]))
    {
      n := recvNetBufListQueue[0];
      recvNetBufListQueue := recvNetBufListQueue[1..];
      env := env.(left := env.left + [n]);
    }

    method CountPacket(delta: int)
      modifies `recvNetBufListCount
      ensures recvNetBufListCount == old(recvNetBufListCount) + delta
      ensures View() == old(View()).(rx := old(View()).rx.(count := old(View()).rx.count + delta))
    {
      recvNetBufListCount := recvNetBufListCount + delta;
    }

    method InsertTailPacket(n: Nbl)
      modifies `recvNetBufListQueue, `recvNetBufListCount, `env
      ensures recvNetBufListCount == old(recvNetBufListCount) + 1
      ensures View() == old(View()).(rx := Enqueue(old(View()).rx, n))
    {
      hide View;
      LinkPacket(n);
      CountPacket(1);
    }

    method RemoveHeadPacket() returns (n: Nbl)
      requires View().rx.queue != []
      modifies `recvNetBufListQueue, `recvNetBufListCount, `env
      ensures n == old(View()).rx.queue[0]
      ensures View() == old(View()).(rx := Dequeue(old(View()).rx))
    {
      hide View;
      n := UnlinkPacket();
      CountPacket(-1);
    }

    /** ndisprotFreeReceiveNetBufferList: the packet goes back. */
    method FreeReceive(n: Nbl)
      modifies `env
      ensures env == old(env).(returned := old(env).returned + [n])
      ensures View() == GiveBack(old(View()), n)
    {
      env := env.(returned := env.returned + [n]);
    }

    /** Links the write, which from now on is completed by NdisprotSendComplete. */
    method InsertTailWrite(w: Irp)
      modifies `pendedWrites, `env
      ensures View() == old(View()).(tx := old(View()).tx.(pended := old(View()).tx.pended + [w],
                                                          went := old(View()).tx.went + {w}))
    {
      pendedWrites := pendedWrites + [w];
      env := env.(went := env.went + {w});
    }

    /** DriverContext[0] of a write. */
    method NameWriteContext(w: Irp, present: bool)
      modifies `writeContext
      ensures View() == old(View()).(tx := old(View()).tx.(stored := if present then old(View()).tx.stored + {w}
                                                                     else old(View()).tx.stored - {w}))
    {
      writeContext := if present then writeContext + {w} else writeContext - {w};
    }

    method SetWriteRoutine(w: Irp)
      modifies `writeRoutine
      ensures View() == old(View()).(tx := old(View()).tx.(routine := old(View()).tx.routine + {w}))
    {
      writeRoutine := writeRoutine + {w};
    }

    method TakeWriteRoutine(w: Irp)
      modifies `writeRoutine
      ensures View() == old(View()).(tx := old(View()).tx.(routine := old(View()).tx.routine - {w}))
    {
      writeRoutine := writeRoutine - {w};
    }

    method CountSend(delta: int)
      modifies `pendedSendCount
      ensures pendedSendCount == old(pendedSendCount) + delta
      ensures View() == old(View()).(tx := old(View()).tx.(count := old(View()).tx.count + delta))
    {
      pendedSendCount := pendedSendCount + delta;
    }

    method SetClosingEvent(present: bool, signalled: bool)
      modifies `closingEvent, `eventSignalled
      ensures View() == old(View()).(tx := old(View()).tx.(closingEvent := present, signalled := signalled))
    {
      closingEvent, eventSignalled := present, signalled;
    }

    /** FsContext of the file object is set to this context, or back to NULL. */
    method SetFsContext(f: File, tied: bool)
      modifies `here
      ensures View() == old(View()).(fs := old(View()).fs.(here := if tied then old(View()).fs.here + {f}
                                                                  else old(View()).fs.here - {f}))
    {
      here := if tied then here + {f} else here - {f};
    }

    method FreeSendPool()
      modifies `sendNetBufferListPool
      ensures View() == old(View()).(b := old(View()).b.(sendPool := false))
    {
      sendNetBufferListPool := false;
    }

    method FreeRecvPool()
      modifies `recvNetBufferListPool
      ensures View() == old(View()).(b := old(View()).b.(recvPool := false))
    {
      recvNetBufferListPool := false;
    }

    method FreeDeviceName()
      modifies `deviceName
      ensures View() == old(View()).(b := old(View()).b.(name := false))
    {
      deviceName := false;
    }

    // ---- NdisprotRead and NdisprotCancelRead ---------------------------------------

    /** Acquires the lock and, if the binding is active, installs the cancel routine. */
    method ReadEnter(x: Irp, f: File) returns (next: Pc)
      modifies `readRoutine, `env
      ensures (View(), next) == ActRead(old(View()), x, f, Enter)
    {
      hide View;
      var active := TestBindFlags(BindActive);
      if !active {
        return Read(x, f, Fail);
      }
      SetLock(Some(ByRead(x)));
      SetReadRoutine(x);
      next := Read(x, f, Test);
    }

    /** Tests Cancel and then exchanges the routine; a read that was cancelled in time leaves the lock. */
    method ReadTest(x: Irp, f: File) returns (next: Pc)
      modifies `readRoutine, `env
      ensures (View(), next) == ActRead(old(View()), x, f, Test)
    {
      assert View().rd.cancelled == readCancel && View().rd.routine == readRoutine;
      hide View;
      var mine := false;
      if x in readCancel {
        mine := TakeReadRoutine(x);
      }
      if !mine {
        return Read(x, f, List);
      }
      SetLock(None);
      next := Service(FromCancelledRead(x, f), ServeRef);
    }

    /** Lists the read, counts and references it, and releases the lock. */
    method ReadList(x: Irp, f: File) returns (next: Pc)
      modifies `pendedReads, `readContext, `refCount, `pendedReadCount, `env
      ensures (View(), next) == ActRead(old(View()), x, f, List)
    {
      hide View;
      InsertTailRead(x);
      NameReadContext(x);
      RefOpen();
      CountRead(1);
      SetLock(None);
      next := Service(FromRead(x, f), ServeRef);
    }

    method CancelReadUnlink(x: Irp) returns (next: Pc)
      modifies `pendedReads, `pendedReadCount
      ensures (View(), next) == ActCancelRead(old(View()), x, Unlink)
    {
      pendedReads := Remove(pendedReads, x);
      CountRead(-1);
      next := CancelRead(x, CancelComplete);
    }

    // ---- ndisprotServiceReads -------------------------------------------------------

    /** Walks the list of reads from its head and takes the routine of each in turn until one was
        there; unlinks that read. */
    method ClaimFirst() returns (claimed: Option<Irp>)
      modifies `pendedReads, `readRoutine
      ensures claimed == None <==> !HasClaimable(old(View()).rd)
      ensures claimed == None ==> View() == old(View())
      ensures claimed != None ==>
                && claimed.value == old(View()).rd.pended[FirstIn(old(View()).rd.pended, old(View()).rd.routine)]
                && View() == old(View()).(rd := Claim(old(View()).rd))
    {
      ghost var rd := View().rd;
      assert rd.pended == pendedReads && rd.routine == readRoutine;
      hide View;
      var i := 0;
      while i < |pendedReads|
        invariant i <= |pendedReads|
        invariant forall j :: 0 <= j < i ==> pendedReads[j] !in readRoutine
        invariant pendedReads == rd.pended && readRoutine == rd.routine && View() == old(View())
      {
        var x := pendedReads[i];
        var taken := TakeReadRoutine(x);
        if taken {
          assert i == FirstIn(rd.pended, rd.routine);
          UnlinkReadAt(i);
          return Some(x);
        }
        i := i + 1;
      }
      claimed := None;
    }

    /** One pass of the service loop up to the release of the lock. */
    method ServeSection(k: ServiceCaller) returns (next: Pc)
      modifies `pendedReads, `readRoutine, `recvNetBufListQueue, `recvNetBufListCount, `env
      ensures (View(), next) == ServiceTest(old(View()), k)
      ensures next == Service(k, ServeExit) <==> NothingToServe(old(View()))
    {
      assert View().rd.pended == pendedReads && View().rx.queue == recvNetBufListQueue;
      hide View, NothingToServe;
      ServiceLeaves(View(), k);
      next := Service(k, ServeExit);
      if pendedReads != [] && recvNetBufListQueue != [] {
        var claimed := ClaimFirst();
        if claimed != None {
          var n := RemoveHeadPacket();
          next := Service(k, ServeDropNbl(claimed.value, n));
        }
      }
    }

    /** The end of a pass: the read is counted down under the lock that the next pass uses. */
    method ServeCountDown(k: ServiceCaller) returns (next: Pc)
      modifies `pendedReadCount, `pendedReads, `readRoutine, `recvNetBufListQueue, `recvNetBufListCount, `env
      ensures (View(), next) == ActService(old(View()), k, ServeDecrement)
      ensures next == Service(k, ServeExit) <==> NothingToServe(old(View()))
    {
      hide View;
      CountRead(-1);
      next := ServeSection(k);
    }

    // ---- ndisprotCancelPendingReads, ndisprotFlushReceiveQueue ---------------------------

    method PurgeSection(k: PurgeCaller) returns (next: Pc)
      modifies `pendedReads, `readRoutine
      ensures (View(), next) == PurgeTest(old(View()), k)
    {
      if pendedReads == [] {
        return Purge(k, PurgeExit);
      }
      var x := pendedReads[0];
      var taken := TakeReadRoutine(x);
      if taken {
        pendedReads := pendedReads[1..];
        return Purge(k, PurgeComplete(x));
      }
      next := Purge(k, PurgeTop);
    }

    method FlushSection(k: FlushCaller) returns (next: Pc)
      modifies `recvNetBufListQueue, `recvNetBufListCount, `env
      ensures (View(), next) == ActFlush(old(View()), k, FlushTop)
    {
      assert View().rx.queue == recvNetBufListQueue;
      hide View;
      if recvNetBufListQueue == [] {
        return Flush(k, FlushExit);
      }
      var n := RemoveHeadPacket();
      next := Flush(k, FlushFree(n));
    }

    // ---- ndisprotQueueReceiveNetBufferList ---------------------------------------------

    /** Acquires the lock and compares State with Paused. */
    method EnqueueFirst(n: Nbl) returns (next: Pc)
      modifies `env
      ensures (View(), next) == ActReceive(old(View()), n, QueueLock)
    {
      assert View().b.state == state;
      hide View;
      if state == Paused {
        CountLeak();
        return Receive(n, GiveUp);
      }
      SetLock(Some(ByReceive(n)));
      next := Receive(n, QueueAgain);
    }

    /** The rest of the section: State is loaded again, and the packet is queued, or not, and the lock released. */
    method EnqueueSection(n: Nbl) returns (next: Pc)
      modifies `recvNetBufListQueue, `recvNetBufListCount, `env
      ensures (View(), next) == ActReceive(old(View()), n, QueueAgain)
    {
      SetLock(None);
      assert View().b.state == state && View().b.d0 == poweredUp && View().rx.count == recvNetBufListCount;
      hide View;
      if state == Pausing {
        CountLeak();
        return Receive(n, GiveUp);
      }
      var active := TestBindFlags(BindActive);
      if !active || !poweredUp {
        return Receive(n, DropFree);
      }
      InsertTailPacket(n);
      if recvNetBufListCount > MAX_RECV_QUEUE_SIZE {
        var discarded := RemoveHeadPacket();
        return Receive(discarded, TrimFree);
      }
      next := Service(FromReceive, ServeRef);
    }

    // ---- NdisprotWrite, NdisprotSendComplete, NdisprotCancelWrite ------------------------

    /** The section of NdisprotWrite under the lock; noNbl is the failure of the allocation. */
    method WriteEnter(w: Irp, f: File, noNbl: bool) returns (next: Pc)
      modifies `pendedSendCount, `refCount, `pendedWrites, `writeRoutine, `writeContext, `env
      ensures (View(), next) == WriteSection(old(View()), w, f, noNbl)
    {
      assert View().b.state == state && View().b.d0 == poweredUp;
      hide View;
      var active := TestBindFlags(BindActive);
      if !active {
        return Write(w, f, WriteFail);
      }
      if state != Running || !poweredUp || noNbl {
        return Write(w, f, WriteFail);
      }
      CountSend(1);
      RefOpen();
      NameWriteContext(w, true);
      InsertTailWrite(w);
      SetWriteRoutine(w);
      next := Write(w, f, WriteSend);
    }

    /** Under the cancel lock: the IRP of the completed send forgets its cancel routine and its context. */
    method ClearSent(ch: seq<Irp>) returns (next: Pc)
      requires ch != []
      modifies `writeRoutine, `writeContext
      ensures (View(), next) == ActSent(old(View()), ch, ClearCancel)
    {
      hide View;
      TakeWriteRoutine(ch[0]);
      NameWriteContext(ch[0], false);
      next := Sent(ch, UnlinkWrite);
    }

    method UnlinkSent(ch: seq<Irp>) returns (next: Pc)
      requires ch != []
      modifies `pendedWrites
      ensures (View(), next) == ActSent(old(View()), ch, UnlinkWrite)
    {
      pendedWrites := Remove(pendedWrites, ch[0]);
      next := Sent(ch, FreeSendNbl);
    }

    /** PendedSendCount--; the last one out of a closing binding signals the event and forgets it. */
    method UncountSend()
      modifies `pendedSendCount, `closingEvent, `eventSignalled
      ensures View() == Uncount(old(View()))
    {
      assert View().tx.count == pendedSendCount;
      hide View;
      CountSend(-1);
      var closing := TestBindFlags(BindClosing);
      if closing && pendedSendCount == 0 {
        SetClosingEvent(false, true);
      }
    }

    /** Under the cancel lock: the exchange by the I/O manager, then the test of DriverContext[0] and the reference. */
    method CancelWriteEnter(w: Irp) returns (next: Pc)
      modifies `writeRoutine, `refCount
      ensures (View(), next) == ActCancelWrite(old(View()), w, CancelWritePc.TakeWriteRoutine)
    {
      assert View().tx.routine == writeRoutine && View().tx.stored == writeContext;
      hide View;
      if w !in writeRoutine {
        return Done;
      }
      TakeWriteRoutine(w);
      if w !in writeContext {
        return Done;
      }
      RefOpen();
      next := CancelWrite(w, FindWrite);
    }

    /** Walks the list of writes to see whether the write is still there. */
    method CancelWriteFind(w: Irp) returns (next: Pc)
      ensures (View(), next) == ActCancelWrite(View(), w, FindWrite)
      ensures next == CancelWrite(w, CancelSend) <==> w in View().tx.pended
    {
      var i := 0;
      while i < |pendedWrites| && pendedWrites[i] != w
        invariant i <= |pendedWrites|
        invariant forall j :: 0 <= j < i ==> pendedWrites[j] != w
      {
        i := i + 1;
      }
      next := CancelWrite(w, if i < |pendedWrites| then CancelSend else CancelWriteDrop);
    }

    // ---- ndisprotValidateOpenAndDoRequest and the other counted OID requests ---------------

    method RequestEnterSection(k: RequestCaller, o: bool) returns (next: Pc)
      modifies `pendedSendCount
      ensures (View(), next) == ActRequest(old(View()), k, RequestEnter, o)
    {
      hide View;
      var active := TestBindFlags(BindActive);
      if !active {
        return AfterRequest(k, false);
      }
      CountSend(1);
      next := Request(k, RequestRun);
    }

    // ---- ndisprotOpenDevice, NdisprotCleanup -------------------------------------------------

    /** The test of the open group, the compare-exchange of FsContext with NULL, and the association. */
    method AssociateFile(f: File, o: bool) returns (next: Pc)
      modifies `flags, `pFileObject, `here
      ensures (View(), next) == ActOpen(old(View()), f, Associate, o)
    {
      ghost var fs := View().fs;
      assert fs.here == here && fs.elsewhere == elsewhere
          && fs.openActive == !TestFlags(flags, NPROTO_OPEN_FLAGS, NPROTO_OPEN_IDLE);
      hide View;
      if !TestFlags(flags, NPROTO_OPEN_FLAGS, NPROTO_OPEN_IDLE) {
        return OpenDevice(f, OpenDrop);
      }
      if f in here || f in elsewhere {
        return OpenDevice(f, OpenDrop);
      }
      SetFsContext(f, true);
      SetOpenFlags(Some(f));
      next := Request(ForOpen(f), RequestEnter);
    }

    method UndoOpen(f: File, o: bool) returns (next: Pc)
      modifies `flags, `pFileObject, `here
      ensures (View(), next) == ActOpen(old(View()), f, Undo, o)
    {
      hide View;
      SetFsContext(f, false);
      SetOpenFlags(None);
      next := OpenDevice(f, OpenDrop);
    }

    method CleanupSection(f: File) returns (next: Pc)
      modifies `flags, `pFileObject, `env
      ensures (View(), next) == ActCleanupMark(old(View()), f)
    {
      SetOpenFlags(None);
      env := env.(cleaned := env.cleaned + {f});
      next := Purge(FromCleanup(f), PurgeRef);
    }

    // ---- ndisprotCreateBinding, ndisprotShutdownBinding, the events -----------------------------

    /** The failure path of ndisprotCreateBinding before the adapter is open. */
    method BindFailSection() returns (next: Pc)
      modifies `flags
      ensures (View(), next) == ActBind(old(View()), BindFail)
    {
      hide View;
      var opening := TestBindFlags(BindOpening);
      if opening {
        SetBindFlags(BindFailed);
      }
      next := Control(Unbind(ShutLock(true)));
    }

    /** The first section of ndisprotShutdownBinding: CLOSING, and an event if something is counted. */
    method ShutdownSection(failed: bool) returns (next: Pc)
      modifies `flags, `closingEvent, `eventSignalled
      ensures (View(), next) == BeginShutdown(old(View()), failed)
    {
      assert View().tx.count == pendedSendCount && View().tx.signalled == eventSignalled;
      hide View;
      var active := TestBindFlags(BindActive);
      if !active {
        return Control(Release(ShutUnlist, failed));
      }
      SetClosingEvent(false, eventSignalled);
      SetBindFlags(BindClosing);
      if pendedSendCount != 0 {
        SetClosingEvent(true, false);
      }
      next := Control(Drain(ShutRequests));
    }

    method IdleSection(failed: bool) returns (next: Pc)
      modifies `flags
      ensures (View(), next) == ActRelease(old(View()), ShutIdle, failed)
    {
      hide View;
      SetBindFlags(BindIdle);
      SetUnbindFlags(false);
      next := Control(Release(ShutUnlist, failed));
    }

    /** ndisprotFreeBindResources: frees what is there. */
    method FreeBindResources(failed: bool) returns (next: Pc)
      modifies `sendNetBufferListPool, `recvNetBufferListPool, `deviceName
      ensures (View(), next) == ActRelease(old(View()), ShutFree, failed)
    {
      assert View().b.sendPool == sendNetBufferListPool && View().b.recvPool == recvNetBufferListPool
          && View().b.name == deviceName;
      hide View;
      if sendNetBufferListPool {
        FreeSendPool();
      }
      if recvNetBufferListPool {
        FreeRecvPool();
      }
      if deviceName {
        FreeDeviceName();
      }
      next := Control(Release(ShutRelease, failed));
    }

    /** NetEventPause up to the first release of the lock. */
    method PauseSection() returns (next: Pc)
      modifies `state
      ensures (View(), next) == ActEvent(old(View()), PauseLock)
    {
      state := Pausing;
      next := if pendedSendCount == 0 then Flush(AtPause, FlushRef) else Control(Event(PauseWait));
    }

    /** NetEventPause stores Paused without the lock, perhaps between the two loads of a section. */
    method PauseStore() returns (next: Pc)
      modifies `state, `env
      ensures (View(), next) == ActEvent(old(View()), PauseDone)
    {
      env := env.(raced := Between(View()));
      state := Paused;
      next := Control(Bound);
    }

    // ---- Whole routines ---------------------------------------------------------

    /** Run alone, it completes reads with packets one to one and in order: the reads that are not
        being cancelled, in list order, with the queued packets, oldest first, until either runs
        out. Each read and each packet gives back its reference. */
    method ServiceReads(k: ServiceCaller) returns (pairs: seq<(Irp, Nbl)>)
      requires forall x :: Count(View().rd.pended, x) <= 1
      modifies this
      ensures Serves(old(View()), View(), pairs)
    {
      hide View, Serves, Serving, ServiceTest, ActService, Handed;
      ghost var c := View();
      pairs := [];
      RefOpen();
      ServeBegin(c, k);
      var next := ServeSection(k);
      while next != Service(k, ServeExit)
        invariant Serving(c, View(), pairs, k, next)
        decreases |c.rx.queue| - |pairs|
      {
        ServeRound(c, View(), pairs, k, next);
        var x, n := next.v.irp, next.v.nbl;
        HandOver(x, n);
        pairs := pairs + [(x, n)];
        next := ServeCountDown(k);
      }
      ServeEnd(c, View(), pairs, k);
      DerefOpen();
    }

    /** ndisprotCancelPendingReads, run alone while no read is being cancelled, completes every listed read, in list
        order, with its count and its reference, and touches nothing else. */
    method CancelPendingReads(k: PurgeCaller)
      requires NoneClaimed(View().rd)
      modifies this
      ensures var (c, c') := (old(View()), View());
              && c'.rd.pended == [] && c'.rd.byPurge == c.rd.byPurge + c.rd.pended
              && c'.rd.count == c.rd.count - |c.rd.pended| && c'.refCount == c.refCount - |c.rd.pended|
              && c'.rd.served == c.rd.served && c'.rd.byCancel == c.rd.byCancel && c'.rd.byDispatch == c.rd.byDispatch
              && c'.rx == c.rx && c'.tx == c.tx && c'.fs == c.fs && c'.b == c.b
    {
      hide View, PurgeTest;
      ghost var c := View();
      RefOpen();
      PurgeTakes(View(), k);
      var next := PurgeSection(k);
      while next != Purge(k, PurgeExit)
        invariant Purging(c, View(), k, next)
        decreases |View().rd.pended|, Ind(next != Purge(k, PurgeExit))
      {
        CompletePurged(next.p.irp);
        DerefOpen();
        CountRead(-1);
        PurgeTakes(View(), k);
        next := PurgeSection(k);
      }
      DerefOpen();
    }

    /** ndisprotFlushReceiveQueue, run alone, gives back every queued packet, oldest first, and its reference. */
    method FlushReceiveQueue(k: FlushCaller)
      modifies this
      ensures View().rx.queue == [] && View().rx.returned == old(View()).rx.returned + old(View()).rx.queue
      ensures View().refCount == old(View()).refCount - |old(View()).rx.queue|
    {
      hide View;
      ghost var c := View();
      RefOpen();
      var next := FlushSection(k);
      while next != Flush(k, FlushExit)
        invariant Flushing(c, View(), k, next)
        decreases |View().rx.queue|, Ind(next != Flush(k, FlushExit))
      {
        FreeReceive(next.fl.nbl);
        DerefOpen();
        next := FlushSection(k);
      }
      DerefOpen();
    }

    /** Completes the read, which has been filled from the packet (see ScatterCopy), and frees the
        packet, with the references of both. */
    method HandOver(x: Irp, n: Nbl)
      modifies `refCount, `env
      ensures View() == Handed(old(View()), x, n)
    {
      hide View;
      DerefOpen();
      CompleteServed(x);
      FreeReceive(n);
      DerefOpen();
    }
  }

  /** What has been completed, the read in hand, and the list make up the list of the beginning. */
  ghost predicate Purging(c: Ctx, c': Ctx, k: PurgeCaller, next: Pc) {
    && c'.rd.served == c.rd.served && c'.rd.byCancel == c.rd.byCancel && c'.rd.byDispatch == c.rd.byDispatch
    && c'.rx == c.rx && c'.tx == c.tx && c'.fs == c.fs && c'.b == c.b
    && if next == Purge(k, PurgeExit) then
         && c'.rd.pended == [] && c'.rd.byPurge == c.rd.byPurge + c.rd.pended
         && c'.rd.count == c.rd.count - |c.rd.pended| && c'.refCount == c.refCount + 1 - |c.rd.pended|
       else
         && next.Purge? && next.pk == k && next.p.PurgeComplete? && NoneClaimed(c'.rd)
         && c'.rd.byPurge + [next.p.irp] + c'.rd.pended == c.rd.byPurge + c.rd.pended
         && c'.rd.count == c.rd.count - |c.rd.pended| + |c'.rd.pended| + 1
         && c'.refCount == c.refCount + 1 - |c.rd.pended| + |c'.rd.pended| + 1
  }

  /** What has been given back, the packet in hand, and the queue make up the queue of the beginning. */
  ghost predicate Flushing(c: Ctx, c': Ctx, k: FlushCaller, next: Pc) {
    if next == Flush(k, FlushExit) then
      c'.rx.queue == [] && c'.rx.returned == c.rx.returned + c.rx.queue && c'.refCount == c.refCount + 1 - |c.rx.queue|
    else
      && next.Flush? && next.fk == k && next.fl.FlushFree?
      && c'.rx.returned + [next.fl.nbl] + c'.rx.queue == c.rx.returned + c.rx.queue
      && c'.refCount == c.refCount + 1 - |c.rx.queue| + |c'.rx.queue| + 1
  }
}
