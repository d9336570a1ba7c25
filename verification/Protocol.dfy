/** The open-context protocol as a machine of atomic actions.

    One NDISPROT_OPEN_CONTEXT is shared by many threads. A thread of the driver
    is a program counter that carries its local variables; an action is one
    section under the context's spin lock, one interlocked operation, or one
    call into NDIS or the I/O manager. Any interleaving of the driver is a
    sequence of these actions (see Runs). */
module Protocol {
  import opened Wrappers
  import opened Lists

  const MAX_RECV_QUEUE_SIZE := 4096

  type Irp = nat
  type Nbl = nat
  type File = nat

  datatype BindState = BindIdle | BindOpening | BindFailed | BindActive | BindClosing

  datatype OpenState = Initializing | Running | Pausing | Paused | Restarting | Closing

  // ---- The shared state ------------------------------------------------

  /** The binding as NDIS and the global list see it. The flag bound says that
      the reference "existence of NDIS binding" has not been given back yet;
      raced says that a packet stood between its two loads of State when the
      state last became Paused. */
  datatype Binding = Binding(
    bind: BindState, unbindReceived: bool, state: OpenState, raced: bool, d0: bool,
    listed: bool, bound: bool, adapter: bool, handle: bool,
    name: bool, sendPool: bool, recvPool: bool)

  /** Read IRPs, numbered in the order in which they are issued; owner[x] is the
      file object of read x. The sets are words inside the IRPs: Cancel, a
      non-NULL cancel routine, and a stored DriverContext[0]. The four logs hold
      the completed IRPs by the code that completed them. */
  datatype Reads = Reads(
    pended: seq<Irp>, count: int,
    cancelled: set<Irp>, routine: set<Irp>, stored: set<Irp>, owner: seq<File>,
    served: seq<Irp>, byCancel: seq<Irp>, byPurge: seq<Irp>, byDispatch: seq<Irp>)

  /** Received packets: the queue, and the histories of what entered the queue,
      what left it, and what was given back. */
  datatype Packets = Packets(
    queue: seq<Nbl>, count: int, next: Nbl,
    entered: seq<Nbl>, left: seq<Nbl>, returned: seq<Nbl>)

  /** Write IRPs, numbered like reads, and the count that also covers OID requests. The set inNdis
      holds the writes whose net buffer list NDIS owns. */
  datatype Sends = Sends(
    pended: seq<Irp>, count: int, closingEvent: bool, signalled: bool,
    routine: set<Irp>, stored: set<Irp>, owner: seq<File>, inNdis: set<Irp>,
    went: set<Irp>, nblFreed: seq<Irp>, bySendComplete: seq<Irp>, byDispatch: seq<Irp>)

  /** File objects: those whose FsContext is this context, those whose FsContext
      is another context, and those whose Cleanup has begun or has taken the
      file object off this context. */
  datatype Files = Files(
    openActive: bool, pFileObject: Option<File>,
    here: set<File>, elsewhere: set<File>, begun: set<File>, cleaned: set<File>)

  /** Who holds the lock between two actions: all other sections are one action. */
  datatype Holder = ByRead(x: Irp) | ByReceive(n: Nbl)

  datatype Ctx = Ctx(
    refCount: int, frees: nat, leaked: nat, lock: Option<Holder>,
    b: Binding, rd: Reads, rx: Packets, tx: Sends, fs: Files)

  function InitialContext(): Ctx {
    Ctx(0, 0, 0, None,
        Binding(BindIdle, false, Initializing, false, false, false, false, false, false, false, false, false),
        Reads([], 0, {}, {}, {}, [], [], [], [], []),
        Packets([], 0, 0, [], [], []),
        Sends([], 0, false, false, {}, {}, [], {}, {}, [], [], []),
        Files(false, None, {}, {}, {}, {}))
  }

  // ---- Program counters --------------------------------------------------

  datatype ReadPc = Enter | Fail | Test | List | Late
  datatype ServicePc =
    | ServeRef | ServeTop | ServeDropNbl(irp: Irp, nbl: Nbl) | ServeComplete(irp: Irp, nbl: Nbl)
    | ServeFree(nbl: Nbl) | ServeDropRead | ServeDecrement | ServeExit
  datatype ServiceCaller = FromRead(x: Irp, f: File) | FromCancelledRead(x: Irp, f: File) | FromReceive
  datatype CancelReadPc = SetCancel | TakeRoutine | Fetch | NullContext | Unlink | CancelComplete | CancelDrop
  datatype PurgePc = PurgeRef | PurgeTop | PurgeComplete(irp: Irp) | PurgeDrop | PurgeDecrement | PurgeExit
  datatype PurgeCaller = FromCleanup(f: File) | FromShutdown
  datatype FlushPc = FlushRef | FlushTop | FlushFree(nbl: Nbl) | FlushDrop | FlushExit
  datatype FlushCaller = AtCleanup(f: File) | AtShutdown | AtPause | AtPowerDown
  datatype ReceivePc =
    | LookPausing | LookPaused | QueueRef | QueueLock | QueueAgain
    | GiveUp | DropFree | DropDeref | TrimFree | TrimDeref
  datatype WritePc = WriteLock | WriteFail | WriteSend
  datatype SentPc = ClearCancel | UnlinkWrite | FreeSendNbl | SentComplete | SentDecrement | SentDrop
  datatype CancelWritePc = TakeWriteRoutine | FindWrite | CancelSend | CancelWriteDrop
  datatype RequestPc = RequestEnter | RequestRun | RequestLeave(ok: bool)
  datatype RequestCaller = ForOpen(f: File) | ForCleanup(f: File) | ForIoctl(f: File)
  datatype OpenPc = Lookup | Associate | Undo | OpenDrop
  datatype BindPc = BindRef | BindList | BindHold | BindStart | BindPaused | BindActivate | BindRelease | BindFail
  datatype ResourcePc = BindName | BindSendPool | BindRecvPool | BindAdapter
  datatype UnbindPc = UnbindMark | UnbindState | ShutLock(failed: bool)
  datatype DrainPc = ShutRequests | ShutTest | ShutLoad | ShutNull | ShutWait | ShutReads | ShutClose
  datatype ReleasePc = ShutHandle | ShutIdle | ShutUnlist | ShutFree | ShutRelease | BindFailRelease
  datatype EventPc = PauseLock | PauseWait | PauseDone | Restart | SetPower(toD0: bool)

  /** The thread on which NDIS calls the bind, unbind and plug-and-play handlers, one at a time. */
  datatype ControlPc =
    | New | Bound | Gone
    | Bind(bp: BindPc)
    | Resource(rp: ResourcePc)
    | Unbind(up: UnbindPc)
    | Drain(dp: DrainPc)
    | Release(sp: ReleasePc, afterFailure: bool)
    | Event(ep: EventPc)

  datatype Pc =
    | Done
    | Read(x: Irp, f: File, r: ReadPc)
    | Service(k: ServiceCaller, v: ServicePc)
    | CancelRead(x: Irp, cr: CancelReadPc)
    | Purge(pk: PurgeCaller, p: PurgePc)
    | Flush(fk: FlushCaller, fl: FlushPc)
    | Receive(n: Nbl, q: ReceivePc)
    | Write(w: Irp, f: File, wp: WritePc)
    | Sent(chain: seq<Irp>, sp: SentPc)
    | CancelWrite(w: Irp, cw: CancelWritePc)
    | Request(rk: RequestCaller, rp: RequestPc)
    | OpenDevice(f: File, op: OpenPc)
    | CleanupMark(f: File)
    | CloseDrop
    | Control(ctl: ControlPc)

  // ---- References --------------------------------------------------------

  function Ref(c: Ctx): Ctx {
    c.(refCount := c.refCount + 1)
  }

  /** NdisInterlockedDecrement; the context is freed when the count reaches zero. */
  function Deref(c: Ctx): Ctx {
    c.(refCount := c.refCount - 1, frees := if c.refCount == 1 then c.frees + 1 else c.frees)
  }

  // ---- NdisprotRead ------------------------------------------------------

  function ActRead(c: Ctx, x: Irp, f: File, r: ReadPc): (Ctx, Pc) {
    match r
    case Enter =>
      if c.b.bind != BindActive then (c, Read(x, f, Fail))
      else (c.(lock := Some(ByRead(x)), rd := c.rd.(routine := c.rd.routine + {x})), Read(x, f, Test))
    case Fail => (c.(rd := c.rd.(byDispatch := c.rd.byDispatch + [x])), Done)
    case Test =>
      if x in c.rd.cancelled && x in c.rd.routine then
        (c.(lock := None, rd := c.rd.(routine := c.rd.routine - {x})), Service(FromCancelledRead(x, f), ServeRef))
      else (c, Read(x, f, List))
    case List =>
      (Ref(c.(lock := None,
              rd := c.rd.(pended := c.rd.pended + [x], count := c.rd.count + 1, stored := c.rd.stored + {x}))),
       Service(FromRead(x, f), ServeRef))
    case Late => (c.(rd := c.rd.(byDispatch := c.rd.byDispatch + [x])), Done)
  }

  // ---- ndisprotServiceReads ----------------------------------------------

  function Dequeue(q: Packets): Packets
    requires q.queue != []
  {
    q.(queue := q.queue[1..], count := q.count - 1, left := q.left + [q.queue[0]])
  }

  /** Some listed read still has its cancel routine, so that a service thread can claim it. */
  predicate HasClaimable(rd: Reads) {
    FirstIn(rd.pended, rd.routine) < |rd.pended|
  }

  lemma Claimable(rd: Reads)
    ensures HasClaimable(rd) <==> exists x :: x in rd.pended && x in rd.routine
  {
    var i := FirstIn(rd.pended, rd.routine);
    if i < |rd.pended| {
      assert rd.pended[i] in rd.pended && rd.pended[i] in rd.routine;
    } else {
      forall x | x in rd.pended ensures x !in rd.routine {
        var j :| 0 <= j < |rd.pended| && rd.pended[j] == x;
      }
    }
  }

  function Claim(rd: Reads): Reads
    requires HasClaimable(rd)
  {
    var x := rd.pended[FirstIn(rd.pended, rd.routine)];
    rd.(pended := Remove(rd.pended, x), routine := rd.routine - {x})
  }

  /** The head of the service loop: claim the first read that is not being
      cancelled and take the oldest packet, or leave. */
  function ServiceTest(c: Ctx, k: ServiceCaller): (Ctx, Pc) {
    if c.rx.queue != [] && HasClaimable(c.rd) then
      (c.(rd := Claim(c.rd), rx := Dequeue(c.rx)),
       Service(k, ServeDropNbl(c.rd.pended[FirstIn(c.rd.pended, c.rd.routine)], c.rx.queue[0])))
    else (c, Service(k, ServeExit))
  }

  function AfterService(k: ServiceCaller): Pc {
    match k
    case FromRead(_, _) => Done
    case FromCancelledRead(x, f) => Read(x, f, Late)
    case FromReceive => Done
  }

  function GiveBack(c: Ctx, n: Nbl): Ctx {
    c.(rx := c.rx.(returned := c.rx.returned + [n]))
  }

  function ActService(c: Ctx, k: ServiceCaller, v: ServicePc): (Ctx, Pc) {
    match v
    case ServeRef => (Ref(c), Service(k, ServeTop))
    case ServeTop => ServiceTest(c, k)
    case ServeDropNbl(x, n) => (Deref(c), Service(k, ServeComplete(x, n)))
    case ServeComplete(x, n) => (c.(rd := c.rd.(served := c.rd.served + [x])), Service(k, ServeFree(n)))
    case ServeFree(n) => (GiveBack(c, n), Service(k, ServeDropRead))
    case ServeDropRead => (Deref(c), Service(k, ServeDecrement))
    case ServeDecrement => ServiceTest(c.(rd := c.rd.(count := c.rd.count - 1)), k)
    case ServeExit => (Deref(c), AfterService(k))
  }

  // ---- IoCancelIrp on a read, and NdisprotCancelRead ---------------------

  function ActCancelRead(c: Ctx, x: Irp, cr: CancelReadPc): (Ctx, Pc) {
    match cr
    case SetCancel => (c.(rd := c.rd.(cancelled := c.rd.cancelled + {x})), CancelRead(x, TakeRoutine))
    case TakeRoutine =>
      if x in c.rd.routine then (c.(rd := c.rd.(routine := c.rd.routine - {x})), CancelRead(x, Fetch))
      else (c, Done)
    case Fetch => (c, CancelRead(x, if x in c.rd.stored then Unlink else NullContext))
    case NullContext => (c, CancelRead(x, NullContext))
    case Unlink =>
      (c.(rd := c.rd.(pended := Remove(c.rd.pended, x), count := c.rd.count - 1)), CancelRead(x, CancelComplete))
    case CancelComplete => (c.(rd := c.rd.(byCancel := c.rd.byCancel + [x])), CancelRead(x, CancelDrop))
    case CancelDrop => (Deref(c), Done)
  }

  // ---- ndisprotCancelPendingReads ----------------------------------------

  /** The loop head: only the first entry is looked at; if it is being
      cancelled the thread sleeps and looks again. */
  function PurgeTest(c: Ctx, k: PurgeCaller): (Ctx, Pc) {
    if c.rd.pended == [] then (c, Purge(k, PurgeExit))
    else
      var x := c.rd.pended[0];
      if x in c.rd.routine then
        (c.(rd := c.rd.(pended := Remove(c.rd.pended, x), routine := c.rd.routine - {x})), Purge(k, PurgeComplete(x)))
      else (c, Purge(k, PurgeTop))
  }

  function ActPurge(c: Ctx, k: PurgeCaller, p: PurgePc): (Ctx, Pc) {
    match p
    case PurgeRef => (Ref(c), Purge(k, PurgeTop))
    case PurgeTop => PurgeTest(c, k)
    case PurgeComplete(x) => (c.(rd := c.rd.(byPurge := c.rd.byPurge + [x])), Purge(k, PurgeDrop))
    case PurgeDrop => (Deref(c), Purge(k, PurgeDecrement))
    case PurgeDecrement => PurgeTest(c.(rd := c.rd.(count := c.rd.count - 1)), k)
    case PurgeExit =>
      (Deref(c),
       match k
       case FromCleanup(f) => Flush(AtCleanup(f), FlushRef)
       case FromShutdown => Control(Drain(ShutReads)))
  }

  // ---- ndisprotFlushReceiveQueue -----------------------------------------

  function AfterFlush(k: FlushCaller): Pc {
    match k
    case AtCleanup(_) => Done
    case AtShutdown => Control(Drain(ShutClose))
    case AtPause => Control(Event(PauseDone))
    case AtPowerDown => Control(Bound)
  }

  function ActFlush(c: Ctx, k: FlushCaller, fl: FlushPc): (Ctx, Pc) {
    match fl
    case FlushRef => (Ref(c), Flush(k, FlushTop))
    case FlushTop =>
      if c.rx.queue == [] then (c, Flush(k, FlushExit))
      else (c.(rx := Dequeue(c.rx)), Flush(k, FlushFree(c.rx.queue[0])))
    case FlushFree(n) => (GiveBack(c, n), Flush(k, FlushDrop))
    case FlushDrop => (Deref(c), Flush(k, FlushTop))
    case FlushExit => (Deref(c), AfterFlush(k))
  }

  // ---- The tests of State in NdisprotReceiveNetBufferLists, and ndisprotQueueReceiveNetBufferList ----
  // State is stored without the lock, and every comparison loads it anew.

  function Enqueue(q: Packets, n: Nbl): Packets {
    q.(queue := q.queue + [n], count := q.count + 1, entered := q.entered + [n])
  }

  /** A packet is on its way between the two loads of State. */
  predicate Between(c: Ctx) {
    c.lock.Some? && c.lock.value.ByReceive?
  }

  /** The first load of State, with which the section under the lock begins. On
      the path to GiveUp the reference taken at QueueRef is never given back. */
  function FirstLoad(c: Ctx, n: Nbl): (Ctx, Pc) {
    if c.b.state == Paused then (c.(leaked := c.leaked + 1), Receive(n, GiveUp))
    else (c.(lock := Some(ByReceive(n))), Receive(n, QueueAgain))
  }

  /** The second load of State, and the rest of the section. */
  function QueueSection(c: Ctx, n: Nbl): (Ctx, Pc) {
    if c.b.state == Pausing then (c.(leaked := c.leaked + 1), Receive(n, GiveUp))
    else if c.b.bind == BindActive && c.b.d0 then
      var q := Enqueue(c.rx, n);
      if q.count > MAX_RECV_QUEUE_SIZE then (c.(rx := Dequeue(q)), Receive(q.queue[0], TrimFree))
      else (c.(rx := q), Service(FromReceive, ServeRef))
    else (c, Receive(n, DropFree))
  }

  function ActReceive(c: Ctx, n: Nbl, q: ReceivePc): (Ctx, Pc) {
    match q
    case LookPausing => (c, Receive(n, if c.b.state == Pausing then GiveUp else LookPaused))
    case LookPaused => (c, Receive(n, if c.b.state == Paused then GiveUp else QueueRef))
    case QueueRef => (Ref(c), Receive(n, QueueLock))
    case QueueLock => FirstLoad(c, n)
    case QueueAgain => QueueSection(c.(lock := None), n)
    case GiveUp => (GiveBack(c, n), Done)
    case DropFree => (GiveBack(c, n), Receive(n, DropDeref))
    case DropDeref => (Deref(c), Done)
    case TrimFree => (GiveBack(c, n), Receive(n, TrimDeref))
    case TrimDeref => (Deref(c), Service(FromReceive, ServeRef))
  }

  // ---- NdisprotWrite -----------------------------------------------------

  /** The oracle noNbl says that the net buffer list could not be allocated. */
  function WriteSection(c: Ctx, w: Irp, f: File, noNbl: bool): (Ctx, Pc) {
    if c.b.bind != BindActive || c.b.state != Running || !c.b.d0 || noNbl then (c, Write(w, f, WriteFail))
    else
      (Ref(c.(tx := c.tx.(pended := c.tx.pended + [w], count := c.tx.count + 1, routine := c.tx.routine + {w},
                          stored := c.tx.stored + {w}, went := c.tx.went + {w}))),
       Write(w, f, WriteSend))
  }

  function ActWrite(c: Ctx, w: Irp, f: File, wp: WritePc, o: bool): (Ctx, Pc) {
    match wp
    case WriteLock => WriteSection(c, w, f, o)
    case WriteFail => (c.(tx := c.tx.(byDispatch := c.tx.byDispatch + [w])), Done)
    case WriteSend => (c.(tx := c.tx.(inNdis := c.tx.inNdis + {w})), Done)
  }

  // ---- The counted part of sends and OID requests ------------------------

  /** PendedSendCount--, and when the binding is closing and the count reaches
      zero, signal ClosingEvent and forget it. */
  function Uncount(c: Ctx): Ctx {
    if c.b.bind == BindClosing && c.tx.count - 1 == 0
    then c.(tx := c.tx.(count := c.tx.count - 1, signalled := true, closingEvent := false))
    else c.(tx := c.tx.(count := c.tx.count - 1))
  }

  // ---- NdisprotSendComplete ----------------------------------------------

  function ActSent(c: Ctx, ch: seq<Irp>, sp: SentPc): (Ctx, Pc)
    requires ch != []
  {
    var w := ch[0];
    match sp
    case ClearCancel =>
      (c.(tx := c.tx.(routine := c.tx.routine - {w}, stored := c.tx.stored - {w})), Sent(ch, UnlinkWrite))
    case UnlinkWrite => (c.(tx := c.tx.(pended := Remove(c.tx.pended, w))), Sent(ch, FreeSendNbl))
    case FreeSendNbl => (c.(tx := c.tx.(nblFreed := c.tx.nblFreed + [w])), Sent(ch, SentComplete))
    case SentComplete => (c.(tx := c.tx.(bySendComplete := c.tx.bySendComplete + [w])), Sent(ch, SentDecrement))
    case SentDecrement => (Uncount(c), Sent(ch, SentDrop))
    case SentDrop => (Deref(c), if |ch| == 1 then Done else Sent(ch[1..], ClearCancel))
  }

  // ---- IoCancelIrp on a write, and NdisprotCancelWrite -------------------

  /** TakeWriteRoutine runs under the system cancel lock up to line 286: the
      exchange, the test of DriverContext[0] and the reference are one action. */
  function ActCancelWrite(c: Ctx, w: Irp, cw: CancelWritePc): (Ctx, Pc) {
    match cw
    case TakeWriteRoutine =>
      if w !in c.tx.routine then (c, Done)
      else
        var c1 := c.(tx := c.tx.(routine := c.tx.routine - {w}));
        if w in c.tx.stored then (Ref(c1), CancelWrite(w, FindWrite)) else (c1, Done)
    case FindWrite => (c, CancelWrite(w, if w in c.tx.pended then CancelSend else CancelWriteDrop))
    case CancelSend => (c, CancelWrite(w, CancelWriteDrop))
    case CancelWriteDrop => (Deref(c), Done)
  }

  // ---- The counted OID requests ------------------------------------------

  function AfterRequest(k: RequestCaller, ok: bool): Pc {
    match k
    case ForOpen(f) => if ok then Done else OpenDevice(f, Undo)
    case ForCleanup(f) => CleanupMark(f)
    case ForIoctl(_) => Done
  }

  /** The requests of open and cleanup ask NDIS only in full power; those of the client ask it in any case. */
  function ActRequest(c: Ctx, k: RequestCaller, rp: RequestPc, o: bool): (Ctx, Pc) {
    match rp
    case RequestEnter =>
      if c.b.bind != BindActive then (c, AfterRequest(k, false))
      else (c.(tx := c.tx.(count := c.tx.count + 1)), Request(k, RequestRun))
    case RequestRun => (c, Request(k, RequestLeave(o && (k.ForIoctl? || c.b.d0))))
    case RequestLeave(ok) => (Uncount(c), AfterRequest(k, ok))
  }

  // ---- ndisprotOpenDevice, NdisprotCleanup, NdisprotClose ----------------

  function ActOpen(c: Ctx, f: File, op: OpenPc, o: bool): (Ctx, Pc) {
    match op
    case Lookup => if c.b.listed && o then (Ref(c), OpenDevice(f, Associate)) else (c, Done)
    case Associate =>
      if c.fs.openActive || f in c.fs.here || f in c.fs.elsewhere then (c, OpenDevice(f, OpenDrop))
      else
        (c.(fs := c.fs.(openActive := true, pFileObject := Some(f), here := c.fs.here + {f})),
         Request(ForOpen(f), RequestEnter))
    case Undo =>
      (c.(fs := c.fs.(openActive := false, pFileObject := None, here := c.fs.here - {f})), OpenDevice(f, OpenDrop))
    case OpenDrop => (Deref(c), Done)
  }

  function ActCleanupMark(c: Ctx, f: File): (Ctx, Pc) {
    (c.(fs := c.fs.(openActive := false, pFileObject := None, cleaned := c.fs.cleaned + {f})),
     Purge(FromCleanup(f), PurgeRef))
  }

  // ---- Bind, unbind, pause and power: serialised by NDIS -----------------

  function SetBind(c: Ctx, b: BindState): Ctx {
    c.(b := c.b.(bind := b))
  }

  function SetState(c: Ctx, s: OpenState): Ctx {
    c.(b := c.b.(state := s))
  }

  function BeginShutdown(c: Ctx, failed: bool): (Ctx, Pc) {
    if c.b.bind == BindActive then
      (SetBind(c, BindClosing).(tx := if c.tx.count != 0 then c.tx.(closingEvent := true, signalled := false)
                                      else c.tx.(closingEvent := false)),
       Control(Drain(ShutRequests)))
    else (c, Control(Release(ShutUnlist, failed)))
  }

  function ActBind(c: Ctx, bp: BindPc): (Ctx, Pc) {
    match bp
    case BindRef => (Ref(c.(b := c.b.(bound := true))), Control(Bind(BindList)))
    case BindList => (c.(b := c.b.(listed := true)), Control(Bind(BindHold)))
    case BindHold => (Ref(SetState(c, Initializing)), Control(Bind(BindStart)))
    case BindStart => (SetBind(c, BindOpening), Control(Resource(BindName)))
    case BindPaused => (c.(b := c.b.(state := Paused, raced := false)), Control(Bind(BindActivate)))
    case BindActivate => (SetBind(c, BindActive), Control(Bind(BindRelease)))
    case BindRelease => (Deref(c), Control(Bound))
    case BindFail => (if c.b.bind == BindOpening then SetBind(c, BindFailed) else c, Control(Unbind(ShutLock(true))))
  }

  /** The steps of ndisprotCreateBinding that can fail; the oracle o says that they succeed. */
  function ActResource(c: Ctx, rp: ResourcePc, o: bool): (Ctx, Pc) {
    if !o then (c, Control(Bind(BindFail)))
    else
      match rp
      case BindName => (c.(b := c.b.(name := true)), Control(Resource(BindSendPool)))
      case BindSendPool => (c.(b := c.b.(sendPool := true)), Control(Resource(BindRecvPool)))
      case BindRecvPool => (c.(b := c.b.(recvPool := true, d0 := true)), Control(Resource(BindAdapter)))
      case BindAdapter => (c.(b := c.b.(adapter := true, handle := true)), Control(Bind(BindPaused)))
  }

  function ActUnbind(c: Ctx, up: UnbindPc): (Ctx, Pc) {
    match up
    case UnbindMark => (c.(b := c.b.(unbindReceived := true)), Control(Unbind(UnbindState)))
    case UnbindState => (SetState(c, Closing), Control(Unbind(ShutLock(false))))
    case ShutLock(failed) => BeginShutdown(c, failed)
  }

  /** From the flag CLOSING to NdisCloseAdapterEx. PendedSendCount, ClosingEvent
      and PendedReadCount are read here without the lock. */
  function ActDrain(c: Ctx, dp: DrainPc): (Ctx, Pc) {
    match dp
    case ShutRequests => (c, Control(Drain(ShutTest)))
    case ShutTest => (c, Control(Drain(if c.tx.count == 0 then ShutReads else ShutLoad)))
    case ShutLoad => (c, Control(Drain(if c.tx.closingEvent then ShutWait else ShutNull)))
    case ShutNull => (c, Control(Drain(ShutNull)))
    case ShutWait => (c, Control(Drain(ShutReads)))
    case ShutReads => (c, if c.rd.count == 0 then Flush(AtShutdown, FlushRef) else Purge(FromShutdown, PurgeRef))
    case ShutClose => (c.(b := c.b.(adapter := false)), Control(Release(ShutHandle, false)))
  }

  function ActRelease(c: Ctx, sp: ReleasePc, failed: bool): (Ctx, Pc) {
    match sp
    case ShutHandle => (c.(b := c.b.(handle := false)), Control(Release(ShutIdle, failed)))
    case ShutIdle => (c.(b := c.b.(bind := BindIdle, unbindReceived := false)), Control(Release(ShutUnlist, failed)))
    case ShutUnlist => (c.(b := c.b.(listed := false)), Control(Release(ShutFree, failed)))
    case ShutFree =>
      (c.(b := c.b.(name := false, sendPool := false, recvPool := false)), Control(Release(ShutRelease, failed)))
    case ShutRelease =>
      (Deref(c.(b := c.b.(bound := false))), Control(if failed then Release(BindFailRelease, true) else Gone))
    case BindFailRelease => (Deref(c), Control(Gone))
  }

  function ActEvent(c: Ctx, ep: EventPc): (Ctx, Pc) {
    match ep
    case PauseLock =>
      (SetState(c, Pausing), if c.tx.count == 0 then Flush(AtPause, FlushRef) else Control(Event(PauseWait)))
    case PauseWait => (c, if c.tx.count == 0 then Flush(AtPause, FlushRef) else Control(Event(PauseWait)))
    case PauseDone => (c.(b := c.b.(state := Paused, raced := Between(c))), Control(Bound))
    case Restart => (SetState(c, Running), Control(Bound))
    case SetPower(toD0) =>
      (c.(b := c.b.(d0 := toD0)), if toD0 then Control(Bound) else Flush(AtPowerDown, FlushRef))
  }

  function ActControl(c: Ctx, ctl: ControlPc, o: bool): (Ctx, Pc) {
    match ctl
    case Bind(bp) => ActBind(c, bp)
    case Resource(rp) => ActResource(c, rp, o)
    case Unbind(up) => ActUnbind(c, up)
    case Drain(dp) => ActDrain(c, dp)
    case Release(sp, failed) => ActRelease(c, sp, failed)
    case Event(ep) => ActEvent(c, ep)
    case _ => (c, Control(ctl))
  }

  // ---- One action of one thread ------------------------------------------

  predicate WellFormed(pc: Pc) {
    pc.Sent? ==> pc.chain != []
  }

  /** What the next action of a thread does to the context and to the thread.
      The oracle o resolves allocation failures, NDIS results and name matches. */
  function Act(c: Ctx, pc: Pc, o: bool): (Ctx, Pc)
    requires WellFormed(pc)
  {
    match pc
    case Done => (c, Done)
    case Read(x, f, r) => ActRead(c, x, f, r)
    case Service(k, v) => ActService(c, k, v)
    case CancelRead(x, cr) => ActCancelRead(c, x, cr)
    case Purge(k, p) => ActPurge(c, k, p)
    case Flush(k, fl) => ActFlush(c, k, fl)
    case Receive(n, q) => ActReceive(c, n, q)
    case Write(w, f, wp) => ActWrite(c, w, f, wp, o)
    case Sent(ch, sp) => ActSent(c, ch, sp)
    case CancelWrite(w, cw) => ActCancelWrite(c, w, cw)
    case Request(k, rp) => ActRequest(c, k, rp, o)
    case OpenDevice(f, op) => ActOpen(c, f, op, o)
    case CleanupMark(f) => ActCleanupMark(c, f)
    case CloseDrop => (Deref(c), Done)
    case Control(ctl) => ActControl(c, ctl, o)
  }

  /** The action starts by acquiring the context's spin lock. */
  predicate TakesLock(pc: Pc) {
    match pc
    case Read(_, _, r) => r.Enter?
    case Service(_, v) => v.ServeTop? || v.ServeDecrement?
    case CancelRead(_, cr) => cr.Unlink?
    case Purge(_, p) => p.PurgeTop? || p.PurgeDecrement?
    case Flush(_, fl) => fl.FlushTop?
    case Receive(_, q) => q.QueueLock?
    case Write(_, _, wp) => wp.WriteLock?
    case Sent(_, sp) => sp.UnlinkWrite? || sp.SentDecrement?
    case CancelWrite(_, cw) => cw.FindWrite?
    case Request(_, rp) => rp.RequestEnter? || rp.RequestLeave?
    case OpenDevice(_, op) => op.Associate? || op.Undo?
    case CleanupMark(_) => true
    case Control(ctl) =>
      (match ctl
       case Bind(bp) => bp.BindStart? || bp.BindActivate? || bp.BindFail?
       case Unbind(up) => !up.UnbindState?
       case Release(sp, _) => sp.ShutIdle?
       case Event(ep) => ep.PauseLock? || ep.PauseWait?
       case _ => false)
    case _ => false
  }

  /** The thread has no next action: it has returned, waits for NDIS to call
      again, or has dereferenced NULL. */
  predicate Stopped(pc: Pc) {
    pc.Done? || (pc.CancelRead? && pc.cr.NullContext?)
    || (pc.Control? && (pc.ctl.New? || pc.ctl.Bound? || pc.ctl.Gone? || pc.ctl == Drain(ShutNull)))
  }

  /** The next action accesses the context on no reference of the thread and of no list: only FsContext,
      as the thread found it, says that the context is there. */
  predicate StandsOnFile(pc: Pc) {
    match pc
    case Read(_, _, r) => r.Enter?
    case Service(k, v) => !k.FromReceive? && v.ServeRef?
    case Write(_, _, wp) => wp.WriteLock?
    case Request(rk, rp) => rk.ForIoctl? && rp.RequestEnter?
    case _ => false
  }

  predicate Enabled(c: Ctx, pc: Pc) {
    && !Stopped(pc)
    && (TakesLock(pc) ==> c.lock == None)
    && (pc == Control(Drain(ShutWait)) ==> c.tx.signalled)
  }
}
