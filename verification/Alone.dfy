/** What every routine of the driver does when no other thread moves: a thread
    that enters it leaves it with exactly the outcome stated here, whatever the
    context was. Runs says how the routines interleave; this says what each of
    them is for. */
module Alone {
  import opened Wrappers
  import opened Lists
  import opened Protocol

  // ---- One thread by itself ------------------------------------------------------

  /** A thread, the context, and the answer that its oracle always gives. */
  datatype Start = Start(o: bool, c: Ctx, pc: Pc)

  /** Context and thread after n actions, if the thread can take that many. */
  function After(a: Start, n: nat): Option<(Ctx, Pc)> {
    if n == 0 then Some((a.c, a.pc)) else
      match After(a, n - 1)
      case None => None
      case Some((c, pc)) => if WellFormed(pc) && Enabled(c, pc) then Some(Act(c, pc, a.o)) else None
  }

  /** From the start the thread comes to pc, with the context c. */
  ghost predicate Does(a: Start, c: Ctx, pc: Pc) {
    exists n: nat :: After(a, n) == Some((c, pc))
  }

  lemma Begins(a: Start)
    ensures Does(a, a.c, a.pc)
  {
    assert After(a, 0) == Some((a.c, a.pc));
  }

  lemma Then(a: Start, c: Ctx, pc: Pc)
    requires Does(a, c, pc) && WellFormed(pc) && Enabled(c, pc)
    ensures var (c', pc') := Act(c, pc, a.o); Does(a, c', pc')
  {
    var n: nat :| After(a, n) == Some((c, pc));
    assert After(a, n + 1) == Some(Act(c, pc, a.o));
  }

  /** A thread by itself comes to one end only. */
  lemma OneOutcome(a: Start, c: Ctx, pc: Pc, c': Ctx, pc': Pc)
    requires Does(a, c, pc) && Does(a, c', pc') && !Enabled(c, pc) && !Enabled(c', pc')
    ensures c == c' && pc == pc'
  {
    hide After, Enabled;
    var n: nat :| After(a, n) == Some((c, pc));
    var m: nat :| After(a, m) == Some((c', pc'));
    if n < m {
      StoppedIsLast(a, n, m);
    } else if m < n {
      StoppedIsLast(a, m, n);
    }
  }

  lemma {:induction false} StoppedIsLast(a: Start, n: nat, m: nat)
    requires n < m && After(a, n).Some? && !Enabled(After(a, n).value.0, After(a, n).value.1)
    ensures After(a, m) == None
  {
    hide Act, Enabled, WellFormed;
    if m > n + 1 {
      StoppedIsLast(a, n, m - 1);
    }
  }

  // ---- NdisprotRead ---------------------------------------------------------------

  /** The read is at the tail of the list, counted and referenced, and can be cancelled. */
  function WithRead(c: Ctx, x: Irp): Ctx {
    c.(refCount := c.refCount + 1,
       rd := c.rd.(pended := c.rd.pended + [x], count := c.rd.count + 1,
                   routine := c.rd.routine + {x}, stored := c.rd.stored + {x}))
  }

  /** Every read that finds the binding ACTIVE and is not cancelled is listed, whatever else waits. */
  lemma ReadIsListed(a: Start, c: Ctx, x: Irp, f: File)
    requires Does(a, c, Read(x, f, Enter)) && c.lock == None && c.b.bind == BindActive && x !in c.rd.cancelled
    ensures Does(a, WithRead(c, x), Service(FromRead(x, f), ServeRef))
  {
    hide Does;
    Then(a, c, Read(x, f, Enter));
    var c1 := c.(lock := Some(ByRead(x)), rd := c.rd.(routine := c.rd.routine + {x}));
    Then(a, c1, Read(x, f, Test));
    Then(a, c1, Read(x, f, List));
  }

  /** A read that was cancelled before is not listed. */
  lemma ReadIsCancelled(a: Start, c: Ctx, x: Irp, f: File)
    requires Does(a, c, Read(x, f, Enter)) && c.lock == None && c.b.bind == BindActive && x in c.rd.cancelled
    requires x !in c.rd.routine
    ensures Does(a, c, Service(FromCancelledRead(x, f), ServeRef))
  {
    hide Does;
    Then(a, c, Read(x, f, Enter));
    var c1 := c.(lock := Some(ByRead(x)), rd := c.rd.(routine := c.rd.routine + {x}));
    Then(a, c1, Read(x, f, Test));
    assert c1.rd.routine - {x} == c.rd.routine;
  }

  /** ... and is completed after the service loop. */
  lemma ReadIsCompletedLate(a: Start, c: Ctx, x: Irp, f: File)
    requires Does(a, c, AfterService(FromCancelledRead(x, f)))
    ensures Does(a, c.(rd := c.rd.(byDispatch := c.rd.byDispatch + [x])), Done)
  {
    hide Does;
    Then(a, c, Read(x, f, Late));
  }

  /** A read that finds the binding not ACTIVE fails, and nothing else changes. */
  lemma ReadIsRefused(a: Start, c: Ctx, x: Irp, f: File)
    requires Does(a, c, Read(x, f, Enter)) && c.lock == None && c.b.bind != BindActive
    ensures Does(a, c.(rd := c.rd.(byDispatch := c.rd.byDispatch + [x])), Done)
  {
    hide Does;
    Then(a, c, Read(x, f, Enter));
    Then(a, c, Read(x, f, Fail));
  }

  // ---- IoCancelIrp on a read ---------------------------------------------------------

  /** A listed read that nobody else has claimed is unlinked and completed as cancelled, with its count and
      its reference. */
  lemma CancelCompletesRead(a: Start, c: Ctx, x: Irp)
    requires Does(a, c, CancelRead(x, SetCancel)) && c.lock == None && x in c.rd.routine && x in c.rd.stored
    ensures Does(a, Deref(c.(rd := c.rd.(cancelled := c.rd.cancelled + {x}, routine := c.rd.routine - {x},
                                         pended := Remove(c.rd.pended, x), count := c.rd.count - 1,
                                         byCancel := c.rd.byCancel + [x]))), Done)
  {
    hide Does;
    Then(a, c, CancelRead(x, SetCancel));
    var c1 := c.(rd := c.rd.(cancelled := c.rd.cancelled + {x}));
    Then(a, c1, CancelRead(x, TakeRoutine));
    var c2 := c1.(rd := c1.rd.(routine := c.rd.routine - {x}));
    Then(a, c2, CancelRead(x, Fetch));
    Then(a, c2, CancelRead(x, Unlink));
    var c3 := c2.(rd := c2.rd.(pended := Remove(c.rd.pended, x), count := c.rd.count - 1));
    Then(a, c3, CancelRead(x, CancelComplete));
    Then(a, c3.(rd := c3.rd.(byCancel := c.rd.byCancel + [x])), CancelRead(x, CancelDrop));
  }

  /** A read that does not name its context yet makes the cancel routine take NULL for it. */
  lemma CancelTakesNull(a: Start, c: Ctx, x: Irp)
    requires Does(a, c, CancelRead(x, SetCancel)) && x in c.rd.routine && x !in c.rd.stored
    ensures Does(a, c.(rd := c.rd.(cancelled := c.rd.cancelled + {x}, routine := c.rd.routine - {x})),
                 CancelRead(x, NullContext))
  {
    hide Does;
    Then(a, c, CancelRead(x, SetCancel));
    var c1 := c.(rd := c.rd.(cancelled := c.rd.cancelled + {x}));
    Then(a, c1, CancelRead(x, TakeRoutine));
    Then(a, c1.(rd := c1.rd.(routine := c.rd.routine - {x})), CancelRead(x, Fetch));
  }

  /** A read without a cancel routine is only marked. */
  lemma CancelOnlyMarks(a: Start, c: Ctx, x: Irp)
    requires Does(a, c, CancelRead(x, SetCancel)) && x !in c.rd.routine
    ensures Does(a, c.(rd := c.rd.(cancelled := c.rd.cancelled + {x})), Done)
  {
    hide Does;
    Then(a, c, CancelRead(x, SetCancel));
    Then(a, c.(rd := c.rd.(cancelled := c.rd.cancelled + {x})), CancelRead(x, TakeRoutine));
  }

  // ---- ndisprotServiceReads ------------------------------------------------------------

  /** The queue is empty, or every listed read has been claimed by a cancel. */
  predicate NothingToServe(c: Ctx) {
    c.rx.queue == [] || forall x :: x in c.rd.pended ==> x !in c.rd.routine
  }

  /** The service loop is left exactly if there is nothing to serve. */
  lemma ServiceLeaves(c: Ctx, k: ServiceCaller)
    ensures ServiceTest(c, k).1 == Service(k, ServeExit) <==> NothingToServe(c)
  {
    Claimable(c.rd);
  }

  function Handed(c: Ctx, x: Irp, n: Nbl): Ctx {
    var c1 := Deref(c);
    Deref(GiveBack(c1.(rd := c1.rd.(served := c1.rd.served + [x])), n))
  }

  /** Reads that wait and are not being cancelled, in list order. */
  function ReadyReads(c: Ctx): seq<Irp> {
    Keep(c.rd.pended, c.rd.routine)
  }

  /** Binding, sends, file objects and lock stay as they were, and so do the other histories of reads. */
  predicate OthersKept(c: Ctx, c': Ctx) {
    c'.b == c.b && c'.tx == c.tx && c'.fs == c.fs && c'.lock == c.lock && c'.leaked == c.leaked
    && c'.rd.byCancel == c.rd.byCancel && c'.rd.byPurge == c.rd.byPurge && c'.rd.byDispatch == c.rd.byDispatch
  }

  /** As many reads as there are both ready reads and packets are served, each with its packet. */
  ghost predicate Serves(c: Ctx, c': Ctx, pairs: seq<(Irp, Nbl)>) {
    var ready, queue := ReadyReads(c), c.rx.queue;
    var m := if |ready| < |queue| then |ready| else |queue|;
    && |pairs| == m && (forall i :: 0 <= i < m ==> pairs[i] == (ready[i], queue[i]))
    && c'.rd.served == c.rd.served + ready[..m] && c'.rx.returned == c.rx.returned + queue[..m]
    && ReadyReads(c') == ready[m..] && c'.rx.queue == queue[m..]
    && c'.refCount == c.refCount - 2 * m && c'.rd.count == c.rd.count - m
    && OthersKept(c, c')
  }

  /** Between two passes: pairs are served, and the next pair is in hand unless the loop is over. */
  ghost predicate Serving(c: Ctx, c': Ctx, pairs: seq<(Irp, Nbl)>, k: ServiceCaller, next: Pc) {
    var ready, queue := ReadyReads(c), c.rx.queue;
    var d := |pairs|;
    && d <= |ready| && d <= |queue| && (forall i :: 0 <= i < d ==> pairs[i] == (ready[i], queue[i]))
    && c'.rd.served == c.rd.served + ready[..d] && c'.rx.returned == c.rx.returned + queue[..d]
    && c'.refCount == c.refCount + 1 - 2 * d && c'.rd.count == c.rd.count - d
    && (forall x :: Count(c'.rd.pended, x) <= 1) && OthersKept(c, c')
    && (if d < |ready| && d < |queue| then
          && next == Service(k, ServeDropNbl(ready[d], queue[d]))
          && ReadyReads(c') == ready[d + 1..] && c'.rx.queue == queue[d + 1..]
        else next == Service(k, ServeExit) && ReadyReads(c') == ready[d..] && c'.rx.queue == queue[d..])
  }

  /** One pass takes the next pair. */
  lemma ServeStep(c: Ctx, c0: Ctx, pairs: seq<(Irp, Nbl)>, k: ServiceCaller)
    requires forall x :: Count(c0.rd.pended, x) <= 1
    requires var ready, queue := ReadyReads(c), c.rx.queue;
             var d := |pairs|;
             && d <= |ready| && d <= |queue| && (forall i :: 0 <= i < d ==> pairs[i] == (ready[i], queue[i]))
             && c0.rd.served == c.rd.served + ready[..d] && c0.rx.returned == c.rx.returned + queue[..d]
             && c0.refCount == c.refCount + 1 - 2 * d && c0.rd.count == c.rd.count - d
             && ReadyReads(c0) == ready[d..] && c0.rx.queue == queue[d..] && OthersKept(c, c0)
    ensures var (c', next) := ServiceTest(c0, k); Serving(c, c', pairs, k, next)
  {
    KeepNone(c0.rd.pended, c0.rd.routine);
    if HasClaimable(c0.rd) {
      KeepClaim(c0.rd.pended, c0.rd.routine);
    }
  }

  lemma ServeBegin(c: Ctx, k: ServiceCaller)
    requires forall x :: Count(c.rd.pended, x) <= 1
    ensures var (c', next) := ServiceTest(Ref(c), k); Serving(c, c', [], k, next)
  {
    ServeStep(c, Ref(c), [], k);
  }

  /** The pair in hand is handed over, and the next pass follows. */
  lemma ServeRound(c: Ctx, c0: Ctx, pairs: seq<(Irp, Nbl)>, k: ServiceCaller, next: Pc)
    requires Serving(c, c0, pairs, k, next) && next != Service(k, ServeExit)
    ensures next.Service? && next.k == k && next.v.ServeDropNbl? && |pairs| < |c.rx.queue|
    ensures var (x, n) := (next.v.irp, next.v.nbl);
            var (c', next') := ActService(Handed(c0, x, n), k, ServeDecrement);
            Serving(c, c', pairs + [(x, n)], k, next')
  {
    var x, n := next.v.irp, next.v.nbl;
    var c1 := Handed(c0, x, n);
    assert ReadyReads(c)[..|pairs| + 1] == ReadyReads(c)[..|pairs|] + [x];
    assert c.rx.queue[..|pairs| + 1] == c.rx.queue[..|pairs|] + [n];
    ServeStep(c, c1.(rd := c1.rd.(count := c1.rd.count - 1)), pairs + [(x, n)], k);
  }

  lemma ServeEnd(c: Ctx, c0: Ctx, pairs: seq<(Irp, Nbl)>, k: ServiceCaller)
    requires Serving(c, c0, pairs, k, Service(k, ServeExit))
    ensures Serves(c, Deref(c0), pairs)
  {
  }

  /** From the claim to the second dereference a pass hands over the pair it has in hand. */
  lemma HandsOver(a: Start, c: Ctx, k: ServiceCaller, x: Irp, n: Nbl)
    requires Does(a, c, Service(k, ServeDropNbl(x, n)))
    ensures Does(a, Handed(c, x, n), Service(k, ServeDecrement))
  {
    hide Does;
    Then(a, c, Service(k, ServeDropNbl(x, n)));
    var c1 := Deref(c);
    Then(a, c1, Service(k, ServeComplete(x, n)));
    var c2 := c1.(rd := c1.rd.(served := c1.rd.served + [x]));
    Then(a, c2, Service(k, ServeFree(n)));
    Then(a, GiveBack(c2, n), Service(k, ServeDropRead));
  }

  /** The service loop pairs the reads that wait, in list order, with the queued packets, oldest first, until
      either runs out, and returns to its caller. */
  lemma ServicePairs(a: Start, c: Ctx, k: ServiceCaller) returns (c': Ctx, pairs: seq<(Irp, Nbl)>)
    requires Does(a, c, Service(k, ServeRef)) && c.lock == None && forall x :: Count(c.rd.pended, x) <= 1
    ensures Does(a, c', AfterService(k)) && Serves(c, c', pairs)
  {
    hide Does, Serves, Serving, ServiceTest;
    Then(a, c, Service(k, ServeRef));
    Then(a, Ref(c), Service(k, ServeTop));
    ServeBegin(c, k);
    var (d, next) := ServiceTest(Ref(c), k);
    c', pairs := ServiceLoops(a, c, d, [], k, next);
  }

  lemma {:induction false} ServiceLoops(a: Start, c: Ctx, d: Ctx, done: seq<(Irp, Nbl)>, k: ServiceCaller, next: Pc)
    returns (c': Ctx, pairs: seq<(Irp, Nbl)>)
    requires Does(a, d, next) && Serving(c, d, done, k, next) && c.lock == None
    ensures Does(a, c', AfterService(k)) && Serves(c, c', pairs)
    decreases |c.rx.queue| - |done|
  {
    hide Does, Serves, Serving, ServiceTest, Handed;
    if next == Service(k, ServeExit) {
      Then(a, d, next);
      ServeEnd(c, d, done, k);
      c', pairs := Deref(d), done;
    } else {
      ServeRound(c, d, done, k, next);
      var x, n := next.v.irp, next.v.nbl;
      HandsOver(a, d, k, x, n);
      var e := Handed(d, x, n);
      ServingLock(c, d, done, k, next);
      Then(a, e, Service(k, ServeDecrement)) by { HandedLock(d, x, n); }
      var (d', next') := ActService(e, k, ServeDecrement);
      c', pairs := ServiceLoops(a, c, d', done + [(x, n)], k, next');
    }
  }

  lemma ServingLock(c: Ctx, d: Ctx, done: seq<(Irp, Nbl)>, k: ServiceCaller, next: Pc)
    requires Serving(c, d, done, k, next)
    ensures d.lock == c.lock
  {
  }

  lemma HandedLock(c: Ctx, x: Irp, n: Nbl)
    ensures Handed(c, x, n).lock == c.lock
  {
  }

  // ---- ndisprotCancelPendingReads ---------------------------------------------------------

  /** Every listed read still has its cancel routine. */
  ghost predicate NoneClaimed(rd: Reads) {
    (forall x :: Count(rd.pended, x) <= 1) && forall x :: x in rd.pended ==> x in rd.routine
  }

  /** All listed reads are completed as cancelled, in list order, each with its count and its reference. */
  function Purged(c: Ctx): Ctx {
    c.(refCount := c.refCount - |c.rd.pended|,
       rd := c.rd.(pended := [], count := c.rd.count - |c.rd.pended|, routine := c.rd.routine - Elements(c.rd.pended),
                   byPurge := c.rd.byPurge + c.rd.pended))
  }

  /** One look at the head: it is taken if there is one. */
  lemma PurgeTakes(c: Ctx, k: PurgeCaller)
    requires NoneClaimed(c.rd)
    ensures var (c', next) := PurgeTest(c, k);
            if c.rd.pended == [] then c' == c && next == Purge(k, PurgeExit)
            else && next == Purge(k, PurgeComplete(c.rd.pended[0]))
                 && c' == c.(rd := c.rd.(pended := c.rd.pended[1..], routine := c.rd.routine - {c.rd.pended[0]}))
                 && NoneClaimed(c'.rd)
  {
    if c.rd.pended != [] {
      var x := c.rd.pended[0];
      CountTail(c.rd.pended);
      CountIn(c.rd.pended[1..], x);
      assert x in c.rd.pended;
    }
  }

  lemma PurgeCancelsAll(a: Start, c: Ctx, k: PurgeCaller)
    requires Does(a, c, Purge(k, PurgeRef)) && c.lock == None && NoneClaimed(c.rd) && c.refCount > |c.rd.pended|
    ensures Does(a, Purged(c), AfterPurge(k))
  {
    hide Does, Purged, NoneClaimed;
    Then(a, c, Purge(k, PurgeRef));
    PurgeLoops(a, Ref(c), Ref(c), k, PurgeTop);
    PurgedRef(c);
    Then(a, Ref(Purged(c)), Purge(k, PurgeExit)) by { PurgedRef(c); }
  }

  function AfterPurge(k: PurgeCaller): Pc {
    match k
    case FromCleanup(f) => Flush(AtCleanup(f), FlushRef)
    case FromShutdown => Control(Drain(ShutReads))
  }

  lemma PurgedRef(c: Ctx)
    requires c.refCount > |c.rd.pended|
    ensures Purged(Ref(c)) == Ref(Purged(c)) && Deref(Ref(Purged(c))) == Purged(c)
  {
  }

  /** c0 is the context before the lock is taken for the next look at the head. */
  lemma {:induction false} PurgeLoops(a: Start, c0: Ctx, c: Ctx, k: PurgeCaller, p: PurgePc)
    requires Does(a, c0, Purge(k, p)) && c0.lock == None
    requires (p == PurgeTop && c == c0) || (p == PurgeDecrement && c == c0.(rd := c0.rd.(count := c0.rd.count - 1)))
    requires NoneClaimed(c.rd) && c.refCount > |c.rd.pended|
    ensures Does(a, Purged(c), Purge(k, PurgeExit))
    decreases |c.rd.pended|
  {
    hide Does, Purged;
    Then(a, c0, Purge(k, p));
    if c.rd.pended == [] {
      PurgedNothing(c);
    } else {
      var x := c.rd.pended[0];
      assert x in c.rd.pended;
      var c1 := c.(rd := c.rd.(pended := Remove(c.rd.pended, x), routine := c.rd.routine - {x}));
      Then(a, c1, Purge(k, PurgeComplete(x)));
      var c2 := c1.(rd := c1.rd.(byPurge := c.rd.byPurge + [x]));
      Then(a, c2, Purge(k, PurgeDrop));
      var c3 := Deref(c2).(rd := c2.rd.(count := c.rd.count - 1));
      PurgedNext(c, c3);
      PurgeLoops(a, Deref(c2), c3, k, PurgeDecrement);
    }
  }

  lemma PurgedNothing(c: Ctx)
    requires c.rd.pended == []
    ensures Purged(c) == c
  {
    assert c.rd.routine - Elements([]) == c.rd.routine;
  }

  lemma PurgedNext(c: Ctx, c': Ctx)
    requires NoneClaimed(c.rd) && c.rd.pended != [] && c.refCount > |c.rd.pended|
    requires var x := c.rd.pended[0];
             c' == Deref(c.(rd := c.rd.(pended := Remove(c.rd.pended, x), routine := c.rd.routine - {x},
                                        byPurge := c.rd.byPurge + [x], count := c.rd.count - 1)))
    ensures NoneClaimed(c'.rd) && c'.rd.pended == c.rd.pended[1..] && Purged(c') == Purged(c)
  {
    var x := c.rd.pended[0];
    CountTail(c.rd.pended);
    CountIn(c.rd.pended[1..], x);
    assert c.rd.pended == [x] + c.rd.pended[1..];
    assert Elements(c.rd.pended) == {x} + Elements(c.rd.pended[1..]);
    assert c'.rd.routine - Elements(c'.rd.pended) == c.rd.routine - Elements(c.rd.pended);
    assert c'.rd.byPurge + c'.rd.pended == c.rd.byPurge + c.rd.pended;
  }

  // ---- ndisprotFlushReceiveQueue --------------------------------------------------------------

  /** The whole queue has been given back, oldest first, each packet with its reference. */
  function Flushed(c: Ctx): Ctx {
    c.(refCount := c.refCount - |c.rx.queue|,
       rx := c.rx.(queue := [], count := c.rx.count - |c.rx.queue|, left := c.rx.left + c.rx.queue,
                   returned := c.rx.returned + c.rx.queue))
  }

  lemma FlushGivesAllBack(a: Start, c: Ctx, k: FlushCaller)
    requires Does(a, c, Flush(k, FlushRef)) && c.lock == None && c.refCount > |c.rx.queue|
    ensures Does(a, Flushed(c), AfterFlush(k))
  {
    hide Does, Flushed;
    Then(a, c, Flush(k, FlushRef));
    FlushLoops(a, Ref(c), k);
    FlushedRef(c);
    Then(a, Ref(Flushed(c)), Flush(k, FlushExit));
  }

  lemma FlushedRef(c: Ctx)
    requires c.refCount > |c.rx.queue|
    ensures Flushed(Ref(c)) == Ref(Flushed(c)) && Deref(Ref(Flushed(c))) == Flushed(c)
  {
  }

  lemma {:induction false} FlushLoops(a: Start, c: Ctx, k: FlushCaller)
    requires Does(a, c, Flush(k, FlushTop)) && c.lock == None && c.refCount > |c.rx.queue|
    ensures Does(a, Flushed(c), Flush(k, FlushExit))
    decreases |c.rx.queue|
  {
    hide Does, Flushed;
    Then(a, c, Flush(k, FlushTop));
    if c.rx.queue == [] {
      FlushedNothing(c);
    } else {
      var n := c.rx.queue[0];
      var c1 := c.(rx := Dequeue(c.rx));
      Then(a, c1, Flush(k, FlushFree(n)));
      Then(a, GiveBack(c1, n), Flush(k, FlushDrop));
      FlushedNext(c);
      FlushLoops(a, Deref(GiveBack(c1, n)), k);
    }
  }

  lemma FlushedNothing(c: Ctx)
    requires c.rx.queue == []
    ensures Flushed(c) == c
  {
  }

  lemma FlushedNext(c: Ctx)
    requires c.rx.queue != [] && c.refCount > |c.rx.queue|
    ensures Flushed(Deref(GiveBack(c.(rx := Dequeue(c.rx)), c.rx.queue[0]))) == Flushed(c)
  {
    var n := c.rx.queue[0];
    assert c.rx.queue == [n] + c.rx.queue[1..];
    assert (c.rx.left + [n]) + c.rx.queue[1..] == c.rx.left + c.rx.queue;
    assert (c.rx.returned + [n]) + c.rx.queue[1..] == c.rx.returned + c.rx.queue;
  }

  // ---- NdisprotReceiveNetBufferLists -------------------------------------------------------------

  /** A packet that comes while the binding pauses or is paused goes straight back: the context is not touched. */
  lemma PausedGivesBack(a: Start, c: Ctx, n: Nbl)
    requires Does(a, c, Receive(n, LookPausing)) && (c.b.state == Pausing || c.b.state == Paused)
    ensures Does(a, GiveBack(c, n), Done)
  {
    hide Does;
    Then(a, c, Receive(n, LookPausing));
    if c.b.state == Paused {
      Then(a, c, Receive(n, LookPaused));
    }
    Then(a, c, Receive(n, GiveUp));
  }

  /** With the reference for the queue the packet comes to the second load of State. */
  lemma PacketToSecondLoad(a: Start, c: Ctx, n: Nbl)
    requires Does(a, c, Receive(n, LookPausing)) && c.b.state != Pausing && c.b.state != Paused && c.lock == None
    ensures Does(a, Ref(c).(lock := Some(ByReceive(n))), Receive(n, QueueAgain))
  {
    hide Does;
    Then(a, c, Receive(n, LookPausing));
    Then(a, c, Receive(n, LookPaused));
    Then(a, c, Receive(n, QueueRef));
    Then(a, Ref(c), Receive(n, QueueLock));
  }

  /** A packet that cannot be taken in goes back with the reference that was taken for it. */
  lemma PacketIsDropped(a: Start, c: Ctx, n: Nbl)
    requires Does(a, c, Receive(n, LookPausing)) && c.b.state != Pausing && c.b.state != Paused && c.lock == None
    requires c.refCount > 0 && !(c.b.bind == BindActive && c.b.d0)
    ensures Does(a, GiveBack(c, n), Done)
  {
    hide Does;
    PacketToSecondLoad(a, c, n);
    Then(a, Ref(c).(lock := Some(ByReceive(n))), Receive(n, QueueAgain));
    Then(a, Ref(c), Receive(n, DropFree));
    Then(a, GiveBack(Ref(c), n), Receive(n, DropDeref));
    assert Deref(GiveBack(Ref(c), n)) == GiveBack(c, n);
  }

  /** Any other packet stands at the tail of the queue, with its reference; when 4096 stood there before, the
      oldest of them goes back for it. Then the service loop runs. */
  lemma PacketIsQueued(a: Start, c: Ctx, n: Nbl)
    requires Does(a, c, Receive(n, LookPausing)) && c.b.state != Pausing && c.b.state != Paused && c.lock == None
    requires c.refCount > 0 && c.b.bind == BindActive && c.b.d0 && c.rx.count == |c.rx.queue|
    ensures var all := c.rx.queue + [n];
            var rx := c.rx.(queue := all, count := c.rx.count + 1, entered := c.rx.entered + [n]);
            if |c.rx.queue| < 4096
            then Does(a, c.(refCount := c.refCount + 1, rx := rx), Service(FromReceive, ServeRef))
            else Does(a, c.(rx := rx.(queue := all[1..], count := c.rx.count, left := c.rx.left + [all[0]],
                                      returned := c.rx.returned + [all[0]])), Service(FromReceive, ServeRef))
  {
    hide Does;
    PacketToSecondLoad(a, c, n);
    Then(a, Ref(c).(lock := Some(ByReceive(n))), Receive(n, QueueAgain));
    var q := Enqueue(c.rx, n);
    if |c.rx.queue| >= 4096 {
      var c1 := Ref(c).(rx := Dequeue(q));
      Then(a, c1, Receive(q.queue[0], TrimFree));
      Then(a, GiveBack(c1, q.queue[0]), Receive(q.queue[0], TrimDeref));
    }
  }

  // ---- A read and a packet ---------------------------------------------------------------------------

  /** A read that comes when a packet is queued and no other read waits is completed with the oldest packet, and
      what it took is given back with both references. */
  lemma ReadMeetsPacket(c: Ctx, o: bool, x: Irp, f: File) returns (c': Ctx)
    requires c.lock == None && c.b.bind == BindActive && x !in c.rd.cancelled && c.rd.pended == [] && c.rx.queue != []
    ensures Does(Start(o, c, Read(x, f, Enter)), c', Done)
    ensures c'.rd.served == c.rd.served + [x] && c'.rx.returned == c.rx.returned + [c.rx.queue[0]]
    ensures c'.rx.queue == c.rx.queue[1..] && c'.refCount == c.refCount - 1 && c'.rd.count == c.rd.count
  {
    hide Does;
    var a := Start(o, c, Read(x, f, Enter));
    Begins(a);
    ReadIsListed(a, c, x, f);
    var d := WithRead(c, x);
    assert d.rd.pended == [x];
    KeepSingle(x, d.rd.routine);
    CountSingle([], x);
    var pairs;
    c', pairs := ServicePairs(a, d, FromRead(x, f));
    assert ReadyReads(d)[..1] == [x] && c.rx.queue[..1] == [c.rx.queue[0]];
  }

  lemma KeepSingle(x: Irp, r: set<Irp>)
    requires x in r
    ensures Keep([x], r) == [x]
  {
    assert [x][1..] == [];
  }

  /** A packet that comes when the queue is empty and a read waits completes the first such read. */
  lemma PacketMeetsRead(c: Ctx, o: bool, n: Nbl) returns (c': Ctx)
    requires c.lock == None && c.b.bind == BindActive && c.b.d0 && c.b.state != Pausing && c.b.state != Paused
    requires c.rx.queue == [] && c.rx.count == 0 && c.refCount > 0
    requires (forall x :: Count(c.rd.pended, x) <= 1) && ReadyReads(c) != []
    ensures Does(Start(o, c, Receive(n, LookPausing)), c', Done)
    ensures c'.rd.served == c.rd.served + [ReadyReads(c)[0]] && c'.rx.returned == c.rx.returned + [n]
    ensures c'.rx.queue == [] && ReadyReads(c') == ReadyReads(c)[1..]
    ensures c'.refCount == c.refCount - 1 && c'.rd.count == c.rd.count - 1
  {
    hide Does;
    var a := Start(o, c, Receive(n, LookPausing));
    Begins(a);
    PacketIsQueued(a, c, n);
    var all := c.rx.queue + [n];
    var d := c.(refCount := c.refCount + 1,
                rx := c.rx.(queue := all, count := c.rx.count + 1, entered := c.rx.entered + [n]));
    assert all == [n];
    var pairs;
    c', pairs := ServicePairs(a, d, FromReceive);
    assert ReadyReads(d) == ReadyReads(c);
    assert ReadyReads(c)[..1] == [ReadyReads(c)[0]] && [n][..1] == [n];
  }

  // ---- NdisprotWrite, NdisprotSendComplete, NdisprotCancelWrite -----------------------------------

  /** Every write that finds the binding ACTIVE, Running and in full power, and a net buffer list, is sent. */
  lemma WriteIsSent(a: Start, c: Ctx, w: Irp, f: File)
    requires Does(a, c, Write(w, f, WriteLock)) && c.lock == None && !a.o
    requires c.b.bind == BindActive && c.b.state == Running && c.b.d0
    ensures Does(a, c.(refCount := c.refCount + 1,
                       tx := c.tx.(pended := c.tx.pended + [w], count := c.tx.count + 1,
                                   routine := c.tx.routine + {w}, stored := c.tx.stored + {w},
                                   went := c.tx.went + {w}, inNdis := c.tx.inNdis + {w})), Done)
  {
    hide Does;
    Then(a, c, Write(w, f, WriteLock));
    Then(a, WriteSection(c, w, f, false).0, Write(w, f, WriteSend));
  }

  lemma WriteIsRefused(a: Start, c: Ctx, w: Irp, f: File)
    requires Does(a, c, Write(w, f, WriteLock)) && c.lock == None
    requires a.o || c.b.bind != BindActive || c.b.state != Running || !c.b.d0
    ensures Does(a, c.(tx := c.tx.(byDispatch := c.tx.byDispatch + [w])), Done)
  {
    hide Does;
    Then(a, c, Write(w, f, WriteLock));
    Then(a, c, Write(w, f, WriteFail));
  }

  /** The send of w is over: unlinked, freed, completed and counted down, with its reference. */
  function SendOver(c: Ctx, w: Irp): Ctx {
    var last := c.b.bind == BindClosing && c.tx.count == 1;
    Deref(c.(tx := c.tx.(routine := c.tx.routine - {w}, stored := c.tx.stored - {w}, pended := Remove(c.tx.pended, w),
                         nblFreed := c.tx.nblFreed + [w], bySendComplete := c.tx.bySendComplete + [w],
                         count := c.tx.count - 1,
                         signalled := c.tx.signalled || last, closingEvent := c.tx.closingEvent && !last)))
  }

  function SendsOver(c: Ctx, ch: seq<Irp>): Ctx
    decreases |ch|
  {
    if ch == [] then c else SendsOver(SendOver(c, ch[0]), ch[1..])
  }

  lemma {:induction false} SendsAreCompleted(a: Start, c: Ctx, ch: seq<Irp>)
    requires Does(a, c, Sent(ch, ClearCancel)) && c.lock == None && ch != []
    ensures Does(a, SendsOver(c, ch), Done)
    decreases |ch|
  {
    hide Does, SendsOver, SendOver;
    SendIsCompleted(a, c, ch);
    OverNext(c, ch);
    if |ch| > 1 {
      SendsAreCompleted(a, SendOver(c, ch[0]), ch[1..]);
    }
  }

  lemma OverNext(c: Ctx, ch: seq<Irp>)
    requires ch != []
    ensures SendsOver(c, ch) == SendsOver(SendOver(c, ch[0]), ch[1..]) && SendOver(c, ch[0]).lock == c.lock
    ensures |ch| == 1 ==> SendsOver(c, ch) == SendOver(c, ch[0])
  {
    assert |ch| == 1 ==> ch[1..] == [];
  }

  lemma SendIsCompleted(a: Start, c: Ctx, ch: seq<Irp>)
    requires Does(a, c, Sent(ch, ClearCancel)) && c.lock == None && ch != []
    ensures Does(a, SendOver(c, ch[0]), if |ch| == 1 then Done else Sent(ch[1..], ClearCancel))
  {
    hide Does;
    var w := ch[0];
    Then(a, c, Sent(ch, ClearCancel));
    var c1 := c.(tx := c.tx.(routine := c.tx.routine - {w}, stored := c.tx.stored - {w}));
    Then(a, c1, Sent(ch, UnlinkWrite));
    var c2 := c1.(tx := c1.tx.(pended := Remove(c.tx.pended, w)));
    Then(a, c2, Sent(ch, FreeSendNbl));
    var c3 := c2.(tx := c2.tx.(nblFreed := c.tx.nblFreed + [w]));
    Then(a, c3, Sent(ch, SentComplete));
    var c4 := c3.(tx := c3.tx.(bySendComplete := c.tx.bySendComplete + [w]));
    Then(a, c4, Sent(ch, SentDecrement));
    Then(a, Uncount(c4), Sent(ch, SentDrop));
  }

  /** What a chain that is completed leaves behind. */
  lemma {:induction false} SendsOverSums(c: Ctx, ch: seq<Irp>)
    ensures var c' := SendsOver(c, ch);
            && c'.tx.bySendComplete == c.tx.bySendComplete + ch && c'.tx.nblFreed == c.tx.nblFreed + ch
            && c'.tx.count == c.tx.count - |ch| && c'.refCount == c.refCount - |ch|
            && c'.b == c.b && c'.rd == c.rd && c'.rx == c.rx && c'.fs == c.fs
            && c'.tx.routine == c.tx.routine - Elements(ch) && c'.tx.stored == c.tx.stored - Elements(ch)
    decreases |ch|
  {
    if ch == [] {
      assert Elements(ch) == {};
    } else {
      SendsOverSums(SendOver(c, ch[0]), ch[1..]);
      assert ch == [ch[0]] + ch[1..];
      assert Elements(ch) == {ch[0]} + Elements(ch[1..]);
    }
  }

  /** The cancel of a write asks NDIS to cancel the send exactly if the write is still listed, and leaves
      nothing behind but the routine that the I/O manager took. */
  lemma CancelAsksNdis(a: Start, c: Ctx, w: Irp)
    requires Does(a, c, CancelWrite(w, CancelWritePc.TakeWriteRoutine)) && c.lock == None && c.refCount > 0
    requires w in c.tx.routine && w in c.tx.stored
    ensures var c' := c.(tx := c.tx.(routine := c.tx.routine - {w}));
            && (Does(a, Ref(c'), CancelWrite(w, CancelSend)) || w !in c.tx.pended)
            && Does(a, Ref(c'), CancelWrite(w, CancelWriteDrop)) && Does(a, c', Done)
  {
    hide Does;
    Then(a, c, CancelWrite(w, CancelWritePc.TakeWriteRoutine));
    var c' := c.(tx := c.tx.(routine := c.tx.routine - {w}));
    Then(a, Ref(c'), CancelWrite(w, FindWrite));
    if w in c.tx.pended {
      Then(a, Ref(c'), CancelWrite(w, CancelSend));
    }
    Then(a, Ref(c'), CancelWrite(w, CancelWriteDrop));
    assert Deref(Ref(c')) == c';
  }

  // ---- The counted OID requests -------------------------------------------------------------------

  /** A request under an ACTIVE binding runs, counted meanwhile, and returns the answer of NDIS; that of an open or a
      cleanup fails where the device is not in full power. */
  lemma RequestReturns(a: Start, c: Ctx, k: RequestCaller)
    requires Does(a, c, Request(k, RequestEnter)) && c.lock == None
    ensures Does(a, c, AfterRequest(k, a.o && c.b.bind == BindActive && (k.ForIoctl? || c.b.d0)))
    ensures c.b.bind == BindActive ==> Does(a, c.(tx := c.tx.(count := c.tx.count + 1)), Request(k, RequestRun))
  {
    hide Does;
    Then(a, c, Request(k, RequestEnter));
    if c.b.bind == BindActive {
      var c1 := c.(tx := c.tx.(count := c.tx.count + 1));
      Then(a, c1, Request(k, RequestRun));
      Then(a, c1, Request(k, RequestLeave(a.o && (k.ForIoctl? || c.b.d0))));
      assert Uncount(c1) == c;
    }
  }

  // ---- ndisprotOpenDevice, NdisprotCleanup ----------------------------------------------------------

  predicate CanOpen(c: Ctx, f: File) {
    c.b.listed && !c.fs.openActive && f !in c.fs.here && f !in c.fs.elsewhere
  }

  /** An open of a free device under an ACTIVE binding in full power ties the file object to the context. */
  lemma OpenTies(a: Start, c: Ctx, f: File)
    requires Does(a, c, OpenDevice(f, Lookup)) && c.lock == None && a.o && CanOpen(c, f)
    requires c.b.bind == BindActive && c.b.d0
    ensures Does(a, c.(refCount := c.refCount + 1,
                       fs := c.fs.(openActive := true, pFileObject := Some(f), here := c.fs.here + {f})), Done)
  {
    hide Does;
    Then(a, c, OpenDevice(f, Lookup));
    Then(a, Ref(c), OpenDevice(f, Associate));
    var fs := c.fs.(openActive := true, pFileObject := Some(f), here := c.fs.here + {f});
    RequestReturns(a, Ref(c).(fs := fs), ForOpen(f));
  }

  /** An open of a device that is open, or with a file object that is in use, or of no device, changes nothing. */
  lemma OpenIsRefused(a: Start, c: Ctx, f: File)
    requires Does(a, c, OpenDevice(f, Lookup)) && c.lock == None && c.refCount > 0 && !(a.o && CanOpen(c, f))
    ensures Does(a, c, Done)
  {
    hide Does;
    Then(a, c, OpenDevice(f, Lookup));
    if c.b.listed && a.o {
      Then(a, Ref(c), OpenDevice(f, Associate));
      Then(a, Ref(c), OpenDevice(f, OpenDrop));
      assert Deref(Ref(c)) == c;
    }
  }

  /** An open whose filter request fails leaves no trace. */
  lemma OpenIsUndone(a: Start, c: Ctx, f: File)
    requires Does(a, c, Request(ForOpen(f), RequestEnter)) && c.lock == None
    requires f in c.fs.here && !(a.o && c.b.bind == BindActive && c.b.d0)
    ensures Does(a, Deref(c.(fs := c.fs.(openActive := false, pFileObject := None, here := c.fs.here - {f}))), Done)
  {
    hide Does;
    RequestReturns(a, c, ForOpen(f));
    Then(a, c, OpenDevice(f, Undo));
    var fs := c.fs.(openActive := false, pFileObject := None, here := c.fs.here - {f});
    Then(a, c.(fs := fs), OpenDevice(f, OpenDrop));
  }

  /** Cleanup frees the device for the next open, completes every listed read and empties the queue, whatever
      becomes of its OID request. */
  lemma CleanupEmpties(a: Start, c: Ctx, f: File)
    requires Does(a, c, Request(ForCleanup(f), RequestEnter)) && c.lock == None && NoneClaimed(c.rd)
    requires c.refCount > |c.rd.pended| + |c.rx.queue|
    ensures var fs := c.fs.(openActive := false, pFileObject := None, cleaned := c.fs.cleaned + {f});
            Does(a, Flushed(Purged(c.(fs := fs))), Done)
  {
    hide Does, Purged, Flushed, NoneClaimed;
    RequestReturns(a, c, ForCleanup(f));
    Then(a, c, CleanupMark(f));
    var c1 := c.(fs := c.fs.(openActive := false, pFileObject := None, cleaned := c.fs.cleaned + {f}));
    PurgeCancelsAll(a, c1, FromCleanup(f));
    PurgedKeeps(c1);
    FlushGivesAllBack(a, Purged(c1), AtCleanup(f));
  }

  /** Close gives back the reference of the file object. */
  lemma CloseDrops(a: Start, c: Ctx)
    requires Does(a, c, CloseDrop)
    ensures Does(a, Deref(c), Done)
  {
    hide Does;
    Then(a, c, CloseDrop);
  }

  /** What Purged and Flushed leave alone. */
  lemma PurgedKeeps(c: Ctx)
    ensures var c' := Purged(c);
            && c'.lock == c.lock && c'.b == c.b && c'.rx == c.rx && c'.tx == c.tx && c'.fs == c.fs
            && c'.refCount == c.refCount - |c.rd.pended| && c'.rd.pended == [] && c'.frees == c.frees
            && c'.rd.count == c.rd.count - |c.rd.pended|
  {
  }

  lemma FlushedKeeps(c: Ctx)
    ensures var c' := Flushed(c);
            && c'.lock == c.lock && c'.b == c.b && c'.rd == c.rd && c'.tx == c.tx && c'.fs == c.fs
            && c'.refCount == c.refCount - |c.rx.queue| && c'.rx.queue == [] && c'.frees == c.frees
  {
  }

  // ---- ndisprotCreateBinding ---------------------------------------------------------------------------

  /** A bind in which every step succeeds ends listed, ACTIVE, Paused and in full power, with all resources and
      the one reference of the binding. */
  lemma BindEnds(a: Start, c: Ctx)
    requires Does(a, c, Control(Bind(BindRef))) && c.lock == None && a.o && c.refCount >= 0
    ensures Does(a, c.(refCount := c.refCount + 1,
                       b := Binding(BindActive, c.b.unbindReceived, Paused, false, true, true, true, true, true,
                                    true, true, true)), Control(Bound))
  {
    hide Does;
    BindToResources(a, c);
    var c4 := c.(refCount := c.refCount + 2,
                 b := c.b.(bound := true, listed := true, state := Initializing, bind := BindOpening));
    Then(a, c4, Control(Resource(BindName)));
    var c5 := c4.(b := c4.b.(name := true));
    Then(a, c5, Control(Resource(BindSendPool)));
    var c6 := c5.(b := c5.b.(sendPool := true));
    Then(a, c6, Control(Resource(BindRecvPool)));
    var c7 := c6.(b := c6.b.(recvPool := true, d0 := true));
    Then(a, c7, Control(Resource(BindAdapter)));
    BindFinishes(a, c7.(b := c7.b.(adapter := true, handle := true)));
  }

  lemma BindToResources(a: Start, c: Ctx)
    requires Does(a, c, Control(Bind(BindRef))) && c.lock == None
    ensures Does(a, c.(refCount := c.refCount + 2,
                       b := c.b.(bound := true, listed := true, state := Initializing, bind := BindOpening)),
                 Control(Resource(BindName)))
  {
    hide Does;
    Then(a, c, Control(Bind(BindRef)));
    var c1 := c.(refCount := c.refCount + 1, b := c.b.(bound := true));
    Then(a, c1, Control(Bind(BindList)));
    var c2 := c1.(b := c1.b.(listed := true));
    Then(a, c2, Control(Bind(BindHold)));
    var c3 := c2.(refCount := c.refCount + 2, b := c2.b.(state := Initializing));
    Then(a, c3, Control(Bind(BindStart)));
  }

  lemma BindFinishes(a: Start, c: Ctx)
    requires Does(a, c, Control(Bind(BindPaused))) && c.lock == None && c.refCount > 1
    ensures Does(a, c.(refCount := c.refCount - 1, b := c.b.(state := Paused, raced := false, bind := BindActive)),
                 Control(Bound))
  {
    hide Does;
    Then(a, c, Control(Bind(BindPaused)));
    var c1 := c.(b := c.b.(state := Paused, raced := false));
    Then(a, c1, Control(Bind(BindActivate)));
    Then(a, c1.(b := c1.b.(bind := BindActive)), Control(Bind(BindRelease)));
  }

  /** Whichever of its steps fails, a bind ends unlisted and FAILED, with what it had released and both of its
      references given back. */
  lemma BindIsUndone(a: Start, c: Ctx, rp: ResourcePc)
    requires Does(a, c, Control(Resource(rp))) && c.lock == None && !a.o && c.b.bind == BindOpening
    ensures Does(a, Deref(Deref(c.(b := c.b.(bind := BindFailed, listed := false, bound := false,
                                             name := false, sendPool := false, recvPool := false)))), Control(Gone))
  {
    hide Does;
    Then(a, c, Control(Resource(rp)));
    Then(a, c, Control(Bind(BindFail)));
    var c1 := c.(b := c.b.(bind := BindFailed));
    Then(a, c1, Control(Unbind(ShutLock(true))));
    UndoReleases(a, c1);
  }

  lemma UndoReleases(a: Start, c1: Ctx)
    requires Does(a, c1, Control(Release(ShutUnlist, true)))
    ensures Does(a, Deref(Deref(c1.(b := c1.b.(listed := false, bound := false,
                                               name := false, sendPool := false, recvPool := false)))), Control(Gone))
  {
    hide Does;
    Then(a, c1, Control(Release(ShutUnlist, true)));
    var c2 := c1.(b := c1.b.(listed := false));
    UndoReleasesLast(a, c2);
  }

  lemma UndoReleasesLast(a: Start, c2: Ctx)
    requires Does(a, c2, Control(Release(ShutFree, true)))
    ensures Does(a, Deref(Deref(c2.(b := c2.b.(bound := false, name := false, sendPool := false, recvPool := false)))),
                 Control(Gone))
  {
    hide Does;
    Then(a, c2, Control(Release(ShutFree, true)));
    var c3 := c2.(b := c2.b.(name := false, sendPool := false, recvPool := false));
    Then(a, c3, Control(Release(ShutRelease, true)));
    Then(a, Deref(c3.(b := c3.b.(bound := false))), Control(Release(BindFailRelease, true)));
  }

  // ---- ndisprotShutdownBinding ---------------------------------------------------------------------------

  function Closing(c: Ctx): Ctx {
    c.(b := c.b.(unbindReceived := true, state := OpenState.Closing, bind := BindClosing))
  }

  lemma UnbindToTest(a: Start, c: Ctx)
    requires Does(a, c, Control(Unbind(UnbindMark))) && c.lock == None && c.b.bind == BindActive
    ensures var tx := if c.tx.count != 0 then c.tx.(closingEvent := true, signalled := false)
                      else c.tx.(closingEvent := false);
            Does(a, Closing(c).(tx := tx), Control(Drain(ShutTest)))
  {
    hide Does, ActUnbind;
    Then(a, c, Control(Unbind(UnbindMark)));
    UnbindSteps(c);
    var c1 := c.(b := c.b.(unbindReceived := true));
    Then(a, c1, Control(Unbind(UnbindState)));
    var c2 := c1.(b := c1.b.(state := OpenState.Closing));
    Then(a, c2, Control(Unbind(ShutLock(false))));
    ClosingStep(c, c2);
    var tx := if c.tx.count != 0 then c.tx.(closingEvent := true, signalled := false)
              else c.tx.(closingEvent := false);
    Then(a, Closing(c).(tx := tx), Control(Drain(ShutRequests)));
  }

  lemma UnbindSteps(c: Ctx)
    ensures ActUnbind(c, UnbindMark) == (c.(b := c.b.(unbindReceived := true)), Control(Unbind(UnbindState)))
    ensures var c1 := c.(b := c.b.(unbindReceived := true));
            ActUnbind(c1, UnbindState)
            == (c1.(b := c1.b.(state := OpenState.Closing)), Control(Unbind(ShutLock(false))))
  {
  }

  lemma ClosingStep(c: Ctx, c2: Ctx)
    requires c2 == c.(b := c.b.(unbindReceived := true, state := OpenState.Closing)) && c.b.bind == BindActive
    ensures var tx := if c.tx.count != 0 then c.tx.(closingEvent := true, signalled := false)
                      else c.tx.(closingEvent := false);
            ActUnbind(c2, ShutLock(false)) == (Closing(c).(tx := tx), Control(Drain(ShutRequests)))
  {
  }

  /** While something is counted, shutdown waits on a fresh event. */
  lemma UnbindWaits(a: Start, c: Ctx)
    requires Does(a, c, Control(Unbind(UnbindMark))) && c.lock == None && c.b.bind == BindActive && c.tx.count != 0
    ensures var c' := Closing(c).(tx := c.tx.(closingEvent := true, signalled := false));
            Does(a, c', Control(Drain(ShutWait))) && !Enabled(c', Control(Drain(ShutWait)))
  {
    hide Does;
    UnbindToTest(a, c);
    var c' := Closing(c).(tx := c.tx.(closingEvent := true, signalled := false));
    Then(a, c', Control(Drain(ShutTest)));
    Then(a, c', Control(Drain(ShutLoad)));
  }

  /** The context after an unbind: every listed read completed, the queue given back, the adapter closed, everything
      released, and the reference of the binding given back. */
  function Unbound(c: Ctx): Ctx {
    Deref(Flushed(Purged(c)).(b := Binding(BindIdle, false, c.b.state, c.b.raced, c.b.d0, false, false, false,
                                           false, false, false, false)))
  }

  lemma DrainEnds(a: Start, c: Ctx)
    requires Does(a, c, Control(Drain(ShutReads))) && c.lock == None
    requires NoneClaimed(c.rd) && c.rd.count == |c.rd.pended| && c.refCount > |c.rd.pended| + |c.rx.queue|
    ensures Does(a, Unbound(c), Control(Gone))
  {
    hide Does, Purged, Flushed, NoneClaimed;
    UnbindPurges(a, c);
    PurgedKeeps(c);
    FlushGivesAllBack(a, Purged(c), AtShutdown);
    FlushedKeeps(Purged(c));
    UnbindReleases(a, Flushed(Purged(c)));
  }

  /** When nothing is counted, an unbind goes through to the end without waiting. */
  lemma UnbindEnds(a: Start, c: Ctx)
    requires Does(a, c, Control(Unbind(UnbindMark))) && c.lock == None && c.b.bind == BindActive && c.tx.count == 0
    requires NoneClaimed(c.rd) && c.rd.count == |c.rd.pended| && c.refCount > |c.rd.pended| + |c.rx.queue|
    requires !c.tx.closingEvent
    ensures Does(a, Unbound(Closing(c)), Control(Gone))
  {
    hide Does, Unbound, NoneClaimed;
    UnbindToTest(a, c);
    Then(a, Closing(c), Control(Drain(ShutTest)));
    DrainEnds(a, Closing(c));
  }

  /** A shutdown that waits goes through to the end once its event is signalled. */
  lemma UnbindResumes(a: Start, c: Ctx)
    requires Does(a, c, Control(Drain(ShutWait))) && c.lock == None && c.tx.signalled
    requires NoneClaimed(c.rd) && c.rd.count == |c.rd.pended| && c.refCount > |c.rd.pended| + |c.rx.queue|
    ensures Does(a, Unbound(c), Control(Gone))
  {
    hide Does, Unbound, NoneClaimed;
    Then(a, c, Control(Drain(ShutWait)));
    DrainEnds(a, c);
  }

  lemma UnbindPurges(a: Start, c: Ctx)
    requires Does(a, c, Control(Drain(ShutReads))) && c.lock == None
    requires NoneClaimed(c.rd) && c.rd.count == |c.rd.pended| && c.refCount > |c.rd.pended|
    ensures Does(a, Purged(c), Flush(AtShutdown, FlushRef))
  {
    hide Does, Purged, NoneClaimed;
    Then(a, c, Control(Drain(ShutReads)));
    if c.rd.count == 0 {
      PurgedNothing(c);
    } else {
      PurgeCancelsAll(a, c, FromShutdown);
      PurgedKeeps(c);
      Then(a, Purged(c), Control(Drain(ShutReads)));
    }
  }

  lemma UnbindReleases(a: Start, c: Ctx)
    requires Does(a, c, Control(Drain(ShutClose))) && c.lock == None
    ensures Does(a, Deref(c.(b := Binding(BindIdle, false, c.b.state, c.b.raced, c.b.d0, false, false, false,
                                          false, false, false, false))), Control(Gone))
  {
    hide Does;
    Then(a, c, Control(Drain(ShutClose)));
    var c1 := c.(b := c.b.(adapter := false));
    Then(a, c1, Control(Release(ShutHandle, false)));
    var c2 := c1.(b := c1.b.(handle := false));
    Then(a, c2, Control(Release(ShutIdle, false)));
    UnbindUnlists(a, c2.(b := c2.b.(bind := BindIdle, unbindReceived := false)));
  }

  lemma UnbindUnlists(a: Start, c3: Ctx)
    requires Does(a, c3, Control(Release(ShutUnlist, false)))
    ensures Does(a, Deref(c3.(b := c3.b.(listed := false, bound := false,
                                         name := false, sendPool := false, recvPool := false))), Control(Gone))
  {
    hide Does;
    Then(a, c3, Control(Release(ShutUnlist, false)));
    var c4 := c3.(b := c3.b.(listed := false));
    Then(a, c4, Control(Release(ShutFree, false)));
    var c5 := c4.(b := c4.b.(name := false, sendPool := false, recvPool := false));
    Then(a, c5, Control(Release(ShutRelease, false)));
  }

  // ---- Pause, restart, power -----------------------------------------------------------------------------

  lemma PauseFlushes(a: Start, c: Ctx)
    requires Does(a, c, Flush(AtPause, FlushRef)) && c.lock == None && c.refCount > |c.rx.queue|
    ensures Does(a, Flushed(c).(b := c.b.(state := Paused, raced := false)), Control(Bound))
  {
    hide Does, Flushed;
    FlushGivesAllBack(a, c, AtPause);
    FlushedKeeps(c);
    Then(a, Flushed(c), Control(Event(PauseDone)));
  }

  /** A pause with nothing counted empties the queue and ends Paused. */
  lemma PauseEnds(a: Start, c: Ctx)
    requires Does(a, c, Control(Event(PauseLock))) && c.lock == None && c.tx.count == 0 && c.refCount > |c.rx.queue|
    ensures var c' := Flushed(c); Does(a, c'.(b := c.b.(state := Paused, raced := false)), Control(Bound))
  {
    hide Does, Flushed;
    Then(a, c, Control(Event(PauseLock)));
    var c1 := c.(b := c.b.(state := Pausing));
    PauseFlushes(a, c1);
    PausingApart(c);
  }

  /** A pause that waits does the same once nothing is counted any more. */
  lemma PauseResumes(a: Start, c: Ctx)
    requires Does(a, c, Control(Event(PauseWait))) && c.lock == None && c.tx.count == 0 && c.refCount > |c.rx.queue|
    ensures var c' := Flushed(c); Does(a, c'.(b := c.b.(state := Paused, raced := false)), Control(Bound))
  {
    hide Does, Flushed;
    Then(a, c, Control(Event(PauseWait)));
    PauseFlushes(a, c);
  }

  lemma PausingApart(c: Ctx)
    ensures Flushed(c.(b := c.b.(state := Pausing))) == Flushed(c).(b := c.b.(state := Pausing))
  {
  }

  /** While something is counted, pause waits in the state Pausing, whatever it does itself. */
  lemma PauseWaits(a: Start, c: Ctx)
    requires Does(a, c, Control(Event(PauseLock))) && c.lock == None && c.tx.count != 0
    ensures var c' := c.(b := c.b.(state := Pausing));
            && Does(a, c', Control(Event(PauseWait)))
            && Act(c', Control(Event(PauseWait)), a.o) == (c', Control(Event(PauseWait)))
  {
    hide Does;
    Then(a, c, Control(Event(PauseLock)));
  }

  lemma RestartRuns(a: Start, c: Ctx)
    requires Does(a, c, Control(Event(Restart)))
    ensures Does(a, c.(b := c.b.(state := Running)), Control(Bound))
  {
    hide Does;
    Then(a, c, Control(Event(Restart)));
  }

  /** After a power-up the device is in D0 and nothing else has changed; after a power-down it is not, and the
      queue is empty. */
  lemma PowerIsSet(a: Start, c: Ctx, toD0: bool)
    requires Does(a, c, Control(Event(SetPower(toD0)))) && c.lock == None && c.refCount > |c.rx.queue|
    ensures var c' := c.(b := c.b.(d0 := toD0)); Does(a, if toD0 then c' else Flushed(c'), Control(Bound))
  {
    hide Does, Flushed;
    Then(a, c, Control(Event(SetPower(toD0))));
    if !toD0 {
      FlushGivesAllBack(a, c.(b := c.b.(d0 := false)), AtPowerDown);
    }
  }
}
