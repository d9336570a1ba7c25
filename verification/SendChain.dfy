/** NdisprotSendComplete on the heap: the walk along a chain of completed net buffer lists. */
module SendChain {

  datatype Outcome = Success(information: nat) | Unsuccessful

  /** A net buffer list that NdisprotWrite has sent, with the context that it keeps in it. Once
      freed, its memory may hold anything: reading it is then excluded by precondition. */
  class SendNbl {
    var next: SendNbl?
    var refCount: int
    var freed: bool
    const irp: nat
    const writeLength: nat
    const succeeded: bool

    /** NdisprotWrite allocates it with a reference count of one. */
    constructor (irp: nat, writeLength: nat, succeeded: bool)
      ensures refCount == 1 && !freed && next == null
      ensures this.irp == irp && this.writeLength == writeLength && this.succeeded == succeeded
    {
      this.irp, this.writeLength, this.succeeded := irp, writeLength, succeeded;
      refCount, freed, next := 1, false, null;
    }

    method Next() returns (n: SendNbl?)
      requires !freed
      ensures n == next
    {
      n := next;
    }

    method Irp() returns (x: nat)
      requires !freed
      ensures x == irp
    {
      x := irp;
    }

    method Status() returns (s: bool)
      requires !freed
      ensures s == succeeded
    {
      s := succeeded;
    }

    /** NPROT_DEREF_SEND_NBL; what the links hold after the free is not known. */
    method Deref()
      requires !freed
      modifies this
      ensures refCount == old(refCount) - 1
      ensures freed <==> refCount == 0
      ensures !freed ==> next == old(next)
    {
      refCount := refCount - 1;
      if refCount == 0 {
        freed := true;
        next := *;
      }
    }
  }

  function At(s: seq<SendNbl>, i: nat): SendNbl? {
    if i < |s| then s[i] else null
  }

  /** From position i on the chain is linked, allocated, and holds one reference each. */
  ghost predicate Sent(s: seq<SendNbl>, i: nat)
    reads set n | n in s
  {
    forall j :: i <= j < |s| ==> s[j].next == At(s, j + 1) && !s[j].freed && s[j].refCount == 1
  }

  predicate Distinct(s: seq<SendNbl>) {
    forall i, j :: 0 <= i < j < |s| ==> s[i] != s[j]
  }

  function OutcomeOf(n: SendNbl): Outcome {
    if n.succeeded then Success(n.writeLength) else Unsuccessful
  }

  /** One turn of the walk, at position k. */
  method CompleteAt(cur: SendNbl, ghost chain: seq<SendNbl>, ghost k: nat)
    returns (next: SendNbl?, done: (nat, Outcome))
    requires k < |chain| && cur == chain[k] && Sent(chain, k) && Distinct(chain)
    modifies cur
    ensures next == At(chain, k + 1) && done == (cur.irp, OutcomeOf(cur))
    ensures cur.freed && Sent(chain, k + 1)
  {
    next := cur.Next();
    var irp := cur.Irp();
    var succeeded := cur.Status();
    var length := cur.writeLength;
    cur.Deref();
    done := (irp, if succeeded then Success(length) else Unsuccessful);
  }

  /** Completes the write IRP of every net buffer list of the chain, in chain order, with the
      status of its own net buffer list, and frees every net buffer list. */
  method SendComplete(first: SendNbl?, ghost chain: seq<SendNbl>) returns (completed: seq<(nat, Outcome)>)
    requires first == At(chain, 0) && Sent(chain, 0) && Distinct(chain)
    modifies set n | n in chain
    ensures |completed| == |chain|
    ensures forall i :: 0 <= i < |chain| && chain[i].succeeded ==>
              completed[i] == (chain[i].irp, Success(chain[i].writeLength))
    ensures forall i :: 0 <= i < |chain| && !chain[i].succeeded ==> completed[i] == (chain[i].irp, Unsuccessful)
    ensures forall i :: 0 <= i < |chain| ==> chain[i].freed
  {
    hide Sent;
    completed := [];
    var cur := first;
    while cur != null
      invariant |completed| <= |chain| && cur == At(chain, |completed|) && Sent(chain, |completed|)
      invariant forall i :: 0 <= i < |completed| ==> completed[i] == (chain[i].irp, OutcomeOf(chain[i]))
      invariant forall i :: 0 <= i < |completed| ==> chain[i].freed
      decreases |chain| - |completed|
    {
      var next, done := CompleteAt(cur, chain, |completed|);
      completed := completed + [done];
      cur := next;
    }
  }
}
