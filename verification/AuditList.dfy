/** The list of live allocations that the debug build keeps: doubly linked, with
    removal of any member. */
module AuditList {

  /** NPROTD_ALLOCATION: the header in front of every block. */
  class Allocation {
    var next: Allocation?
    var prev: Allocation?
    /** The signature word holds NPROTD_MEMORY_SIGNATURE. */
    var signed: bool
    const size: nat

    constructor (size: nat)
      ensures this.size == size && signed && next == null && prev == null
    {
      this.size := size;
      signed, next, prev := true, null, null;
    }
  }

  function At(s: seq<Allocation>, i: int): Allocation? {
    if 0 <= i < |s| then s[i] else null
  }

  predicate Distinct(s: seq<Allocation>) {
    forall i, j :: 0 <= i < j < |s| ==> s[i] != s[j]
  }

  function Members(s: seq<Allocation>): set<Allocation> {
    set n | n in s
  }

  function Without(s: seq<Allocation>, i: nat): seq<Allocation>
    requires i < |s|
  {
    s[..i] + s[i + 1..]
  }

  /** Every member of s but s[gap] leads forward to the next member but s[gap]. */
  ghost predicate Forward(s: seq<Allocation>, gap: int)
    reads Members(s)`next
  {
    forall j :: 0 <= j < |s| && j != gap ==> s[j].next == (if j + 1 == gap then At(s, j + 2) else At(s, j + 1))
  }

  ghost predicate Backward(s: seq<Allocation>, gap: int)
    reads Members(s)`prev
  {
    forall j :: 0 <= j < |s| && j != gap ==> s[j].prev == (if j - 1 == gap then At(s, j - 2) else At(s, j - 1))
  }

  ghost predicate Signed(s: seq<Allocation>, gap: int)
    reads Members(s)`signed
  {
    forall j :: 0 <= j < |s| && j != gap ==> s[j].signed
  }

  /** No member is skipped. */
  const NO_GAP := -2

  lemma ForwardWithout(s: seq<Allocation>, i: nat)
    requires i < |s| && Forward(s, i)
    ensures Forward(Without(s, i), NO_GAP)
  {
    var r := Without(s, i);
    forall j | 0 <= j < |r| ensures r[j].next == At(r, j + 1) {
      assert r[j] == s[if j < i then j else j + 1];
    }
  }

  lemma BackwardWithout(s: seq<Allocation>, i: nat)
    requires i < |s| && Backward(s, i)
    ensures Backward(Without(s, i), NO_GAP)
  {
    var r := Without(s, i);
    forall j | 0 <= j < |r| ensures r[j].prev == At(r, j - 1) {
      assert r[j] == s[if j < i then j else j + 1];
    }
  }

  lemma SignedWithout(s: seq<Allocation>, i: nat)
    requires i < |s| && Signed(s, i) && Distinct(s)
    ensures Signed(Without(s, i), NO_GAP) && Distinct(Without(s, i))
    ensures Members(Without(s, i)) == Members(s) - {s[i]}
  {
    var r := Without(s, i);
    forall j | 0 <= j < |r| ensures r[j].signed {
      assert r[j] == s[if j < i then j else j + 1];
    }
    forall n | n in Members(s) - {s[i]} ensures n in r {
      var k :| 0 <= k < |s| && s[k] == n;
      assert r[if k < i then k else k - 1] == n;
    }
  }

  lemma Neighbours(s: seq<Allocation>, i: nat)
    requires i < |s| && Forward(s, NO_GAP) && Backward(s, NO_GAP)
    ensures s[i].next == At(s, i + 1) && s[i].prev == At(s, i - 1)
  {
  }

  /** The members of s lead forward to each other, and the last one to n. */
  ghost predicate LeadsTo(s: seq<Allocation>, n: Allocation)
    reads Members(s)`next
  {
    forall j :: 0 <= j < |s| ==> s[j].next == (if j + 1 == |s| then n else s[j + 1])
  }

  lemma Appended(s: seq<Allocation>, n: Allocation)
    requires Distinct(s) && n !in s && n.next == null && n.prev == At(s, |s| - 1)
    requires LeadsTo(s, n)
    requires Backward(s, NO_GAP) && Signed(s, NO_GAP) && n.signed
    ensures var r := s + [n]; Distinct(r) && Forward(r, NO_GAP) && Backward(r, NO_GAP) && Signed(r, NO_GAP)
  {
    var r := s + [n];
    assert r[|s|] == n;
    forall j | 0 <= j < |r| ensures r[j].next == At(r, j + 1) {
      if j < |s| {
        assert r[j] == s[j];
        assert s[j].next == if j == |s| - 1 then n else s[j + 1];
      }
    }
    forall j | 0 <= j < |r| ensures r[j].prev == At(r, j - 1) {
      assert j < |s| ==> r[j] == s[j] && s[j].prev == At(s, j - 1);
      assert 0 <= j - 1 ==> r[j - 1] == s[j - 1];
    }
    forall j | 0 <= j < |r| ensures r[j].signed {
      assert j < |s| ==> r[j] == s[j];
    }
  }

  class Audit {
    var head: Allocation?
    var tail: Allocation?
    var allocCount: int
    var initDone: bool
    /** The live allocations, oldest first. */
    ghost var live: seq<Allocation>

    ghost predicate Valid()
      reads this, Members(live)
    {
      && Distinct(live) && Forward(live, NO_GAP) && Backward(live, NO_GAP) && Signed(live, NO_GAP)
      && head == At(live, 0) && tail == At(live, |live| - 1)
      && allocCount == |live|
      && (!initDone ==> live == [])
    }

    constructor ()
      ensures Valid() && live == []
    {
      head, tail, allocCount, initDone := null, null, 0, false;
      live := [];
    }

    /** The last block leads to the new one, which leads back to it. */
    method LinkLast(n: Allocation)
      requires Distinct(live) && Forward(live, NO_GAP) && head == At(live, 0) && tail == At(live, |live| - 1)
          && n !in live
      modifies `head, `tail, n`prev, Members(live)`next
      ensures n.prev == At(live, |live| - 1) && n.next == old(n.next)
      ensures LeadsTo(live, n)
      ensures head == (if live == [] then n else live[0]) && tail == n
    {
      n.prev := tail;
      if tail == null {
        head, tail := n, n;
      } else {
        tail.next := n;
      }
      tail := n;
    }

    /** Links a new block behind the last one. */
    method Append(n: Allocation)
      requires Valid() && n !in live && n.next == null && n.signed
      modifies `head, `tail, n`prev, Members(live)`next
      ensures var r := live + [n];
              && Distinct(r) && Forward(r, NO_GAP) && Backward(r, NO_GAP) && Signed(r, NO_GAP)
              && head == At(r, 0) && tail == At(r, |r| - 1)
    {
      hide Forward, Backward, Signed, Distinct;
      LinkLast(n);
      Appended(live, n);
    }

    /** ndisprotAuditAllocMem; memory says that the pool had room. */
    method Alloc(size: nat, memory: bool) returns (a: Allocation?)
      requires Valid()
      modifies this, Members(live)
      ensures Valid()
      ensures memory <==> a != null
      ensures a == null ==> live == old(live)
      ensures a != null ==> fresh(a) && a.size == size && live == old(live) + [a]
    {
      hide Forward, Backward, Signed, Distinct;
      if !initDone {
        initDone := true;
      }
      if !memory {
        return null;
      }
      var n := new Allocation(size);
      Append(n);
      allocCount := allocCount + 1;
      live := live + [n];
      a := n;
    }

    /** The forward links, and the head, pass over the block at position i. */
    method SkipForward(a: Allocation, ghost i: nat)
      requires Distinct(live) && Forward(live, NO_GAP) && i < |live| && live[i] == a && a.prev == At(live, i - 1)
      requires head == At(live, 0)
      modifies `head, Members(live)`next
      ensures Forward(live, i) && a.next == old(a.next)
      ensures head == At(live, if i == 0 then 1 else 0)
    {
      if a.prev != null {
        a.prev.next := a.next;
      } else {
        head := a.next;
      }
    }

    /** The backward links, and the tail, pass over it. */
    method SkipBackward(a: Allocation, ghost i: nat)
      requires Distinct(live) && Backward(live, NO_GAP) && i < |live| && live[i] == a && a.next == At(live, i + 1)
      requires tail == At(live, |live| - 1)
      modifies `tail, Members(live)`prev
      ensures Backward(live, i)
      ensures tail == At(live, if i == |live| - 1 then i - 1 else |live| - 1)
    {
      assert a.prev == At(live, i - 1);
      if a.next != null {
        a.next.prev := a.prev;
      } else {
        tail := a.prev;
      }
    }

    method Unsign(a: Allocation, ghost i: nat)
      requires Distinct(live) && Signed(live, NO_GAP) && i < |live| && live[i] == a
      modifies a`signed
      ensures Signed(live, i) && !a.signed
    {
      a.signed := false;
    }

    /** Takes the block at position i out of both chains. */
    method Unlink(a: Allocation, ghost i: nat)
      requires Valid() && i < |live| && live[i] == a
      modifies `head, `tail, Members(live)
      ensures var r := Without(live, i);
              && Distinct(r) && Forward(r, NO_GAP) && Backward(r, NO_GAP) && Signed(r, NO_GAP)
              && head == At(r, 0) && tail == At(r, |r| - 1) && Members(r) == Members(live) - {a}
      ensures !a.signed
    {
      hide Forward, Backward, Signed, Distinct;
      Neighbours(live, i);
      Unsign(a, i);
      SkipForward(a, i);
      SkipBackward(a, i);
      ForwardWithout(live, i);
      BackwardWithout(live, i);
      SignedWithout(live, i);
    }

    /** ndisprotAuditFreeMem. A block that is not signed is reported and left alone. */
    method Free(a: Allocation) returns (unknown: bool, ghost i: nat)
      requires Valid() && (a.signed ==> a in live)
      modifies this, Members(live)
      ensures Valid() && initDone == old(initDone)
      ensures unknown <==> !old(a.signed)
      ensures unknown ==> live == old(live)
      ensures !unknown ==> !a.signed && i < |old(live)| && old(live)[i] == a && live == Without(old(live), i)
      ensures Members(live) <= Members(old(live))
    {
      hide Forward, Backward, Signed, Distinct;
      i := 0;
      if !a.signed {
        return true, 0;
      }
      i :| i < |live| && live[i] == a;
      Unlink(a, i);
      allocCount := allocCount - 1;
      live := Without(live, i);
      unknown := false;
    }

    /** ndisprotAuditShutdown frees whatever is left; the result is the number of blocks it reports. */
    method Shutdown() returns (leaked: int)
      requires Valid()
      modifies this, Members(live)
      ensures Valid() && live == [] && head == null && tail == null && allocCount == 0 && !initDone
      ensures leaked == |old(live)|
      ensures forall a :: a in old(live) ==> !a.signed
    {
      leaked := 0;
      if initDone {
        leaked := allocCount;
        if allocCount != 0 {
          while head != null
            invariant Valid() && initDone
            invariant Members(live) <= Members(old(live))
            invariant forall a :: a in Members(old(live)) - Members(live) ==> !a.signed
            decreases |live|
          {
            var unknown, i := Free(head);
          }
        }
        initDone := false;
      }
    }
  }
}
