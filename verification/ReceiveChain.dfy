/** NdisprotReceiveNetBufferLists on the heap: which net buffer lists of an
    indication are handed to the receive queue, which are copied, and which go
    back to the miniport on the chain that the loop relinks in place. */
module ReceiveChain {

  const ETH_HEADER_LENGTH := 14
  const TAG_LENGTH := 4
  const NPROT_8021P_TAG_TYPE := 0x0081
  const ULONG_MODULUS := 0x1_0000_0000

  /** The first MDL of a net buffer list as NdisQueryMdl shows it. */
  datatype FirstMdl = NoMdl | Unmapped | Mapped(length: nat, ethType: nat)

  class Nbl {
    var next: Nbl?
    /** The flag NPROT_ALLOCATED_NBL: a private copy of the driver. */
    var localCopy: bool
    const loopback: bool
    const mdl: FirstMdl
    const offset: nat
    /** The net buffer list that a private copy was made of. */
    const original: Nbl?

    /** ndisprotAllocateReceiveNetBufferList, and the flag that its caller sets. */
    constructor Copy(n: Nbl)
      ensures next == null && localCopy && original == n && loopback == n.loopback && mdl == n.mdl && offset == 0
    {
      loopback, mdl, offset, original := n.loopback, n.mdl, 0, n;
      next, localCopy := null, true;
    }
  }

  /** What the driver has done so far: the net buffer lists handed to ndisprotQueueReceiveNetBufferList,
      each with its flag, the private copies made, those freed, and the originals given back alone. */
  datatype Log = Log(handed: seq<(Nbl, bool)>, made: seq<Nbl>, freed: seq<Nbl>, returned: seq<Nbl>)

  class ReceivePath {
    ghost var log: Log
  }

  /** What the loop meets outside the net buffer lists: whether the list of reads is empty at that
      moment, and whether the private copy can be allocated and filled. */
  datatype Luck = Luck(noReadIrp: bool, copyAllocated: bool, copyFilled: bool)

  // ---- What happens to one net buffer list ------------------------------------------

  /** It passes the tests: no loopback, and a first buffer that holds an Ethernet header and,
      if there is one, the tag. The length is a ULONG. */
  predicate Interesting(n: Nbl) {
    && !n.loopback && n.mdl.Mapped? && n.mdl.length != 0
    && var length := (n.mdl.length - n.offset) % ULONG_MODULUS;
    && length >= ETH_HEADER_LENGTH
    && (n.mdl.ethType == NPROT_8021P_TAG_TYPE ==> length >= ETH_HEADER_LENGTH + TAG_LENGTH)
  }

  /** The driver keeps the original and queues it. */
  predicate Keeps(n: Nbl, canPend: bool, l: Luck) {
    Interesting(n) && canPend && !l.noReadIrp
  }

  /** The driver queues a private copy. */
  predicate Copies(n: Nbl, canPend: bool, l: Luck) {
    Interesting(n) && (!canPend || l.noReadIrp) && l.copyAllocated && l.copyFilled
  }

  function Kept(chain: seq<Nbl>, canPend: bool, luck: seq<Luck>): (s: seq<Nbl>)
    requires |luck| == |chain|
    ensures forall n :: n in s ==> n in chain
  {
    if chain == [] then [] else
      var k := |chain| - 1;
      Kept(chain[..k], canPend, luck[..k]) + (if Keeps(chain[k], canPend, luck[k]) then [chain[k]] else [])
  }

  /** The chain that goes back: what is not kept, in the order of the indication. */
  function GoingBack(chain: seq<Nbl>, canPend: bool, luck: seq<Luck>): (s: seq<Nbl>)
    requires |luck| == |chain|
    ensures forall n :: n in s ==> n in chain
  {
    if chain == [] then [] else
      var k := |chain| - 1;
      GoingBack(chain[..k], canPend, luck[..k])
      + (if canPend && !Keeps(chain[k], canPend, luck[k]) then [chain[k]] else [])
  }

  /** What is queued, in the order of the indication: the net buffer list, and whether as a private copy. */
  function Queued(chain: seq<Nbl>, canPend: bool, luck: seq<Luck>): (s: seq<(Nbl, bool)>)
    requires |luck| == |chain|
    ensures forall i :: 0 <= i < |s| ==> s[i].0 in chain
  {
    if chain == [] then [] else
      var k := |chain| - 1;
      Queued(chain[..k], canPend, luck[..k]) + QueuedOne(chain[k], canPend, luck[k])
  }

  function QueuedOne(n: Nbl, canPend: bool, l: Luck): seq<(Nbl, bool)> {
    if Keeps(n, canPend, l) then [(n, false)] else if Copies(n, canPend, l) then [(n, true)] else []
  }

  /** What arrived on the queue path: the queued originals without the flag, and flagged copies of the
      queued others. */
  predicate Arrived(handed: seq<(Nbl, bool)>, queued: seq<(Nbl, bool)>) {
    |handed| == |queued|
    && forall i :: 0 <= i < |handed| ==>
         && handed[i].1 == queued[i].1
         && (if queued[i].1 then handed[i].0.original == queued[i].0 else handed[i].0 == queued[i].0)
  }

  /** The private copies among what was handed over. */
  function Private(handed: seq<(Nbl, bool)>): seq<Nbl> {
    if handed == [] then [] else
      var k := |handed| - 1;
      Private(handed[..k]) + (if handed[k].1 then [handed[k].0] else [])
  }

  predicate Extends(a: Log, b: Log) {
    a.handed <= b.handed && a.made <= b.made && a.freed <= b.freed && a.returned == b.returned
  }

  /** From log a to log b, what is said to be queued has arrived, no original has been given back alone,
      and each copy made has been either handed over or freed. */
  predicate Dealt(a: Log, b: Log, queued: seq<(Nbl, bool)>) {
    && Extends(a, b) && NewCopies(a, b) !! Members(a.made)
    && Balanced(b.handed[|a.handed|..], b.made[|a.made|..], b.freed[|a.freed|..], queued)
  }

  predicate Balanced(handed: seq<(Nbl, bool)>, made: seq<Nbl>, freed: seq<Nbl>, queued: seq<(Nbl, bool)>) {
    && Arrived(handed, queued)
    && Distinct(made) && multiset(made) == multiset(Private(handed)) + multiset(freed)
  }

  /** The copies made from log a to log b. */
  function NewCopies(a: Log, b: Log): set<Nbl> {
    if |a.made| <= |b.made| then Members(b.made[|a.made|..]) else {}
  }

  /** A copy made on the way has been handed over, with its flag, or freed, and not both; nothing else has
      been handed over with the flag, or freed. */
  lemma HandedOrFreed(a: Log, b: Log, queued: seq<(Nbl, bool)>, c: Nbl)
    requires Dealt(a, b, queued)
    ensures var handed, freed := b.handed[|a.handed|..], b.freed[|a.freed|..];
            if c in NewCopies(a, b) then (c, true) in handed <==> c !in freed
            else (c, true) !in handed && c !in freed
  {
    var handed, made, freed := b.handed[|a.handed|..], b.made[|a.made|..], b.freed[|a.freed|..];
    DistinctCount(made, c);
    assert c in NewCopies(a, b) <==> c in made;
    PrivateIn(handed, c);
    var kept: multiset<Nbl>, gone: multiset<Nbl> := multiset(Private(handed)), multiset(freed);
    assert kept[c] + gone[c] == if c in made then 1 else 0;
    assert c in freed <==> c in gone;
    assert c in Private(handed) <==> c in kept;
  }

  lemma {:induction false} DistinctCount(s: seq<Nbl>, c: Nbl)
    requires Distinct(s)
    ensures multiset(s)[c] == if c in s then 1 else 0
  {
    if s != [] {
      var k := |s| - 1;
      assert s == s[..k] + [s[k]];
      DistinctCount(s[..k], c);
    }
  }

  lemma {:induction false} PrivateIn(handed: seq<(Nbl, bool)>, c: Nbl)
    ensures c in Private(handed) <==> (c, true) in handed
  {
    if handed != [] {
      var k := |handed| - 1;
      PrivateIn(handed[..k], c);
      assert handed == handed[..k] + [handed[k]];
    }
  }

  lemma {:induction false} PrivateAppend(a: seq<(Nbl, bool)>, b: seq<(Nbl, bool)>)
    ensures Private(a + b) == Private(a) + Private(b)
  {
    if b == [] {
      assert a + b == a;
    } else {
      var k := |b| - 1;
      PrivateAppend(a, b[..k]);
      assert (a + b)[..|a + b| - 1] == a + b[..k];
    }
  }

  lemma DealtMore(a: Log, b: Log, c: Log, p: seq<(Nbl, bool)>, r: seq<(Nbl, bool)>)
    requires Dealt(a, b, p) && Dealt(b, c, r)
    ensures Dealt(a, c, p + r) && NewCopies(a, c) == NewCopies(a, b) + NewCopies(b, c)
  {
    var h, h' := b.handed[|a.handed|..], c.handed[|b.handed|..];
    var m, m' := b.made[|a.made|..], c.made[|b.made|..];
    var f, f' := b.freed[|a.freed|..], c.freed[|b.freed|..];
    Suffixes(a.handed, b.handed, c.handed);
    Suffixes(a.made, b.made, c.made);
    Suffixes(a.freed, b.freed, c.freed);
    hide Balanced;
    assert Members(b.made) == Members(a.made) + Members(m) by {
      DistinctMore(a.made, m);
      assert b.made == a.made + m;
    }
    DistinctMore(m, m');
    BalancedMore(h, m, f, p, h', m', f', r);
  }

  lemma BalancedMore(h: seq<(Nbl, bool)>, m: seq<Nbl>, f: seq<Nbl>, q: seq<(Nbl, bool)>,
      h': seq<(Nbl, bool)>, m': seq<Nbl>, f': seq<Nbl>, q': seq<(Nbl, bool)>)
    requires Balanced(h, m, f, q) && Balanced(h', m', f', q') && Members(m) !! Members(m')
    ensures Balanced(h + h', m + m', f + f', q + q')
  {
    hide Private, Distinct, Members;
    PrivateAppend(h, h');
    DistinctMore(m, m');
  }

  lemma Suffixes<T>(a: seq<T>, b: seq<T>, c: seq<T>)
    requires a <= b <= c
    ensures a <= c && c[|a|..] == b[|a|..] + c[|b|..]
  {
  }

  lemma DistinctMore(a: seq<Nbl>, b: seq<Nbl>)
    ensures Distinct(a) && Distinct(b) && Members(a) !! Members(b) ==> Distinct(a + b)
    ensures Members(a + b) == Members(a) + Members(b)
  {
    forall i, j | Distinct(a) && Distinct(b) && Members(a) !! Members(b) && 0 <= i < j < |a + b|
      ensures (a + b)[i] != (a + b)[j]
    {
      assert i < |a| <= j ==> a[i] in Members(a) && b[j - |a|] in Members(b);
    }
  }

  predicate Distinct(s: seq<Nbl>) {
    forall i, j :: 0 <= i < j < |s| ==> s[i] != s[j]
  }

  lemma {:induction false} KeptOrBack(chain: seq<Nbl>, luck: seq<Luck>)
    requires |luck| == |chain|
    ensures multiset(Kept(chain, true, luck)) + multiset(GoingBack(chain, true, luck)) == multiset(chain)
  {
    if chain != [] {
      var k := |chain| - 1;
      KeptOrBack(chain[..k], luck[..k]);
      assert chain == chain[..k] + [chain[k]];
    }
  }

  /** With CAN_PEND every net buffer list is on the returned chain or in the queue path, and not on both. */
  lemma {:induction false} OwnedOnce(chain: seq<Nbl>, luck: seq<Luck>)
    requires |luck| == |chain| && Distinct(chain)
    ensures multiset(Kept(chain, true, luck)) + multiset(GoingBack(chain, true, luck)) == multiset(chain)
    ensures forall n :: n in chain ==> (n in Kept(chain, true, luck) <==> n !in GoingBack(chain, true, luck))
  {
    hide Keeps;
    KeptOrBack(chain, luck);
    var kept: multiset<Nbl>, back: multiset<Nbl> :=
      multiset(Kept(chain, true, luck)), multiset(GoingBack(chain, true, luck));
    forall n | n in chain ensures n in kept <==> n !in back {
      DistinctCount(chain, n);
      assert kept[n] + back[n] == 1;
    }
  }

  /** The returned chain is in indication order. */
  lemma {:induction false} BackInOrder(chain: seq<Nbl>, canPend: bool, luck: seq<Luck>, p: nat, q: nat)
    returns (i: nat, j: nat)
    requires |luck| == |chain| && p < q < |GoingBack(chain, canPend, luck)|
    ensures i < j < |chain|
    ensures chain[i] == GoingBack(chain, canPend, luck)[p] && chain[j] == GoingBack(chain, canPend, luck)[q]
  {
    var k := |chain| - 1;
    var out := GoingBack(chain[..k], canPend, luck[..k]);
    if q < |out| {
      i, j := BackInOrder(chain[..k], canPend, luck[..k], p, q);
    } else {
      assert out[p] in chain[..k];
      i :| i < k && chain[i] == out[p];
      j := k;
    }
  }

  /** With CANNOT_PEND no original is kept and none is returned. */
  lemma {:induction false} NothingWithoutPend(chain: seq<Nbl>, luck: seq<Luck>)
    requires |luck| == |chain|
    ensures Kept(chain, false, luck) == [] && GoingBack(chain, false, luck) == []
  {
    if chain != [] {
      NothingWithoutPend(chain[..|chain| - 1], luck[..|chain| - 1]);
    }
  }

  /** The first buffer holds a header from its offset on, with the tag if there is one. An offset beyond the buffer,
      which NDIS does not produce, wraps and passes too. */
  predicate HoldsHeader(n: Nbl)
    requires n.mdl.Mapped?
  {
    var header := if n.mdl.ethType == 0x0081 then 18 else 14;
    || n.offset + header <= n.mdl.length
    || (n.mdl.length < n.offset && n.offset - n.mdl.length <= 0x1_0000_0000 - header)
  }

  /** A net buffer list is interesting exactly if it is no loopback and its first buffer is there, not empty, and
      holds a header: 13 bytes are too short and 14 enough, with a tag 17 and 18. */
  lemma InterestingExactly(n: Nbl)
    requires n.mdl.Mapped? ==> n.mdl.length < 0x1_0000_0000 && n.offset < 0x1_0000_0000
    ensures Interesting(n) <==> !n.loopback && n.mdl.Mapped? && n.mdl.length > 0 && HoldsHeader(n)
  {
    if n.mdl.Mapped? && n.mdl.length < n.offset {
      var length := n.mdl.length - n.offset;
      assert length % 0x1_0000_0000 == length + 0x1_0000_0000;
    }
  }

  /** The original is queued exactly if it is interesting, may pend, and a read waits; a private copy exactly if it is
      interesting, must not pend or meets no read, and the copy can be made and filled. What is not queued itself
      goes back, if the miniport has given it away. */
  lemma {:induction false} Fate(chain: seq<Nbl>, canPend: bool, luck: seq<Luck>, i: nat)
    requires |luck| == |chain| && i < |chain| && Distinct(chain)
    ensures var (n, l) := (chain[i], luck[i]);
            var mine := Interesting(n) && canPend && !l.noReadIrp;
            && (n in Kept(chain, canPend, luck) <==> mine)
            && (n in GoingBack(chain, canPend, luck) <==> canPend && !mine)
            && ((n, false) in Queued(chain, canPend, luck) <==> mine)
            && ((n, true) in Queued(chain, canPend, luck)
                <==> Interesting(n) && (!canPend || l.noReadIrp) && l.copyAllocated && l.copyFilled)
  {
    hide Interesting, Kept, GoingBack, Queued;
    var k := |chain| - 1;
    var n := chain[i];
    LastFate(chain, canPend, luck, n);
    if i < k {
      Fate(chain[..k], canPend, luck[..k], i);
    } else {
      NotBefore(chain[..k], canPend, luck[..k], n);
    }
  }

  /** The last net buffer list adds its own fate to those before it. */
  lemma LastFate(chain: seq<Nbl>, canPend: bool, luck: seq<Luck>, n: Nbl)
    requires |luck| == |chain| && chain != []
    ensures var k := |chain| - 1;
            var (head, before, last, l) := (chain[..k], luck[..k], n == chain[k], luck[k]);
            && (n in Kept(chain, canPend, luck) <==> n in Kept(head, canPend, before) || (last && Keeps(n, canPend, l)))
            && (n in GoingBack(chain, canPend, luck)
                <==> n in GoingBack(head, canPend, before) || (last && canPend && !Keeps(n, canPend, l)))
            && ((n, false) in Queued(chain, canPend, luck)
                <==> (n, false) in Queued(head, canPend, before) || (last && Keeps(n, canPend, l)))
            && ((n, true) in Queued(chain, canPend, luck)
                <==> (n, true) in Queued(head, canPend, before)
                     || (last && !Keeps(n, canPend, l) && Copies(n, canPend, l)))
  {
    hide Keeps, Copies;
  }

  lemma NotBefore(chain: seq<Nbl>, canPend: bool, luck: seq<Luck>, n: Nbl)
    requires |luck| == |chain| && n !in chain
    ensures n !in Kept(chain, canPend, luck) && n !in GoingBack(chain, canPend, luck)
    ensures forall b :: (n, b) !in Queued(chain, canPend, luck)
  {
    hide Keeps, Copies;
  }

  /** Where no read waits no original is kept, and with CAN_PEND every one goes back. */
  lemma {:induction false} NoReadKeepsNothing(chain: seq<Nbl>, canPend: bool, luck: seq<Luck>)
    requires |luck| == |chain| && forall i :: 0 <= i < |chain| ==> luck[i].noReadIrp
    ensures Kept(chain, canPend, luck) == []
    ensures canPend ==> GoingBack(chain, canPend, luck) == chain
  {
    if chain != [] {
      var k := |chain| - 1;
      NoReadKeepsNothing(chain[..k], canPend, luck[..k]);
      assert chain == chain[..k] + [chain[k]];
      assert luck[k].noReadIrp;
    }
  }

  /** Where a read always waits, every net buffer list passes the tests, and the miniport lets them pend, all are
      kept and none goes back, ... */
  lemma {:induction false} ReadsKeepAll(chain: seq<Nbl>, luck: seq<Luck>)
    requires |luck| == |chain|
    requires forall i :: 0 <= i < |chain| ==> Interesting(chain[i]) && !luck[i].noReadIrp
    ensures Kept(chain, true, luck) == chain && GoingBack(chain, true, luck) == []
  {
    hide Interesting;
    if chain != [] {
      var k := |chain| - 1;
      ReadsKeepAll(chain[..k], luck[..k]);
      assert chain == chain[..k] + [chain[k]];
      assert Interesting(chain[k]) && !luck[k].noReadIrp;
    }
  }

  function Originals(chain: seq<Nbl>): (q: seq<(Nbl, bool)>)
    ensures |q| == |chain| && forall i :: 0 <= i < |chain| ==> q[i] == (chain[i], false)
  {
    if chain == [] then [] else Originals(chain[..|chain| - 1]) + [(chain[|chain| - 1], false)]
  }

  /** ... and queued themselves, in their order. */
  lemma {:induction false} ReadsQueueAll(chain: seq<Nbl>, luck: seq<Luck>)
    requires |luck| == |chain|
    requires forall i :: 0 <= i < |chain| ==> Interesting(chain[i]) && !luck[i].noReadIrp
    ensures Queued(chain, true, luck) == Originals(chain)
  {
    hide Interesting;
    if chain != [] {
      var k := |chain| - 1;
      ReadsQueueAll(chain[..k], luck[..k]);
      assert Interesting(chain[k]) && !luck[k].noReadIrp;
    }
  }

  predicate Unrepeated(s: seq<(Nbl, bool)>) {
    forall i, j :: 0 <= i < j < |s| ==> s[i].0 != s[j].0
  }

  /** No packet is queued twice, be it as itself or as a copy. */
  lemma {:induction false} QueuedOnce(chain: seq<Nbl>, canPend: bool, luck: seq<Luck>)
    requires |luck| == |chain| && Distinct(chain)
    ensures Unrepeated(Queued(chain, canPend, luck))
  {
    if chain != [] {
      var k := |chain| - 1;
      QueuedOnce(chain[..k], canPend, luck[..k]);
      var t := Queued(chain[..k], canPend, luck[..k]);
      forall i | 0 <= i < |t| ensures t[i].0 != chain[k] {
        assert t[i].0 in chain[..k];
      }
      var s := t + QueuedOne(chain[k], canPend, luck[k]);
      forall i, j | 0 <= i < j < |s| ensures s[i].0 != s[j].0 {
        assert s[i] == t[i];
        if j < |t| {
          assert s[j] == t[j];
        } else {
          assert s[j] == QueuedOne(chain[k], canPend, luck[k])[0];
        }
      }
      assert Queued(chain, canPend, luck) == s;
    }
  }

  // ---- Chains on the heap --------------------------------------------------------------

  function Members(s: seq<Nbl>): set<Nbl> {
    set n | n in s
  }

  lemma MembersAppend(s: seq<Nbl>, n: Nbl)
    ensures Members(s + [n]) == Members(s) + {n}
  {
  }

  function At(s: seq<Nbl>, i: nat): Nbl? {
    if i < |s| then s[i] else null
  }

  /** first leads through s, by the links of its members, to NULL. */
  ghost predicate Links(first: Nbl?, s: seq<Nbl>)
    reads Members(s)
  {
    first == At(s, 0) && forall i :: 0 <= i < |s| ==> s[i].next == At(s, i + 1)
  }

  /** Puts one more net buffer list at the end of the chain that goes back. */
  method Append(back: Nbl?, last: Nbl?, n: Nbl, ghost out: seq<Nbl>) returns (back': Nbl?, last': Nbl)
    requires Links(back, out) && Distinct(out) && n !in out
    requires last == if out == [] then null else out[|out| - 1]
    modifies if last == null then {n} else {n, last}
    ensures Links(back', out + [n]) && Distinct(out + [n]) && last' == n
  {
    back' := back;
    if back == null {
      back' := n;
    } else {
      last.next := n;
    }
    last' := n;
    n.next := null;
  }

  /** The part of the indication that the loop has not reached is linked as it was. */
  ghost predicate Untouched(chain: seq<Nbl>, i: nat)
    reads Members(chain)
  {
    forall j :: i <= j < |chain| ==> chain[j].next == At(chain, j + 1)
  }

  // ---- The loop -----------------------------------------------------------------------------

  /** ndisprotQueueReceiveNetBufferList. From here on other threads may relink what has been handed over. */
  method QueueReceive(p: ReceivePath, n: Nbl, ghost others: set<Nbl>)
    modifies p, others, n`next
    ensures p.log == old(p.log).(handed := old(p.log.handed) + [(n, old(n.localCopy))])
  {
    p.log := p.log.(handed := p.log.handed + [(n, n.localCopy)]);
    n.next := *;
  }

  /** ndisprotFreeReceiveNetBufferList: a private copy goes to its pool, an original goes back to the
      miniport as a chain of its own, whatever it was linked to before. */
  method FreeReceive(p: ReceivePath, n: Nbl)
    modifies p, n`next
    ensures p.log == if n.localCopy then old(p.log).(freed := old(p.log.freed) + [n])
                     else old(p.log).(returned := old(p.log.returned) + [n])
    ensures !n.localCopy ==> Links(n, [n])
  {
    if n.localCopy {
      p.log := p.log.(freed := p.log.freed + [n]);
    } else {
      n.next := null;
      p.log := p.log.(returned := p.log.returned + [n]);
    }
  }

  /** The private copy of a net buffer list: made, and then handed over or, if it cannot be filled, freed. */
  method OfferCopy(p: ReceivePath, n: Nbl, filled: bool, ghost others: set<Nbl>)
    modifies p, others
    ensures Dealt(old(p.log), p.log, if filled then [(n, true)] else [])
    ensures fresh(NewCopies(old(p.log), p.log))
  {
    var copy := new Nbl.Copy(n);
    p.log := p.log.(made := p.log.made + [copy]);
    if filled {
      QueueReceive(p, copy, others);
    } else {
      FreeReceive(p, copy);
    }
    CopyDealt(old(p.log), p.log, copy, filled);
  }

  lemma CopyDealt(a: Log, b: Log, copy: Nbl, filled: bool)
    requires copy.original != null && copy !in a.made
    requires b == if filled then a.(made := a.made + [copy], handed := a.handed + [(copy, true)])
                  else a.(made := a.made + [copy], freed := a.freed + [copy])
    ensures Dealt(a, b, if filled then [(copy.original, true)] else []) && NewCopies(a, b) == {copy}
  {
    assert b.made[|a.made|..] == [copy];
    assert b.handed[|a.handed|..] == if filled then [(copy, true)] else [];
    assert b.freed[|a.freed|..] == if filled then [] else [copy];
    assert Private([(copy, true)]) == Private([]) + [copy];
  }

  lemma NothingDealt(a: Log)
    ensures Dealt(a, a, []) && NewCopies(a, a) == {}
  {
  }

  lemma OriginalDealt(a: Log, n: Nbl)
    ensures var b := a.(handed := a.handed + [(n, false)]); Dealt(a, b, [(n, false)]) && NewCopies(a, b) == {}
  {
    var b := a.(handed := a.handed + [(n, false)]);
    assert b.handed[|a.handed|..] == [(n, false)];
    assert Private([(n, false)]) == Private([]);
  }

  /** Everything up to the end of the inner do-while: the net buffer list or its copy is queued, or
      neither. The result is bAcceptedReceive. */
  method Offer(p: ReceivePath, n: Nbl, canPend: bool, l: Luck, ghost others: set<Nbl>) returns (accepted: bool)
    modifies p, others, n
    ensures accepted <==> Interesting(n) && canPend && !l.noReadIrp
    ensures Dealt(old(p.log), p.log, QueuedOne(n, canPend, l)) && fresh(NewCopies(old(p.log), p.log))
    ensures !accepted ==> n.next == old(n.next) || n in others
  {
    hide Dealt, NewCopies;
    NothingDealt(p.log);
    n.localCopy := false;
    accepted := false;
    var bufferLength := 0;
    if n.loopback {
      return;
    }
    if n.mdl.Mapped? {
      bufferLength := n.mdl.length;
    }
    if bufferLength == 0 {
      return;
    }
    bufferLength := (bufferLength - n.offset) % ULONG_MODULUS;
    if bufferLength < ETH_HEADER_LENGTH {
      return;
    }
    if n.mdl.ethType == NPROT_8021P_TAG_TYPE && bufferLength < ETH_HEADER_LENGTH + TAG_LENGTH {
      return;
    }
    accepted := true;
    if l.noReadIrp || !canPend {
      accepted := false;
      if !l.copyAllocated {
        return;
      }
      OfferCopy(p, n, l.copyFilled, others);
    } else {
      OriginalDealt(p.log, n);
      QueueReceive(p, n, others);
    }
  }

  /** The loop has dealt with the first i net buffer lists: back leads through those that go back, last
      is the end of that chain, and no other thread can reach it. */
  ghost predicate Built(chain: seq<Nbl>, canPend: bool, luck: seq<Luck>, i: nat, back: Nbl?, last: Nbl?)
    requires i <= |chain| == |luck|
    reads Members(chain)
  {
    var out := GoingBack(chain[..i], canPend, luck[..i]);
    assert Members(out) <= Members(chain);
    && Untouched(chain, i) && Links(back, out) && Distinct(out)
    && last == (if out == [] then null else out[|out| - 1])
  }

  /** Offers the net buffer list at position i. The rest of the indication and the chain that goes back
      stay as they are, whatever happens to the net buffer lists that have been handed over. */
  method OfferAt(p: ReceivePath, cur: Nbl, canPend: bool, l: Luck, back: Nbl?,
      ghost chain: seq<Nbl>, ghost luck: seq<Luck>, ghost i: nat)
    returns (accepted: bool)
    requires i < |chain| == |luck| && cur == chain[i] && l == luck[i] && Distinct(chain)
    requires Untouched(chain, i) && Links(back, GoingBack(chain[..i], canPend, luck[..i]))
    modifies p, Members(chain)
    ensures accepted <==> Keeps(cur, canPend, l)
    ensures Untouched(chain, i + 1) && Links(back, GoingBack(chain[..i], canPend, luck[..i]))
    ensures Dealt(old(p.log), p.log, QueuedOne(cur, canPend, l)) && fresh(NewCopies(old(p.log), p.log))
  {
    hide Kept, GoingBack, Copies, Interesting, Dealt, NewCopies, QueuedOne, Links;
    Apart(chain, luck, canPend, i);
    accepted := Offer(p, cur, canPend, l, Members(Kept(chain[..i], canPend, luck[..i])));
  }

  /** The net buffer list at position i joins the chain that goes back. */
  method AppendAt(cur: Nbl, back: Nbl?, last: Nbl?, ghost chain: seq<Nbl>, ghost out: seq<Nbl>, ghost i: nat)
    returns (back': Nbl?, last': Nbl?)
    requires i < |chain| && cur == chain[i] && Distinct(chain) && Members(out) <= Members(chain[..i])
    requires Untouched(chain, i + 1) && Links(back, out) && Distinct(out)
    requires last == if out == [] then null else out[|out| - 1]
    modifies Members(chain)
    ensures Untouched(chain, i + 1) && Links(back', out + [cur]) && Distinct(out + [cur]) && last' == cur
  {
    hide Links;
    assert Members(chain[..i]) <= Members(chain);
    assert forall j :: i <= j < |chain| ==> chain[j] !in Members(chain[..i]);
    assert last != null ==> last in Members(out);
    assert cur !in out;
    back', last' := Append(back, last, cur, out);
  }

  /** One turn of the loop. */
  method Handle(p: ReceivePath, cur: Nbl, canPend: bool, l: Luck, back: Nbl?, last: Nbl?,
      ghost chain: seq<Nbl>, ghost luck: seq<Luck>, ghost i: nat)
    returns (back': Nbl?, last': Nbl?)
    requires i < |chain| == |luck| && cur == chain[i] && l == luck[i] && Distinct(chain)
    requires Built(chain, canPend, luck, i, back, last)
    modifies p, Members(chain)
    ensures Built(chain, canPend, luck, i + 1, back', last')
    ensures Dealt(old(p.log), p.log, QueuedOne(cur, canPend, l)) && fresh(NewCopies(old(p.log), p.log))
  {
    hide Kept, GoingBack, Keeps, Copies, Interesting, Dealt, NewCopies, QueuedOne, Links, Untouched, Distinct;
    Apart(chain, luck, canPend, i);
    Apart(chain, luck, canPend, i + 1);
    Advance(chain, luck, canPend, i);
    var accepted := OfferAt(p, cur, canPend, l, back, chain, luck, i);
    back', last' := back, last;
    if !accepted && canPend {
      back', last' := AppendAt(cur, back, last, chain, GoingBack(chain[..i], canPend, luck[..i]), i);
    }
  }

  /** NdisprotReceiveNetBufferLists. The result is the chain given to NdisReturnNetBufferLists. */
  method ReceiveNetBufferLists(p: ReceivePath, stopped: bool, first: Nbl?, canPend: bool, luck: seq<Luck>,
      ghost chain: seq<Nbl>)
    returns (back: Nbl?)
    requires Links(first, chain) && Distinct(chain) && |luck| == |chain|
    modifies p, Members(chain)
    ensures stopped ==> back == (if canPend then first else null) && Links(first, chain) && p.log == old(p.log)
    ensures !stopped ==>
              && Links(back, GoingBack(chain, canPend, luck))
              && Dealt(old(p.log), p.log, Queued(chain, canPend, luck))
              && fresh(NewCopies(old(p.log), p.log))
    ensures !stopped ==> NewCopies(old(p.log), p.log) !! Members(GoingBack(chain, canPend, luck))
  {
    hide Kept, GoingBack, Queued, QueuedOne, Keeps, Copies, Links, Dealt, NewCopies, Built;
    back := null;
    if stopped {
      return if canPend then first else null;
    }
    var last: Nbl? := null;
    var cur := first;
    var i := 0;
    ghost var before := p.log;
    Start(first, chain, canPend, luck);
    NothingDealt(before);
    while cur != null
      invariant i <= |chain| && cur == At(chain, i)
      invariant Built(chain, canPend, luck, i, back, last)
      invariant Dealt(before, p.log, Queued(chain[..i], canPend, luck[..i])) && fresh(NewCopies(before, p.log))
      decreases |chain| - i
    {
      var next := cur.next;
      BuiltNext(chain, canPend, luck, i, back, last);
      Advance(chain, luck, canPend, i);
      ghost var sofar := p.log;
      back, last := Handle(p, cur, canPend, luck[i], back, last, chain, luck, i);
      DealtMore(before, sofar, p.log, Queued(chain[..i], canPend, luck[..i]), QueuedOne(chain[i], canPend, luck[i]));
      cur := next;
      i := i + 1;
    }
    assert chain[..i] == chain && luck[..i] == luck;
    BuiltEnd(chain, canPend, luck, back, last);
  }

  lemma BuiltNext(chain: seq<Nbl>, canPend: bool, luck: seq<Luck>, i: nat, back: Nbl?, last: Nbl?)
    requires i < |chain| == |luck| && Built(chain, canPend, luck, i, back, last)
    ensures chain[i].next == At(chain, i + 1)
  {
  }

  lemma BuiltEnd(chain: seq<Nbl>, canPend: bool, luck: seq<Luck>, back: Nbl?, last: Nbl?)
    requires |chain| == |luck| && Built(chain, canPend, luck, |chain|, back, last)
    ensures Links(back, GoingBack(chain, canPend, luck))
  {
    assert chain[..|chain|] == chain && luck[..|chain|] == luck;
  }

  lemma Start(first: Nbl?, chain: seq<Nbl>, canPend: bool, luck: seq<Luck>)
    requires Links(first, chain) && |luck| == |chain|
    ensures first == At(chain, 0) && Built(chain, canPend, luck, 0, null, null)
    ensures Queued(chain[..0], canPend, luck[..0]) == []
  {
  }

  lemma NothingYet(chain: seq<Nbl>, canPend: bool, luck: seq<Luck>)
    requires |luck| == |chain|
    ensures GoingBack(chain[..0], canPend, luck[..0]) == [] && Kept(chain[..0], canPend, luck[..0]) == []
  {
  }

  /** What goes back, what is handed over, and what is still to come are apart. */
  lemma {:induction false} Apart(chain: seq<Nbl>, luck: seq<Luck>, canPend: bool, i: nat)
    requires i <= |chain| == |luck| && Distinct(chain)
    ensures var out, handed := GoingBack(chain[..i], canPend, luck[..i]), Kept(chain[..i], canPend, luck[..i]);
            && Members(out) <= Members(chain[..i]) && Members(handed) <= Members(chain[..i])
            && Members(out) !! Members(handed) && Distinct(out)
    ensures Members(chain[..i]) <= Members(chain)
    ensures forall j :: i <= j < |chain| ==> chain[j] !in Members(chain[..i])
  {
    hide Kept, GoingBack, Queued, Keeps, Interesting;
    if i == 0 {
      NothingYet(chain, canPend, luck);
    } else {
      Apart(chain, luck, canPend, i - 1);
      Advance(chain, luck, canPend, i - 1);
      assert chain[..i] == chain[..i - 1] + [chain[i - 1]];
      MembersAppend(chain[..i - 1], chain[i - 1]);
      MembersAppend(GoingBack(chain[..i - 1], canPend, luck[..i - 1]), chain[i - 1]);
      MembersAppend(Kept(chain[..i - 1], canPend, luck[..i - 1]), chain[i - 1]);
    }
  }

  /** One more net buffer list of the indication. */
  lemma Advance(chain: seq<Nbl>, luck: seq<Luck>, canPend: bool, i: nat)
    requires |luck| == |chain| && i < |chain|
    ensures var c, l := chain[..i], luck[..i];
            var c', l' := chain[..i + 1], luck[..i + 1];
            && Kept(c', canPend, l') == Kept(c, canPend, l)
                 + (if Keeps(chain[i], canPend, luck[i]) then [chain[i]] else [])
            && GoingBack(c', canPend, l')
               == (if canPend && !Keeps(chain[i], canPend, luck[i]) then GoingBack(c, canPend, l) + [chain[i]]
                   else GoingBack(c, canPend, l))
            && Queued(c', canPend, l') == Queued(c, canPend, l) + QueuedOne(chain[i], canPend, luck[i])
  {
    assert chain[..i + 1][..i] == chain[..i] && luck[..i + 1][..i] == luck[..i];
  }
}
