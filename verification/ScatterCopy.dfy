/** The copy of a received packet from its chain of MDLs into the buffer of a read. */
module ScatterCopy {
  import opened Wrappers

  /** One MDL. NdisQueryMdl yields the bytes, or NULL if they could not be mapped. */
  class Mdl {
    const bytes: array<byte>
    const mapped: bool
    const next: Mdl?

    constructor (bytes: array<byte>, mapped: bool, next: Mdl?)
      ensures this.bytes == bytes && this.mapped == mapped && this.next == next
    {
      this.bytes, this.mapped, this.next := bytes, mapped, next;
    }
  }

  /** The links from first lead through the MDLs of chain to NULL. */
  ghost predicate Links(first: Mdl?, chain: seq<Mdl>) {
    if chain == [] then first == null else first == chain[0] && Links(chain[0].next, chain[1..])
  }

  ghost function Buffers(chain: seq<Mdl>): set<array<byte>> {
    set m | m in chain :: m.bytes
  }

  /** The bytes of the chain in order, up to the first MDL that cannot be mapped. */
  ghost function Stream(chain: seq<Mdl>): seq<byte>
    reads Buffers(chain)
  {
    if chain == [] || !chain[0].mapped then [] else chain[0].bytes[..] + Stream(chain[1..])
  }

  function Min(a: nat, b: nat): nat {
    if a <= b then a else b
  }

  /** The offset lies within the first MDL, as NDIS keeps CurrentMdlOffset. */
  ghost predicate Starts(chain: seq<Mdl>, offset: nat) {
    chain != [] && chain[0].mapped ==> offset <= chain[0].bytes.Length
  }

  /** What a read with room for room bytes receives of the dataLength bytes that begin at offset. */
  function DeliveredOf(s: seq<byte>, offset: nat, dataLength: nat, room: nat): (d: seq<byte>)
    ensures |d| <= room && |d| <= dataLength
  {
    if |s| <= offset then [] else s[offset..][..Min(|s| - offset, Min(room, dataLength))]
  }

  ghost function Delivered(chain: seq<Mdl>, offset: nat, dataLength: nat, room: nat): (d: seq<byte>)
    reads Buffers(chain)
    requires Starts(chain, offset)
    ensures |d| <= room && |d| <= dataLength
  {
    DeliveredOf(Stream(chain), offset, dataLength, room)
  }

  /** The buffer now holds d, followed by what it held there before. */
  predicate Holds(now: seq<byte>, was: seq<byte>, d: seq<byte>) {
    |d| <= |was| && now == d + was[|d|..]
  }

  /** NPROT_COPY_MEM to the end of the part that is already filled. */
  method CopyMem(dst: array<byte>, at: nat, src: array<byte>, offset: nat, count: nat,
      ghost was: seq<byte>, ghost d: seq<byte>)
    requires Holds(dst[..], was, d) && at == |d| && at + count <= dst.Length && offset + count <= src.Length
        && dst != src
    modifies dst
    ensures Holds(dst[..], was, d + src[offset..offset + count])
  {
    ghost var before := dst[..];
    forall i | 0 <= i < count {
      dst[at + i] := src[offset + i];
    }
    assert dst[..] == before[..|d|] + src[offset..offset + count] + before[|d| + count..];
    assert was[|d|..][count..] == was[|d| + count..];
  }

  /** The copy loop of ndisprotServiceReads. The result is what IoStatus.Information is set to. */
  method CopyPacket(first: Mdl?, mdlOffset: nat, dataLength: nat, dst: array<byte>, ghost chain: seq<Mdl>)
    returns (information: nat)
    requires Links(first, chain) && Starts(chain, mdlOffset) && dst !in Buffers(chain)
    modifies dst
    ensures var d := old(Delivered(chain, mdlOffset, dataLength, dst.Length));
            information == |d| && Holds(dst[..], old(dst[..]), d)
  {
    hide Delivered, Holds, Stream;
    var pMdl := first;
    var bytesRemaining: nat := dst.Length;
    var srcTotalLength: nat := dataLength;
    var offset: nat := mdlOffset;
    ghost var rest := chain;
    ghost var whole := Delivered(chain, mdlOffset, dataLength, dst.Length);
    ghost var d: seq<byte> := [];
    HoldsNothing(dst[..]);
    while bytesRemaining != 0 && pMdl != null && srcTotalLength != 0
      invariant Links(pMdl, rest) && Starts(rest, offset) && dst !in Buffers(rest)
      invariant |d| + bytesRemaining == dst.Length && Holds(dst[..], old(dst[..]), d)
      invariant whole == d + Delivered(rest, offset, srcTotalLength, bytesRemaining)
      decreases |rest|
    {
      assert rest != [] && pMdl == rest[0];
      if !pMdl.mapped {
        break;
      }
      var bytesToCopy := Min(pMdl.bytes.Length - offset, bytesRemaining);
      bytesToCopy := Min(bytesToCopy, srcTotalLength);
      DeliveredStep(rest, offset, srcTotalLength, bytesRemaining);
      CopyMem(dst, dst.Length - bytesRemaining, pMdl.bytes, offset, bytesToCopy, old(dst[..]), d);
      d := d + pMdl.bytes[offset..offset + bytesToCopy];
      bytesRemaining := bytesRemaining - bytesToCopy;
      srcTotalLength := srcTotalLength - bytesToCopy;
      offset := 0;
      pMdl := pMdl.next;
      rest := rest[1..];
    }
    DeliveredEnd(rest, offset, srcTotalLength, bytesRemaining);
    assert d + [] == d;
    information := dst.Length - bytesRemaining;
  }

  lemma HoldsNothing(was: seq<byte>)
    ensures Holds(was, was, [])
  {
  }

  lemma DeliveredEnd(chain: seq<Mdl>, offset: nat, dataLength: nat, room: nat)
    requires Starts(chain, offset) && (chain == [] || !chain[0].mapped || dataLength == 0 || room == 0)
    ensures Delivered(chain, offset, dataLength, room) == []
  {
  }

  /** What the first MDL contributes, and what is left for the others. */
  lemma DeliveredStep(chain: seq<Mdl>, offset: nat, dataLength: nat, room: nat)
    requires chain != [] && chain[0].mapped && Starts(chain, offset)
    ensures var n := Min(Min(chain[0].bytes.Length - offset, room), dataLength);
            Delivered(chain, offset, dataLength, room)
            == chain[0].bytes[offset..offset + n] + Delivered(chain[1..], 0, dataLength - n, room - n)
  {
    DeliveredAppend(chain[0].bytes[..], Stream(chain[1..]), offset, dataLength, room);
    assert chain[0].bytes[..][offset..] == chain[0].bytes[offset..];
  }

  lemma DeliveredAppend(a: seq<byte>, t: seq<byte>, offset: nat, dataLength: nat, room: nat)
    requires offset <= |a|
    ensures var n := Min(Min(|a| - offset, room), dataLength);
            DeliveredOf(a + t, offset, dataLength, room)
            == a[offset..offset + n] + DeliveredOf(t, 0, dataLength - n, room - n)
  {
    var n := Min(Min(|a| - offset, room), dataLength);
    var m := Min(|t|, Min(room - n, dataLength - n));
    assert DeliveredOf(t, 0, dataLength - n, room - n) == t[..m];
    assert DeliveredOf(a + t, offset, dataLength, room) == (a + t)[offset..offset + n + m];
    assert n < |a| - offset ==> m == 0;
  }

  /** Every MDL of the chain can be mapped, and together they hold the packet. */
  ghost predicate Covers(chain: seq<Mdl>, offset: nat, dataLength: nat)
    reads Buffers(chain)
  {
    offset + dataLength <= |Stream(chain)|
  }

  /** The read receives the smaller of its room and the data length if and only if the mapped part of
      the chain reaches that far, and then it is that part of the flattened packet. */
  lemma CoveredDelivery(chain: seq<Mdl>, offset: nat, dataLength: nat, room: nat)
    requires Starts(chain, offset)
    ensures var n, d := Min(room, dataLength), Delivered(chain, offset, dataLength, room);
            && (|d| == n <==> n == 0 || offset + n <= |Stream(chain)|)
            && (|d| == n && n > 0 ==> d == Stream(chain)[offset..offset + n])
  {
  }

  /** In every case, short or not, the read receives as many bytes as its room, the data length and the mapped part
      allow, and these are the bytes at the offset. */
  lemma DeliveredExactly(chain: seq<Mdl>, offset: nat, dataLength: nat, room: nat)
    requires Starts(chain, offset)
    ensures var d, there := Delivered(chain, offset, dataLength, room), |Stream(chain)|;
            && |d| == Min(Min(room, dataLength), if offset <= there then there - offset else 0)
            && forall i :: 0 <= i < |d| ==> d[i] == Stream(chain)[offset + i]
  {
  }

  /** The bytes of the first i MDLs. */
  ghost function Before(chain: seq<Mdl>, i: nat): nat
    requires i <= |chain|
    reads Buffers(chain)
  {
    if i == 0 then 0 else chain[0].bytes.Length + Before(chain[1..], i - 1)
  }

  /** The stream holds the bytes of MDL i, in their order, behind those of the MDLs before it, if all of these can
      be mapped; and it ends before the first MDL that cannot be mapped. */
  lemma {:induction false} StreamAt(chain: seq<Mdl>, i: nat)
    requires i <= |chain| && forall j :: 0 <= j < i ==> chain[j].mapped
    ensures Before(chain, i) <= |Stream(chain)|
    ensures i < |chain| && chain[i].mapped ==>
              && Before(chain, i) + chain[i].bytes.Length <= |Stream(chain)|
              && forall q :: 0 <= q < chain[i].bytes.Length ==> Stream(chain)[Before(chain, i) + q] == chain[i].bytes[q]
    ensures i == |chain| || !chain[i].mapped ==> |Stream(chain)| == Before(chain, i)
  {
    if i > 0 {
      assert chain[0].mapped;
      forall j | 0 <= j < i - 1 ensures chain[1..][j].mapped {
        assert chain[1..][j] == chain[j + 1];
      }
      StreamAt(chain[1..], i - 1);
      assert i < |chain| ==> chain[1..][i - 1] == chain[i];
    }
  }

  /** A private copy made of one MDL with the data of the packet delivers the same bytes as the packet. */
  lemma CopyDeliversSame(chain: seq<Mdl>, offset: nat, dataLength: nat, copy: Mdl, room: nat)
    requires Starts(chain, offset) && Covers(chain, offset, dataLength)
    requires copy.mapped && copy.bytes[..] == Stream(chain)[offset..offset + dataLength]
    ensures Delivered([copy], 0, dataLength, room) == Delivered(chain, offset, dataLength, room)
  {
    assert Stream([copy]) == copy.bytes[..] + Stream([copy][1..]);
    assert [copy][1..] == [];
    CoveredDelivery(chain, offset, dataLength, room);
  }
}
