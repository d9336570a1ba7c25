/** ndisprotQueryBinding and ndisprotLookupDevice over the global list, the layout of the reply in the
    caller's buffer, and the loop of the client that enumerates the bindings. */
module Enumeration {
  import opened Wrappers

  const ULONG_MODULUS := 0x1_0000_0000

  /** The length of a counted string is a USHORT. */
  const MAX_STRING := 0xFFFF

  /** sizeof(NDISPROT_QUERY_BINDING) and the places of its five words. */
  const QUERY_LENGTH := 20
  const BINDING_INDEX := 0
  const NAME_OFFSET := 4
  const NAME_LENGTH := 8
  const DESCR_OFFSET := 12
  const DESCR_LENGTH := 16

  datatype Status = Success | Resources | BufferOverflow | AdapterNotFound

  /** What the two walks read of an open context on the list. */
  datatype Entry = Entry(active: bool, name: seq<byte>, descr: seq<byte>)

  predicate ValidList(list: seq<Entry>) {
    |list| < ULONG_MODULUS
    && forall e :: e in list ==> |e.name| <= MAX_STRING && |e.descr| <= MAX_STRING
  }

  // ---- Words in the buffer ------------------------------------------------------------

  function UlongAt(buf: array<byte>, at: nat): (v: nat)
    requires at + 4 <= buf.Length
    reads buf
    ensures v < ULONG_MODULUS
  {
    buf[at] as int + 0x100 * buf[at + 1] as int + 0x1_0000 * buf[at + 2] as int + 0x100_0000 * buf[at + 3] as int
  }

  twostate predicate UnchangedOutside(buf: array<byte>, from: nat, to: nat)
    reads buf
  {
    forall k :: 0 <= k < buf.Length && !(from <= k < to) ==> buf[k] == old(buf[k])
  }

  method PutUlong(buf: array<byte>, at: nat, v: nat)
    requires at + 4 <= buf.Length && v < ULONG_MODULUS
    modifies buf
    ensures UlongAt(buf, at) == v && UnchangedOutside(buf, at, at + 4)
  {
    buf[at] := v % 0x100;
    buf[at + 1] := v / 0x100 % 0x100;
    buf[at + 2] := v / 0x1_0000 % 0x100;
    buf[at + 3] := v / 0x100_0000;
  }

  /** A string that ends in a NUL of two bytes stands at a place of the buffer. */
  ghost predicate StringAt(buf: array<byte>, at: nat, s: seq<byte>)
    reads buf
  {
    && at + |s| + 2 <= buf.Length
    && buf[at..at + |s|] == s && buf[at + |s|] == 0 && buf[at + |s| + 1] == 0
  }

  /** ndisprotWriteString. */
  method WriteString(buf: array<byte>, at: nat, outputLength: nat, s: seq<byte>) returns (status: Status, written: nat)
    requires at + outputLength <= buf.Length && |s| <= MAX_STRING
    modifies buf
    ensures status == if |s| + 2 <= outputLength then Success else BufferOverflow
    ensures status == Success ==> written == |s| + 2 && StringAt(buf, at, s) && UnchangedOutside(buf, at, at + written)
    ensures status != Success ==> buf[..] == old(buf[..])
  {
    var bytesNeeded := |s| + 2;
    if outputLength < bytesNeeded {
      return BufferOverflow, 0;
    }
    forall i | 0 <= i < |s| {
      buf[at + i] := s[i];
    }
    buf[at + |s|] := 0;
    buf[at + |s| + 1] := 0;
    status, written := Success, bytesNeeded;
  }

  // ---- The walk over the list -------------------------------------------------------------

  /** The positions of the bindings that are ACTIVE, in list order. */
  function Actives(list: seq<Entry>): (a: seq<nat>)
    ensures |a| <= |list|
    ensures forall i :: 0 <= i < |a| ==> a[i] < |list| && list[a[i]].active
  {
    if list == [] then [] else
      var k := |list| - 1;
      Actives(list[..k]) + (if list[k].active then [k] else [])
  }

  /** Actives holds every active position once, in increasing order. */
  lemma {:induction false} ActivesAreAll(list: seq<Entry>, p: nat)
    requires p < |list| && list[p].active
    ensures p in Actives(list)
    ensures forall i, j :: 0 <= i < j < |Actives(list)| ==> Actives(list)[i] < Actives(list)[j]
  {
    var k := |list| - 1;
    if p < k {
      ActivesAreAll(list[..k], p);
    } else {
      ActivesIncrease(list[..k]);
    }
  }

  lemma {:induction false} ActivesIncrease(list: seq<Entry>)
    ensures forall i, j :: 0 <= i < j < |Actives(list)| ==> Actives(list)[i] < Actives(list)[j]
  {
    if list != [] {
      ActivesIncrease(list[..|list| - 1]);
    }
  }

  /** Finds the open with the given index among the active ones, counting the index down. */
  method FindActive(list: seq<Entry>, index: nat) returns (found: Option<nat>)
    ensures found == if index < |Actives(list)| then Some(Actives(list)[index]) else None
  {
    var bindingIndex := index;
    var i := 0;
    while i < |list|
      invariant i <= |list|
      invariant bindingIndex == index - |Actives(list[..i])| && bindingIndex >= 0
    {
      assert list[..i + 1][..i] == list[..i];
      if list[i].active {
        if bindingIndex == 0 {
          ActivesPrefix(list, i + 1);
          return Some(i);
        }
        bindingIndex := bindingIndex - 1;
      }
      i := i + 1;
    }
    assert list[..i] == list;
    found := None;
  }

  lemma {:induction false} ActivesPrefix(list: seq<Entry>, i: nat)
    requires i <= |list|
    ensures Actives(list[..i]) <= Actives(list)
    decreases |list|
  {
    if i < |list| {
      var k := |list| - 1;
      ActivesPrefix(list[..k], i);
      assert list[..k][..i] == list[..i];
    } else {
      assert list[..i] == list;
    }
  }

  /** The reply to a query holds both strings. */
  predicate Fits(e: Entry, outputLength: nat) {
    QUERY_LENGTH + |e.name| + 2 + |e.descr| + 2 <= outputLength
  }

  /** The name and the description of e lie behind the header, one after the other, and the header says where. */
  ghost predicate Reply(buf: array<byte>, e: Entry)
    reads buf
  {
    var descr := QUERY_LENGTH + |e.name| + 2;
    && QUERY_LENGTH <= buf.Length
    && UlongAt(buf, NAME_OFFSET) == QUERY_LENGTH && UlongAt(buf, NAME_LENGTH) == |e.name|
    && UlongAt(buf, DESCR_OFFSET) == descr && UlongAt(buf, DESCR_LENGTH) == |e.descr|
    && StringAt(buf, QUERY_LENGTH, e.name) && StringAt(buf, descr, e.descr)
  }

  method PutHeader(buf: array<byte>, nameLength: nat, descrLength: nat)
    requires QUERY_LENGTH <= buf.Length && nameLength < ULONG_MODULUS && descrLength < ULONG_MODULUS
    modifies buf
    ensures UlongAt(buf, NAME_OFFSET) == UlongAt(buf, DESCR_OFFSET) == 0
    ensures UlongAt(buf, NAME_LENGTH) == nameLength && UlongAt(buf, DESCR_LENGTH) == descrLength
    ensures UnchangedOutside(buf, NAME_OFFSET, QUERY_LENGTH)
  {
    PutUlong(buf, NAME_OFFSET, 0);
    PutUlong(buf, NAME_LENGTH, nameLength);
    PutUlong(buf, DESCR_OFFSET, 0);
    PutUlong(buf, DESCR_LENGTH, descrLength);
  }

  /** The part of ndisprotQueryBinding that fills the reply for the binding that was found. */
  method FillReply(e: Entry, buf: array<byte>, outputLength: nat) returns (status: Status, bytesReturned: nat)
    requires QUERY_LENGTH <= outputLength <= buf.Length && |e.name| <= MAX_STRING && |e.descr| <= MAX_STRING
    modifies buf
    ensures status == if Fits(e, outputLength) then Success else BufferOverflow
    ensures status == Success ==> Reply(buf, e) && bytesReturned == QUERY_LENGTH + |e.name| + 2 + |e.descr| + 2
    ensures status != Success ==> UlongAt(buf, DESCR_OFFSET) == 0
    ensures status != Success ==>
              if QUERY_LENGTH + |e.name| + 2 <= outputLength then
                UlongAt(buf, NAME_OFFSET) == QUERY_LENGTH && StringAt(buf, QUERY_LENGTH, e.name)
                && bytesReturned == QUERY_LENGTH + |e.name| + 2
              else UlongAt(buf, NAME_OFFSET) == 0 && bytesReturned == QUERY_LENGTH
    ensures UnchangedOutside(buf, NAME_OFFSET, bytesReturned)
  {
    PutHeader(buf, |e.name|, |e.descr|);
    bytesReturned := QUERY_LENGTH;
    var written;
    status, written := AddString(buf, NAME_OFFSET, bytesReturned, outputLength, e.name);
    if status != Success {
      return;
    }
    bytesReturned := bytesReturned + written;
    status, written := AddString(buf, DESCR_OFFSET, bytesReturned, outputLength, e.descr);
    if status != Success {
      return;
    }
    bytesReturned := bytesReturned + written;
  }

  /** Writes a string at the end of the reply and notes its place in a word of the header. */
  method AddString(buf: array<byte>, word: nat, at: nat, outputLength: nat, s: seq<byte>)
    returns (status: Status, written: nat)
    requires word + 4 <= QUERY_LENGTH <= at <= outputLength <= buf.Length && at < ULONG_MODULUS && |s| <= MAX_STRING
    modifies buf
    ensures status == if at + |s| + 2 <= outputLength then Success else BufferOverflow
    ensures status == Success ==>
              && written == |s| + 2 && UlongAt(buf, word) == at && StringAt(buf, at, s)
              && forall k :: 0 <= k < buf.Length && !(word <= k < word + 4) && !(at <= k < at + written) ==>
                   buf[k] == old(buf[k])
    ensures status != Success ==> buf[..] == old(buf[..])
  {
    status, written := WriteString(buf, at, outputLength - at, s);
    if status == Success {
      PutUlong(buf, word, at);
    }
  }

  /** ndisprotQueryBinding. */
  method QueryBinding(list: seq<Entry>, buf: array<byte>, inputLength: nat, outputLength: nat)
    returns (status: Status, bytesReturned: nat)
    requires ValidList(list) && inputLength <= buf.Length && outputLength <= buf.Length
    modifies buf
    ensures inputLength < QUERY_LENGTH ==> status == Resources
    ensures outputLength < QUERY_LENGTH <= inputLength ==> status == BufferOverflow
    ensures inputLength < QUERY_LENGTH || outputLength < QUERY_LENGTH ==> bytesReturned == 0 && buf[..] == old(buf[..])
    ensures QUERY_LENGTH <= inputLength && QUERY_LENGTH <= outputLength ==>
              var a, i := Actives(list), old(UlongAt(buf, BINDING_INDEX));
              if |a| <= i then status == AdapterNotFound && bytesReturned == 0 && buf[..] == old(buf[..])
              else if Fits(list[a[i]], outputLength) then
                status == Success && Reply(buf, list[a[i]])
                && bytesReturned == QUERY_LENGTH + |list[a[i]].name| + 2 + |list[a[i]].descr| + 2
                && UnchangedOutside(buf, NAME_OFFSET, bytesReturned)
              else
                status == BufferOverflow && UlongAt(buf, DESCR_OFFSET) == 0
                && UnchangedOutside(buf, NAME_OFFSET, bytesReturned)
                && if QUERY_LENGTH + |list[a[i]].name| + 2 <= outputLength then
                     UlongAt(buf, NAME_OFFSET) == QUERY_LENGTH && StringAt(buf, QUERY_LENGTH, list[a[i]].name)
                     && bytesReturned == QUERY_LENGTH + |list[a[i]].name| + 2
                   else UlongAt(buf, NAME_OFFSET) == 0 && bytesReturned == QUERY_LENGTH
  {
    bytesReturned := 0;
    if inputLength < QUERY_LENGTH {
      return Resources, 0;
    }
    if outputLength < QUERY_LENGTH {
      return BufferOverflow, 0;
    }
    var index := UlongAt(buf, BINDING_INDEX);
    var found := FindActive(list, index);
    if found == None {
      return AdapterNotFound, 0;
    }
    assert list[found.value] in list;
    status, bytesReturned := FillReply(list[found.value], buf, outputLength);
  }

  // ---- ndisprotLookupDevice -----------------------------------------------------------------

  /** The first open on the list, active or not, that has the name. */
  method LookupDevice(list: seq<Entry>, name: seq<byte>) returns (found: Option<nat>)
    ensures found != None ==> found.value < |list| && list[found.value].name == name
    ensures found != None ==> forall j :: 0 <= j < found.value ==> list[j].name != name
    ensures found == None ==> forall e :: e in list ==> e.name != name
  {
    for i := 0 to |list|
      invariant forall j :: 0 <= j < i ==> list[j].name != name
    {
      if list[i].name == name {
        return Some(i);
      }
    }
    found := None;
  }

  /** Looking up the name that a query returned. The open that is found is the one that was
      queried if and only if no open before it on the list has the same name. */
  method QueryThenLookup(list: seq<Entry>, buf: array<byte>, outputLength: nat)
    returns (queried: Option<nat>, found: Option<nat>)
    requires ValidList(list) && QUERY_LENGTH <= outputLength <= buf.Length
    modifies buf
    ensures queried != None <==>
              var a, i := Actives(list), old(UlongAt(buf, BINDING_INDEX)); i < |a| && Fits(list[a[i]], outputLength)
    ensures queried != None ==> queried.value == Actives(list)[old(UlongAt(buf, BINDING_INDEX))]
    ensures queried != None ==>
              (found == queried <==> forall j :: 0 <= j < queried.value ==> list[j].name != list[queried.value].name)
  {
    queried, found := None, None;
    var i := UlongAt(buf, BINDING_INDEX);
    var status, bytesReturned := QueryBinding(list, buf, QUERY_LENGTH, outputLength);
    if status == Success {
      var offset, length := UlongAt(buf, NAME_OFFSET), UlongAt(buf, NAME_LENGTH);
      var name := buf[offset..offset + length];
      found := LookupDevice(list, name);
      queried := FindActive(list, i);
    }
  }

  // ---- The client --------------------------------------------------------------------------

  /** The loop of EnumerateDevices. It counts the active bindings up to the first one whose
      strings do not fit into its buffer, and all of them if every one fits. */
  method EnumerateDevices(list: seq<Entry>, bufLength: nat) returns (n: nat)
    requires ValidList(list) && QUERY_LENGTH <= bufLength
    ensures n <= |Actives(list)|
    ensures forall i :: 0 <= i < n ==> Fits(list[Actives(list)[i]], bufLength)
    ensures n < |Actives(list)| ==> !Fits(list[Actives(list)[n]], bufLength)
  {
    hide UlongAt, Reply, StringAt, Actives;
    var buf := new byte[bufLength](i => 0);
    n := 0;
    PutUlong(buf, BINDING_INDEX, n);
    var more := true;
    while more
      invariant n <= |Actives(list)|
      invariant more ==> UlongAt(buf, BINDING_INDEX) == n
      invariant forall i :: 0 <= i < n ==> Fits(list[Actives(list)[i]], bufLength)
      invariant !more && n < |Actives(list)| ==> !Fits(list[Actives(list)[n]], bufLength)
      decreases |Actives(list)| - n, more
    {
      var status, bytesReturned := QueryBinding(list, buf, QUERY_LENGTH, bufLength);
      if status == Success {
        assert Fits(list[Actives(list)[n]], bufLength);
        forall k | 0 <= k < bufLength {
          buf[k] := 0;
        }
        n := n + 1;
        PutUlong(buf, BINDING_INDEX, n);
      } else {
        more := false;
      }
    }
  }
}
