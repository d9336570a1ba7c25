/** The bit groups of the context's Flags word, and the two macros that set and test one group. */
module Flags {
  import opened Protocol

  const NPROTO_BIND_IDLE: bv32 := 0x00000000
  const NPROTO_BIND_OPENING: bv32 := 0x00000001
  const NPROTO_BIND_FAILED: bv32 := 0x00000002
  const NPROTO_BIND_ACTIVE: bv32 := 0x00000004
  const NPROTO_BIND_CLOSING: bv32 := 0x00000008
  const NPROTO_BIND_FLAGS: bv32 := 0x0000000F
  const NPROTO_OPEN_IDLE: bv32 := 0x00000000
  const NPROTO_OPEN_ACTIVE: bv32 := 0x00000010
  const NPROTO_OPEN_FLAGS: bv32 := 0x000000F0
  const NPROTO_UNBIND_RECEIVED: bv32 := 0x10000000
  const NPROTO_UNBIND_FLAGS: bv32 := 0x10000000

  function SetFlags(flags: bv32, mask: bv32, bits: bv32): bv32 {
    (flags & !mask) | bits
  }

  predicate TestFlags(flags: bv32, mask: bv32, bits: bv32) {
    (flags & mask) == bits
  }

  /** A group that has been set reads what it was set to. */
  lemma SetReads(flags: bv32, mask: bv32, bits: bv32)
    requires bits & !mask == 0
    ensures SetFlags(flags, mask, bits) & mask == bits
  {
  }

  /** Setting a group leaves a disjoint group as it was. */
  lemma SetKeeps(flags: bv32, mask: bv32, bits: bv32, other: bv32)
    requires bits & !mask == 0 && mask & other == 0
    ensures SetFlags(flags, mask, bits) & other == flags & other
  {
  }

  function BindBits(b: BindState): bv32 {
    match b
    case BindIdle => NPROTO_BIND_IDLE
    case BindOpening => NPROTO_BIND_OPENING
    case BindFailed => NPROTO_BIND_FAILED
    case BindActive => NPROTO_BIND_ACTIVE
    case BindClosing => NPROTO_BIND_CLOSING
  }

  function OpenBits(active: bool): bv32 {
    if active then NPROTO_OPEN_ACTIVE else NPROTO_OPEN_IDLE
  }

  function UnbindBits(received: bool): bv32 {
    if received then NPROTO_UNBIND_RECEIVED else 0
  }

  predicate BindIs(flags: bv32, b: BindState) {
    TestFlags(flags, NPROTO_BIND_FLAGS, BindBits(b))
  }

  predicate OpenIs(flags: bv32, active: bool) {
    TestFlags(flags, NPROTO_OPEN_FLAGS, OpenBits(active))
  }

  predicate UnbindIs(flags: bv32, received: bool) {
    TestFlags(flags, NPROTO_UNBIND_FLAGS, UnbindBits(received))
  }

  /** The binding state that the bind group encodes. */
  function BindOf(flags: bv32): BindState {
    if BindIs(flags, BindOpening) then BindOpening
    else if BindIs(flags, BindFailed) then BindFailed
    else if BindIs(flags, BindActive) then BindActive
    else if BindIs(flags, BindClosing) then BindClosing
    else BindIdle
  }

  /** A test of the bind group for one of its nonzero values tells the state. */
  lemma BindTest(flags: bv32, b: BindState)
    requires b != BindIdle
    ensures BindIs(flags, b) <==> BindOf(flags) == b
  {
    BitsDiffer();
  }

  /** Setting the bind group to b makes it test as b and nothing else, and leaves the other groups alone. */
  lemma SetBindBits(flags: bv32, b: BindState)
    ensures var flags' := SetFlags(flags, NPROTO_BIND_FLAGS, BindBits(b));
            && BindOf(flags') == b
            && (forall a :: OpenIs(flags', a) <==> OpenIs(flags, a))
            && (forall u :: UnbindIs(flags', u) <==> UnbindIs(flags, u))
  {
    SetReads(flags, NPROTO_BIND_FLAGS, BindBits(b));
    SetKeeps(flags, NPROTO_BIND_FLAGS, BindBits(b), NPROTO_OPEN_FLAGS);
    SetKeeps(flags, NPROTO_BIND_FLAGS, BindBits(b), NPROTO_UNBIND_FLAGS);
    BitsDiffer();
  }

  lemma BitsDiffer()
    ensures forall b, c :: BindBits(b) == BindBits(c) ==> b == c
    ensures forall b :: BindBits(b) & !NPROTO_BIND_FLAGS == 0
  {
  }

  lemma SetOpenBits(flags: bv32, active: bool)
    ensures var flags' := SetFlags(flags, NPROTO_OPEN_FLAGS, OpenBits(active));
            && (forall a :: OpenIs(flags', a) <==> a == active)
            && BindOf(flags') == BindOf(flags)
            && (forall u :: UnbindIs(flags', u) <==> UnbindIs(flags, u))
  {
    SetReads(flags, NPROTO_OPEN_FLAGS, OpenBits(active));
    SetKeeps(flags, NPROTO_OPEN_FLAGS, OpenBits(active), NPROTO_BIND_FLAGS);
    SetKeeps(flags, NPROTO_OPEN_FLAGS, OpenBits(active), NPROTO_UNBIND_FLAGS);
  }

  lemma SetUnbindBits(flags: bv32, received: bool)
    ensures var flags' := SetFlags(flags, NPROTO_UNBIND_FLAGS, UnbindBits(received));
            && (forall u :: UnbindIs(flags', u) <==> u == received)
            && BindOf(flags') == BindOf(flags)
            && (forall a :: OpenIs(flags', a) <==> OpenIs(flags, a))
  {
    SetReads(flags, NPROTO_UNBIND_FLAGS, UnbindBits(received));
    SetKeeps(flags, NPROTO_UNBIND_FLAGS, UnbindBits(received), NPROTO_BIND_FLAGS);
    SetKeeps(flags, NPROTO_UNBIND_FLAGS, UnbindBits(received), NPROTO_OPEN_FLAGS);
  }
}
