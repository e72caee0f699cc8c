/** Handle, event-token and generation arithmetic of the bridge.

    A handle is a positive signed 32-bit word: bits 30..20 hold the slot
    generation, bits 19..0 the one-based slot id.  An event token is a 64-bit
    word: the runtime bit, 31 bits of generation, 32 bits of runtime slot.
    The C shifts, ors and masks are written as multiplication, addition and
    remainder on naturals.
 */
module Handles {

  const SESSION_LIMIT: nat := 1048575
  const GENERATION_MASK: nat := 2047
  const RUNTIME_SLOT_BASE: nat := 2
  const INT_MAX: nat := 0x7fff_ffff

  predicate ValidSlot(slot: nat) {
    1 <= slot <= SESSION_LIMIT
  }

  predicate ValidGeneration(generation: nat) {
    1 <= generation <= GENERATION_MASK
  }

  /** (generation << 20) | (index + 1), with slot = index + 1. */
  function MakeHandle(slot: nat, generation: nat): nat {
    generation * 0x10_0000 + slot
  }

  function HandleSlot(handle: nat): nat {
    handle % 0x10_0000
  }

  function HandleGeneration(handle: nat): nat {
    handle / 0x10_0000
  }

  function MakeToken(slot: nat, generation: nat): nat {
    0x8000_0000_0000_0000 + generation * 0x1_0000_0000 + RUNTIME_SLOT_BASE + slot - 1
  }

  /** The slot an event token addresses, or 0 when the dispatcher ignores it. */
  function TokenSlot(token: nat): nat {
    var runtimeSlot := token % 0x1_0000_0000;
    if token / 0x8000_0000_0000_0000 % 2 == 0 then 0
    else if runtimeSlot < RUNTIME_SLOT_BASE || runtimeSlot >= RUNTIME_SLOT_BASE + SESSION_LIMIT then 0
    else runtimeSlot - RUNTIME_SLOT_BASE + 1
  }

  /** Advance a slot's generation, skipping zero when the mask wraps. */
  function NextGeneration(generation: nat): nat {
    var next := (generation + 1) % 2048;
    if next == 0 then 1 else next
  }

  /** The generation of the count-th session placed on one slot. */
  function GenerationAfter(count: nat): nat {
    if count == 0 then 0 else NextGeneration(GenerationAfter(count - 1))
  }

  lemma {:induction false} GenerationClosedForm(count: nat)
    requires count >= 1
    ensures GenerationAfter(count) == (count - 1) % 2047 + 1
    ensures ValidGeneration(GenerationAfter(count))
  {
    if count == 1 {
      assert GenerationAfter(0) == 0;
    } else {
      GenerationClosedForm(count - 1);
      RemainderStep(count - 2);
      NextGenerationValue(GenerationAfter(count - 1));
    }
  }

  lemma NextGenerationValue(generation: nat)
    requires ValidGeneration(generation)
    ensures NextGeneration(generation) == if generation == GENERATION_MASK then 1 else generation + 1
  {
  }

  lemma RemainderStep(a: nat)
    ensures (a + 1) % 2047
         == if a % 2047 == GENERATION_MASK - 1 then 0 else a % 2047 + 1
  {
    var q := a / 2047;
    assert a == q * 2047 + a % 2047;
    assert a % 2047 == GENERATION_MASK - 1 ==> a + 1 == (q + 1) * 2047;
  }

  /** Handles are positive signed words and decode to the slot and generation
      they were made from; tokens decode to the same slot. */
  lemma HandleRoundTrip(slot: nat, generation: nat)
    requires ValidSlot(slot) && ValidGeneration(generation)
    ensures 0 < MakeHandle(slot, generation) <= INT_MAX
    ensures HandleSlot(MakeHandle(slot, generation)) == slot
    ensures HandleGeneration(MakeHandle(slot, generation)) == generation
    ensures TokenSlot(MakeToken(slot, generation)) == slot
  {
    var token := MakeToken(slot, generation);
    var runtimeSlot := RUNTIME_SLOT_BASE + slot - 1;
    assert token == (0x8000_0000 + generation) * 0x1_0000_0000 + runtimeSlot;
    assert token % 0x1_0000_0000 == runtimeSlot;
    assert 0x8000_0000_0000_0000 <= token < 2 * 0x8000_0000_0000_0000;
    assert token / 0x8000_0000_0000_0000 == 1;
  }

  lemma HandlesInjective(slot1: nat, generation1: nat, slot2: nat, generation2: nat)
    requires ValidSlot(slot1) && ValidGeneration(generation1)
    requires ValidSlot(slot2) && ValidGeneration(generation2)
    ensures MakeHandle(slot1, generation1) == MakeHandle(slot2, generation2) <==>
            slot1 == slot2 && generation1 == generation2
    ensures MakeToken(slot1, generation1) == MakeToken(slot2, generation2) <==>
            slot1 == slot2 && generation1 == generation2
  {
    HandleRoundTrip(slot1, generation1);
    HandleRoundTrip(slot2, generation2);
  }

  lemma SameGeneration(k: nat, m: nat)
    requires k >= 1 && m >= 1
    ensures GenerationAfter(k) == GenerationAfter(m) <==> (k - m) % 2047 == 0
  {
    GenerationClosedForm(k);
    GenerationClosedForm(m);
    CongruentDifference(k - 1, m - 1);
  }

  lemma CongruentDifference(a: nat, b: nat)
    ensures a % 2047 == b % 2047 <==> (a - b) % 2047 == 0
  {
  }

  /** Stale-handle bound: two sessions of one slot carry the same handle, and
      the same event token, exactly when their ordinals differ by a multiple of
      2047. */
  lemma StaleHandleBound(slot: nat, k: nat, m: nat)
    requires ValidSlot(slot) && k >= 1 && m >= 1
    ensures MakeHandle(slot, GenerationAfter(k)) == MakeHandle(slot, GenerationAfter(m)) <==>
            (k - m) % 2047 == 0
    ensures MakeToken(slot, GenerationAfter(k)) == MakeToken(slot, GenerationAfter(m)) <==>
            (k - m) % 2047 == 0
  {
    SameGeneration(k, m);
    GenerationClosedForm(k);
    GenerationClosedForm(m);
    HandlesInjective(slot, GenerationAfter(k), slot, GenerationAfter(m));
  }
}
