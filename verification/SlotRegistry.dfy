/** The bridge's slot registry: the id table of slots (never shrinking), the
    free-slot stack and the list of active sessions.

    The functions specify what the control thread does to these tables; the
    class performs the same updates in place.  Sessions are named by numbers.
 */
module SlotRegistry {
  import opened Lists
  import opened Handles

  /** count is the number of sessions this slot has ever been given. */
  datatype Slot = Slot(generation: nat, count: nat, session: Option<nat>)

  /** Slot id n is slots[n - 1]; ids are handed out in increasing order.
      home[s] is the slot pointer stored in session s. */
  datatype Registry = Registry(slots: seq<Slot>, free: seq<nat>, active: seq<nat>, home: map<nat, nat>)

  const Empty := Registry([], [], [], map[])

  ghost predicate FreeListed(r: Registry) {
    && NoDup(r.free)
    && (forall k :: 0 <= k < |r.free| ==> 1 <= r.free[k] <= |r.slots| && r.slots[r.free[k] - 1].session.None?)
    && (forall i :: 0 <= i < |r.slots| && r.slots[i].session.None? ==> i + 1 in r.free)
  }

  ghost predicate Bound(r: Registry) {
    && NoDup(r.active)
    && (forall s :: s in r.active ==> s in r.home && Lookup(r, r.home[s]) == Some(s))
    && (forall i :: 0 <= i < |r.slots| && r.slots[i].session.Some? ==>
          var s := r.slots[i].session.value; s in r.active && s in r.home && r.home[s] == i + 1)
  }

  ghost predicate Counted(r: Registry) {
    && |r.slots| <= SESSION_LIMIT
    && |r.free| + |r.active| == |r.slots|
    && (forall i :: 0 <= i < |r.slots| ==> r.slots[i].generation == GenerationAfter(r.slots[i].count))
    && (forall i :: 0 <= i < |r.slots| && r.slots[i].session.Some? ==> r.slots[i].count >= 1)
  }

  /** Slot registry partition: every slot is either free-listed once or bound
      to exactly one active session, and every active session has its own
      slot. */
  ghost predicate Partitioned(r: Registry) {
    FreeListed(r) && Bound(r) && Counted(r)
  }

  function Lookup(r: Registry, id: nat): Option<nat> {
    if 1 <= id <= |r.slots| then r.slots[id - 1].session else None
  }

  /** The most recently freed slot, else a new id, else none. */
  function NextSlot(r: Registry): Option<nat> {
    if r.free != [] then Some(r.free[0])
    else if |r.slots| < SESSION_LIMIT then Some(|r.slots| + 1)
    else None
  }

  /** Give session s the next slot, advancing its generation. */
  function Bind(r: Registry, s: nat): Registry
    requires NextSlot(r).Some? && (r.free != [] ==> 1 <= r.free[0] <= |r.slots|)
  {
    var id := NextSlot(r).value;
    var slots := if r.free != [] then r.slots else r.slots + [Slot(0, 0, None)];
    var entry := slots[id - 1];
    Registry(slots[id - 1 := Slot(NextGeneration(entry.generation), entry.count + 1, Some(s))],
             if r.free != [] then r.free[1..] else [],
             r.active + [s],
             r.home[s := id])
  }

  /** Clear the slot of session s and push it on the free stack. */
  function Unbind(r: Registry, s: nat): Registry
    requires s in r.home && 1 <= r.home[s] <= |r.slots|
  {
    var id := r.home[s];
    var slot := r.slots[id - 1];
    r.(slots := if slot.session == Some(s) then r.slots[id - 1 := slot.(session := None)] else r.slots,
       free := [id] + r.free,
       active := Remove(r.active, s))
  }

  /** The session a handle names: the slot must be bound and its generation
      must be the handle's. */
  function FindHandle(r: Registry, handle: int): Option<nat> {
    if handle <= 0 || handle > INT_MAX then None
    else
      var id := HandleSlot(handle);
      var generation := HandleGeneration(handle);
      if id == 0 || generation == 0 || generation > GENERATION_MASK then None
      else if id > |r.slots| || r.slots[id - 1].generation != generation then None
      else r.slots[id - 1].session
  }

  lemma NextSlotRange(r: Registry)
    requires Partitioned(r) && NextSlot(r).Some?
    ensures 1 <= NextSlot(r).value <= |r.slots| + 1 && NextSlot(r).value <= SESSION_LIMIT
    ensures Lookup(r, NextSlot(r).value).None?
    ensures r.free != [] ==> 1 <= r.free[0] <= |r.slots|
  {
  }

  lemma BindSlots(r: Registry, s: nat)
    requires NextSlot(r).Some? && (r.free != [] ==> 1 <= r.free[0] <= |r.slots|)
    ensures var r', id := Bind(r, s), NextSlot(r).value;
            && 1 <= id <= |r'.slots| && |r'.slots| == (if r.free != [] then |r.slots| else |r.slots| + 1)
            && (forall i :: 0 <= i < |r.slots| && i != id - 1 ==> r'.slots[i] == r.slots[i])
            && r'.slots[id - 1].session == Some(s)
            && r'.free == (if r.free != [] then r.free[1..] else []) && r'.active == r.active + [s] && r'.home == r.home[s := id]
  {
  }

  lemma BindFreeListed(r: Registry, s: nat)
    requires FreeListed(r) && NextSlot(r).Some? && (r.free != [] ==> 1 <= r.free[0] <= |r.slots|)
    ensures FreeListed(Bind(r, s))
  {
    var r' := Bind(r, s);
    BindSlots(r, s);
    hide Bind;
    if r.free != [] {
      TailNoDup(r.free);
      hide NoDup;
      assert forall k :: 0 <= k < |r'.free| ==> r'.free[k] == r.free[k + 1];
    }
  }

  lemma BindBound(r: Registry, s: nat)
    requires Bound(r) && NextSlot(r).Some? && (r.free != [] ==> 1 <= r.free[0] <= |r.slots|)
    requires Lookup(r, NextSlot(r).value).None? && s !in r.active
    ensures Bound(Bind(r, s))
  {
    var r' := Bind(r, s);
    AppendNoDup(r.active, s);
    BindSlots(r, s);
    hide Bind, NoDup;
    assert forall t :: t in r.active ==> Lookup(r', r.home[t]) == Lookup(r, r.home[t]);
  }

  lemma BindCounted(r: Registry, s: nat)
    requires Counted(r) && NextSlot(r).Some? && (r.free != [] ==> 1 <= r.free[0] <= |r.slots|)
    ensures Counted(Bind(r, s))
  {
    var r', id := Bind(r, s), NextSlot(r).value;
    BindSlots(r, s);
    var count := if r.free != [] then r.slots[id - 1].count else 0;
    assert GenerationAfter(0) == 0;
    assert GenerationAfter(count + 1) == NextGeneration(GenerationAfter(count));
    assert r'.slots[id - 1].generation == NextGeneration(GenerationAfter(count)) && r'.slots[id - 1].count == count + 1;
    hide Bind, NextGeneration;
  }

  lemma BindPartitions(r: Registry, s: nat)
    requires Partitioned(r) && NextSlot(r).Some? && s !in r.active
    requires (r.free != [] ==> 1 <= r.free[0] <= |r.slots|)
    ensures Partitioned(Bind(r, s))
  {
    NextSlotRange(r);
    BindFreeListed(r, s);
    BindBound(r, s);
    BindCounted(r, s);
  }

  lemma UnbindSlots(r: Registry, s: nat)
    requires s in r.home && 1 <= r.home[s] <= |r.slots| && Lookup(r, r.home[s]) == Some(s)
    ensures var r', id := Unbind(r, s), r.home[s];
            && |r'.slots| == |r.slots| && r'.slots[id - 1] == r.slots[id - 1].(session := None)
            && (forall i :: 0 <= i < |r.slots| && i != id - 1 ==> r'.slots[i] == r.slots[i])
            && r'.free == [id] + r.free && r'.active == Remove(r.active, s) && r'.home == r.home
  {
  }

  lemma UnbindFreeListed(r: Registry, s: nat)
    requires FreeListed(r) && s in r.home && 1 <= r.home[s] <= |r.slots| && Lookup(r, r.home[s]) == Some(s)
    ensures FreeListed(Unbind(r, s))
  {
    var r', id := Unbind(r, s), r.home[s];
    UnbindSlots(r, s);
    assert id !in r.free;
    PrependNoDup(r.free, id);
    hide Unbind, NoDup;
    assert forall k :: 1 <= k < |r'.free| ==> r'.free[k] == r.free[k - 1];
  }

  lemma UnbindCounted(r: Registry, s: nat)
    requires Counted(r) && s in r.active && s in r.home && 1 <= r.home[s] <= |r.slots| && Lookup(r, r.home[s]) == Some(s)
    ensures Counted(Unbind(r, s))
  {
    UnbindSlots(r, s);
    hide Unbind, GenerationAfter;
  }

  lemma UnbindBound(r: Registry, s: nat)
    requires Bound(r) && s in r.active && s in r.home && 1 <= r.home[s] <= |r.slots| && Lookup(r, r.home[s]) == Some(s)
    ensures Bound(Unbind(r, s))
    ensures forall t :: t in Unbind(r, s).active <==> t in r.active && t != s
  {
    UnbindSlots(r, s);
    RemoveSpec(r.active, s);
    hide Unbind, Remove;
  }

  lemma ActiveHome(r: Registry, s: nat)
    requires Bound(r) && s in r.active
    ensures s in r.home && 1 <= r.home[s] <= |r.slots| && Lookup(r, r.home[s]) == Some(s)
  {
    assert Lookup(r, r.home[s]) == Some(s);
  }

  lemma UnbindPartitions(r: Registry, s: nat)
    requires Partitioned(r) && s in r.active
    ensures s in r.home && 1 <= r.home[s] <= |r.slots| && Lookup(r, r.home[s]) == Some(s)
    ensures Partitioned(Unbind(r, s))
    ensures Lookup(Unbind(r, s), r.home[s]).None?
    ensures forall other :: other != r.home[s] ==> Lookup(Unbind(r, s), other) == Lookup(r, other)
    ensures forall t :: t in Unbind(r, s).active <==> t in r.active && t != s
  {
    hide FreeListed, Bound, Counted;
    ActiveHome(r, s);
    UnbindSlots(r, s);
    UnbindFreeListed(r, s);
    UnbindCounted(r, s);
    UnbindBound(r, s);
    hide Unbind;
  }

  /** What a failed session allocation leaves of a brand-new slot: it stays in
      the table, unbound and free. */
  function WithSpare(r: Registry): Registry {
    r.(slots := r.slots + [Slot(0, 0, None)], free := [|r.slots| + 1] + r.free)
  }

  lemma SparePartitions(r: Registry)
    requires Partitioned(r)
    ensures r.free == [] && |r.slots| < SESSION_LIMIT ==> Partitioned(WithSpare(r))
    ensures forall id :: Lookup(WithSpare(r), id) == Lookup(r, id)
  {
    var r' := WithSpare(r);
    assert forall s :: s in r.active ==> Lookup(r', r'.home[s]) == Lookup(r, r.home[s]);
    assert GenerationAfter(0) == 0;
  }

  /** The id range runs out exactly when all 1048575 slots are bound. */
  lemma ExhaustedWhenAllBound(r: Registry)
    requires Partitioned(r)
    ensures NextSlot(r).None? <==> |r.active| == SESSION_LIMIT
  {
  }

  lemma FindHandleDecodes(r: Registry, id: nat, generation: nat)
    requires ValidSlot(id) && ValidGeneration(generation) && id <= |r.slots|
    ensures FindHandle(r, MakeHandle(id, generation)) ==
            if r.slots[id - 1].generation == generation then r.slots[id - 1].session else None
  {
    HandleRoundTrip(id, generation);
    hide MakeHandle, HandleSlot, HandleGeneration;
  }

  lemma SlotGeneration(r: Registry, id: nat)
    requires Partitioned(r) && 1 <= id <= |r.slots|
    ensures ValidSlot(id) && r.slots[id - 1].generation == GenerationAfter(r.slots[id - 1].count)
  {
    hide FreeListed, Bound, GenerationAfter;
  }

  lemma NeverUsed(count: nat)
    requires count >= 1
    ensures ValidGeneration(GenerationAfter(count)) && GenerationAfter(0) != GenerationAfter(count)
  {
    GenerationClosedForm(count);
  }

  /** A handle of slot id finds the session bound there exactly when it was
      made for a session whose ordinal is congruent modulo 2047 to the current
      one; otherwise it finds nothing. */
  lemma FindHandleSpec(r: Registry, id: nat, count: nat)
    requires Partitioned(r) && 1 <= id <= |r.slots| && count >= 1
    ensures FindHandle(r, MakeHandle(id, GenerationAfter(count))) ==
            if r.slots[id - 1].count >= 1 && (r.slots[id - 1].count - count) % 2047 == 0
            then r.slots[id - 1].session else None
  {
    hide Partitioned, FindHandle, MakeHandle, GenerationAfter;
    var current := r.slots[id - 1].count;
    SlotGeneration(r, id);
    NeverUsed(count);
    FindHandleDecodes(r, id, GenerationAfter(count));
    if current >= 1 {
      SameGeneration(current, count);
    }
  }

  /** The registry as the kernel keeps it, updated in place. */
  class Table {
    var slots: seq<Slot>
    var free: seq<nat>
    var active: seq<nat>
    var home: map<nat, nat>
    var activeSessions: nat

    ghost function Value(): Registry
      reads this
    {
      Registry(slots, free, active, home)
    }

    ghost predicate Valid()
      reads this
    {
      Partitioned(Value()) && activeSessions == |active|
    }

    constructor ()
      ensures Valid() && Value() == Empty
    {
      slots, free, active, home, activeSessions := [], [], [], map[], 0;
    }

    /** tcpcc_bridge_allocate_slot; noSlot says the allocator runs out of
        memory.  The slot returned is off the free list and unbound. */
    method TakeSlot(noSlot: bool) returns (slot: Option<nat>)
      requires Valid()
      modifies this`slots, this`free
      ensures slot == if old(free) == [] && noSlot then None else old(NextSlot(Value()))
      ensures slot.None? ==> unchanged(this)
      ensures slot.Some? ==>
                && slots == (if old(free) == [] then old(slots) + [Slot(0, 0, None)] else old(slots))
                && free == (if old(free) == [] then [] else old(free)[1..])
    {
      if free != [] {
        slot := Some(free[0]);
        free := free[1..];
      } else if noSlot || |slots| >= SESSION_LIMIT {
        slot := None;
      } else {
        slots := slots + [Slot(0, 0, None)];
        slot := Some(|slots|);
      }
    }

    /** tcpcc_bridge_allocate_session.  A slot whose session could not be
        allocated goes back on the free list with its generation unchanged. */
    method Allocate(s: nat, noSlot: bool, noSession: bool) returns (slot: Option<nat>)
      requires Valid() && s !in active
      modifies this
      ensures Valid()
      ensures slot.Some? <==> old(NextSlot(Value()).Some?) && !(noSlot && old(free) == []) && !noSession
      ensures slot.Some? ==>
                && slot == old(NextSlot(Value()))
                && (old(free) != [] ==> 1 <= old(free)[0] <= |old(slots)|)
                && Value() == Bind(old(Value()), s)
      ensures slot.None? ==>
                Value() == if old(free) == [] && |old(slots)| < SESSION_LIMIT && !noSlot then WithSpare(old(Value())) else old(Value())
    {
      hide FreeListed, Bound, Counted, Bind;
      ghost var before := Value();
      slot := TakeSlot(noSlot);
      if slot.None? {
        return;
      }
      NextSlotRange(before);
      var id := slot.value;
      if noSession {
        free := [id] + free;
        SparePartitions(before);
        assert before.free != [] ==> free == before.free;
        return None;
      }
      BindPartitions(before, s);
      BindTaken(id, s, before);
    }

    /** Advance the taken slot's generation, bind it and list the session. */
    method BindTaken(id: nat, s: nat, ghost before: Registry)
      requires NextSlot(before) == Some(id) && (before.free != [] ==> 1 <= before.free[0] <= |before.slots|)
      requires slots == if before.free == [] then before.slots + [Slot(0, 0, None)] else before.slots
      requires free == if before.free == [] then [] else before.free[1..]
      requires active == before.active && home == before.home && activeSessions == |active|
      modifies this
      ensures Value() == Bind(before, s) && activeSessions == |active|
    {
      var entry := slots[id - 1];
      slots := slots[id - 1 := Slot(NextGeneration(entry.generation), entry.count + 1, Some(s))];
      active := active + [s];
      home := home[s := id];
      activeSessions := activeSessions + 1;
    }

    /** The tail of tcpcc_bridge_reap and tcpcc_bridge_release_failed_start. */
    method Release(s: nat)
      requires Valid() && s in active
      modifies this
      ensures old(s in home && 1 <= home[s] <= |slots|)
      ensures Valid() && Value() == Unbind(old(Value()), s)
    {
      UnbindPartitions(Value(), s);
      var id := home[s];
      if slots[id - 1].session == Some(s) {
        slots := slots[id - 1 := slots[id - 1].(session := None)];
      }
      active := Remove(active, s);
      free := [id] + free;
      activeSessions := activeSessions - 1;
    }

    /** tcpcc_bridge_find_handle. */
    method Find(handle: int) returns (s: Option<nat>)
      requires Valid()
      ensures s == FindHandle(Value(), handle)
      ensures s.Some? ==> s.value in active
    {
      if handle <= 0 || handle > INT_MAX {
        return None;
      }
      var id, generation := HandleSlot(handle), HandleGeneration(handle);
      if id == 0 || generation == 0 || generation > GENERATION_MASK || id > |slots| {
        return None;
      }
      if slots[id - 1].generation != generation {
        return None;
      }
      return slots[id - 1].session;
    }
  }

}
