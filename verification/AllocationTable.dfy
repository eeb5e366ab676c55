/** Published payloads kept alive until every recipient has acknowledged (shared_memory_managers.hpp). */
module AllocationTable {
  import opened Prelude
  import opened ConnectionMetadata
  import opened SlotManager

  /** A payload of ours owns one reference to the slot. One of theirs was received from a peer and is sent on: its
      slot number is of the peer's memory, and destroying it acknowledges it to the peer. */
  datatype Origin = Ours | Theirs

  /** The payload an entry owns, and its recipients that have not acknowledged. */
  datatype Allocation = Allocation(payload: Option<Origin>, pending: nat)

  const FREE := Allocation(None, 0)

  /** The reference counts after a payload with this slot number is destroyed. */
  function Dropped(refs: seq<nat>, slot: Slot, origin: Origin): seq<nat> {
    if origin.Ours? then Released(refs, slot) else refs
  }

  function At(allocs: seq<Allocation>, slot: Slot): Allocation {
    if slot < |allocs| then allocs[slot] else FREE
  }

  function Resize(allocs: seq<Allocation>, size: nat): seq<Allocation> {
    if size <= |allocs| then allocs else allocs + seq(size - |allocs|, _ => FREE)
  }

  /** insert_allocation: a payload nobody received, or one that meets an occupied entry, is destroyed. */
  function Insert(refs: seq<nat>, allocs: seq<Allocation>, slot: Slot, consumers: nat, origin: Origin)
    : (seq<nat>, seq<Allocation>)
  {
    if consumers == 0 then (Dropped(refs, slot, origin), allocs)
    else
      var grown := Resize(allocs, slot + 1);
      var payload := if grown[slot].payload.Some? then grown[slot].payload else Some(origin);
      (if grown[slot].payload.Some? then Dropped(refs, slot, origin) else refs,
       grown[slot := Allocation(payload, grown[slot].pending + consumers)])
  }

  /** payload_consumed: the last acknowledgement destroys the payload. */
  function Consume(refs: seq<nat>, allocs: seq<Allocation>, slot: Slot): (seq<nat>, seq<Allocation>) {
    if At(allocs, slot).pending == 0 then (refs, allocs)
    else if allocs[slot].pending > 1 then
      (refs, allocs[slot := allocs[slot].(pending := allocs[slot].pending - 1)])
    else
      (if allocs[slot].payload.Some? then Dropped(refs, slot, allocs[slot].payload.value) else refs,
       allocs[slot := FREE])
  }

  predicate Published(allocs: seq<Allocation>, slot: Slot) {
    At(allocs, slot).payload.Some?
  }

  /** Each slot is free, being written, or published; a published slot is one with pending consumers, and all payloads
      are ours. */
  ghost predicate SlotAgrees(refs: seq<nat>, allocs: seq<Allocation>, writing: set<Slot>, slot: Slot) {
    && At(allocs, slot).payload == (if At(allocs, slot).pending > 0 then Some(Ours) else None)
    && !(slot in writing && Published(allocs, slot))
    && (if slot < |refs|
        then refs[slot] == if slot in writing || Published(allocs, slot) then 1 else 0
        else slot !in writing && !Published(allocs, slot))
  }

  ghost predicate InAgreement(refs: seq<nat>, allocs: seq<Allocation>, writing: set<Slot>) {
    forall slot: Slot :: SlotAgrees(refs, allocs, writing, slot)
  }

  /** A fresh slot has no published payload, and allocation fails only when no slot is free. */
  lemma FreshSlotIsUnoccupied(refs: seq<nat>, allocs: seq<Allocation>, writing: set<Slot>)
    requires InAgreement(refs, allocs, writing)
    ensures match Allocate(refs)
            case Ok((refs', slot)) =>
              slot !in writing && At(allocs, slot) == FREE && InAgreement(refs', allocs, writing + {slot})
            case Err(_) => forall slot: Slot :: slot < |refs| ==> slot in writing || At(allocs, slot).pending > 0
  {
    match Allocate(refs)
    case Ok((refs', slot)) =>
      assert SlotAgrees(refs, allocs, writing, slot);
      forall other: Slot ensures SlotAgrees(refs', allocs, writing + {slot}, other) {
        assert SlotAgrees(refs, allocs, writing, other);
      }
    case Err(_) =>
      forall slot: Slot | slot < |refs| ensures slot in writing || At(allocs, slot).pending > 0 {
        assert SlotAgrees(refs, allocs, writing, slot);
      }
  }

  lemma AbandonAgrees(refs: seq<nat>, allocs: seq<Allocation>, writing: set<Slot>, slot: Slot)
    requires InAgreement(refs, allocs, writing) && slot in writing
    ensures InAgreement(Released(refs, slot), allocs, writing - {slot})
  {
    assert SlotAgrees(refs, allocs, writing, slot);
    forall other: Slot ensures SlotAgrees(Released(refs, slot), allocs, writing - {slot}, other) {
      assert SlotAgrees(refs, allocs, writing, other);
    }
  }

  /** Publishing a written slot never meets an occupied entry, and counts exactly its recipients. */
  lemma InsertAgrees(refs: seq<nat>, allocs: seq<Allocation>, writing: set<Slot>, slot: Slot, consumers: nat)
    requires InAgreement(refs, allocs, writing) && slot in writing
    ensures At(allocs, slot) == FREE
    ensures var (refs', allocs') := Insert(refs, allocs, slot, consumers, Ours);
            && |refs'| == |refs|
            && InAgreement(refs', allocs', writing - {slot})
            && At(allocs', slot) == Allocation(if consumers > 0 then Some(Ours) else None, consumers)
            && forall other: Slot :: other != slot ==> At(allocs', other) == At(allocs, other)
  {
    var (refs', allocs') := Insert(refs, allocs, slot, consumers, Ours);
    assert SlotAgrees(refs, allocs, writing, slot);
    forall other: Slot
      ensures SlotAgrees(refs', allocs', writing - {slot}, other)
    {
      assert SlotAgrees(refs, allocs, writing, other);
    }
  }

  /** An acknowledgement takes one pending consumer away, and the slot with the last one. */
  lemma ConsumeAgrees(refs: seq<nat>, allocs: seq<Allocation>, writing: set<Slot>, slot: Slot)
    requires InAgreement(refs, allocs, writing)
    ensures var (refs', allocs') := Consume(refs, allocs, slot);
            && |refs'| == |refs|
            && InAgreement(refs', allocs', writing)
            && At(allocs', slot).pending == (if At(allocs, slot).pending == 0 then 0 else At(allocs, slot).pending - 1)
            && forall other: Slot :: other != slot ==> At(allocs', other) == At(allocs, other)
  {
    var (refs', allocs') := Consume(refs, allocs, slot);
    assert SlotAgrees(refs, allocs, writing, slot);
    forall other: Slot
      ensures SlotAgrees(refs', allocs', writing, other)
    {
      assert SlotAgrees(refs, allocs, writing, other);
    }
  }

  /** Storing a payload of a peer keeps the table in agreement exactly when nobody receives it or a payload of ours is
      in its place. */
  lemma InsertForeignAgreesIff(refs: seq<nat>, allocs: seq<Allocation>, writing: set<Slot>, slot: Slot, consumers: nat)
    requires InAgreement(refs, allocs, writing)
    ensures var (refs', allocs') := Insert(refs, allocs, slot, consumers, Theirs);
            && refs' == refs
            && At(allocs', slot).pending == At(allocs, slot).pending + consumers
            && (forall other: Slot :: other != slot ==> At(allocs', other) == At(allocs, other))
            && (InAgreement(refs', allocs', writing) <==> consumers == 0 || Published(allocs, slot))
  {
    var (refs', allocs') := Insert(refs, allocs, slot, consumers, Theirs);
    assert SlotAgrees(refs, allocs, writing, slot);
    if consumers == 0 || Published(allocs, slot) {
      forall other: Slot ensures SlotAgrees(refs', allocs', writing, other) {
        assert SlotAgrees(refs, allocs, writing, other);
      }
    } else {
      assert !SlotAgrees(refs', allocs', writing, slot);
    }
  }

  /** Where a payload of a peer is in the table, the next payload of ours with that slot number loses its slot: it is
      destroyed while its recipients are counted, and the slot is the next to be allocated. */
  lemma ForeignEntryLosesTheNextSlot(refs: seq<nat>, allocs: seq<Allocation>, consumers: nat)
    requires Allocate(refs).Ok? && At(allocs, Allocate(refs).value.1).payload == Some(Theirs) && consumers > 0
    ensures var (taken, slot) := Allocate(refs).value;
            var (refs', allocs') := Insert(taken, allocs, slot, consumers, Ours);
            && At(allocs', slot).pending == At(allocs, slot).pending + consumers
            && refs' == refs && Allocate(refs').Ok? && Allocate(refs').value.1 == slot
  {
    var (taken, slot) := Allocate(refs).value;
    assert Released(refs[slot := 1], slot) == refs;
  }

  class Managers {
    var managers: map<Key, Manager>
    var allocations: map<Key, seq<Allocation>>

    ghost predicate Valid()
      reads this, managers.Values
    {
      forall k :: k in managers ==> managers[k].Valid()
    }

    function AllocationsOf(key: Key): seq<Allocation>
      reads this
    {
      if key in allocations then allocations[key] else []
    }

    constructor (managers: map<Key, Manager>)
      ensures this.managers == managers && allocations == map[]
    {
      this.managers, this.allocations := managers, map[];
    }

    method InsertAllocation(key: Key, slot: Slot, consumers: nat, origin: Origin)
      requires Valid() && key in managers
      modifies this`allocations, managers[key].slots
      ensures (managers[key].slots[..], AllocationsOf(key)) ==
              Insert(old(managers[key].slots[..]), old(AllocationsOf(key)), slot, consumers, origin)
      ensures forall other: Key :: other != key ==> AllocationsOf(other) == old(AllocationsOf(other))
    {
      if consumers == 0 {
        Destroy(key, slot, origin);
        return;
      }
      var entries := AllocationsOf(key);
      if slot >= |entries| {
        entries := entries + seq(slot + 1 - |entries|, _ => FREE);
      }
      var payload := entries[slot].payload;
      if payload.Some? {
        Destroy(key, slot, origin);
      } else {
        payload := Some(origin);
      }
      entries := entries[slot := Allocation(payload, entries[slot].pending + consumers)];
      allocations := allocations[key := entries];
    }

    /** The destructor of a payload. */
    method Destroy(key: Key, slot: Slot, origin: Origin)
      requires Valid() && key in managers
      modifies managers[key].slots
      ensures managers[key].slots[..] == Dropped(old(managers[key].slots[..]), slot, origin)
    {
      if origin.Ours? {
        var _ := managers[key].Release(slot);
      }
    }

    method PayloadConsumed(key: Key, slot: Slot)
      requires Valid() && key in managers
      modifies this`allocations, managers[key].slots
      ensures (managers[key].slots[..], AllocationsOf(key)) ==
              Consume(old(managers[key].slots[..]), old(AllocationsOf(key)), slot)
      ensures forall other: Key :: other != key ==> AllocationsOf(other) == old(AllocationsOf(other))
    {
      if key !in allocations {
        return;
      }
      var entries := allocations[key];
      if slot >= |entries| {
        return;
      }
      if entries[slot].pending == 0 {
        return;
      }
      if entries[slot].pending > 1 {
        allocations := allocations[key := entries[slot := entries[slot].(pending := entries[slot].pending - 1)]];
        return;
      }
      if entries[slot].payload.Some? {
        Destroy(key, slot, entries[slot].payload.value);
      }
      allocations := allocations[key := entries[slot := FREE]];
    }
  }
}
