/** The reference-counting slot allocator and its guards (shared_memory_slot_manager.cpp). */
module SlotManager {
  import opened Prelude

  type Slot = nat

  datatype SlotError = NoAvailableSlots | InvalidSlotHandle | SlotNotAllocated

  // The reference counts.

  function FirstFree(refs: seq<nat>, from: nat): (slot: Option<Slot>)
    requires from <= |refs|
    ensures slot.Some? ==> from <= slot.value < |refs| && refs[slot.value] == 0
    ensures slot.Some? ==> forall i :: from <= i < slot.value ==> refs[i] > 0
    ensures slot.None? ==> forall i :: from <= i < |refs| ==> refs[i] > 0
    decreases |refs| - from
  {
    if from == |refs| then None
    else if refs[from] == 0 then Some(from)
    else FirstFree(refs, from + 1)
  }

  function Allocate(refs: seq<nat>): Result<(seq<nat>, Slot), SlotError> {
    match FirstFree(refs, 0)
    case Some(i) => Ok((refs[i := 1], i))
    case None => Err(NoAvailableSlots)
  }

  function AddConsumer(refs: seq<nat>, h: Slot): Result<seq<nat>, SlotError> {
    if h >= |refs| then Err(InvalidSlotHandle)
    else if refs[h] == 0 then Err(SlotNotAllocated)
    else Ok(refs[h := refs[h] + 1])
  }

  function ReleaseSlot(refs: seq<nat>, h: Slot): Result<seq<nat>, SlotError> {
    if h >= |refs| then Err(InvalidSlotHandle)
    else if refs[h] == 0 then Err(SlotNotAllocated)
    else Ok(refs[h := refs[h] - 1])
  }

  /** A release whose error is ignored, as the guards do it. */
  function Released(refs: seq<nat>, h: Slot): seq<nat> {
    match ReleaseSlot(refs, h)
    case Ok(r) => r
    case Err(_) => refs
  }

  // Guards. A guard holds one reference; `born` names the allocation the reference comes from.

  type GuardId = nat

  datatype Hold = Hold(slot: Slot, born: nat)

  /** `loose` counts the references taken out of guards by release() or add_consumer(). */
  datatype Pool = Pool(refs: seq<nat>, guards: map<GuardId, Option<Hold>>, loose: multiset<Slot>,
                       born: map<Slot, nat>, clock: nat)

  datatype Op =
    | AllocateSlot(g: GuardId)
    | Share(from: GuardId, to: GuardId)
    | MoveConstruct(from: GuardId, to: GuardId)
    | MoveAssign(from: GuardId, to: GuardId)
    | Reset(g: GuardId)
    | Destroy(g: GuardId)
    | ReleaseGuard(g: GuardId)
    | TakeLoose(slot: Slot)
    | ReturnLoose(slot: Slot)

  predicate Legal(p: Pool, op: Op) {
    match op
    case AllocateSlot(g) => g !in p.guards
    case Share(from, to) => from in p.guards && to !in p.guards
    case MoveConstruct(from, to) => from in p.guards && to !in p.guards
    case MoveAssign(from, to) => from in p.guards && to in p.guards
    case Reset(g) => g in p.guards
    case Destroy(g) => g in p.guards
    case ReleaseGuard(g) => g in p.guards
    case TakeLoose(_) => true
    case ReturnLoose(slot) => slot in p.loose
  }

  function ResetGuard(p: Pool, g: GuardId): Pool
    requires g in p.guards
  {
    if p.guards[g].Some? then
      p.(refs := Released(p.refs, p.guards[g].value.slot), guards := p.guards[g := None])
    else p
  }

  function Apply(p: Pool, op: Op): Pool
    requires Legal(p, op)
  {
    match op
    case AllocateSlot(g) =>
      (match Allocate(p.refs)
       case Ok((refs, i)) =>
         Pool(refs, p.guards[g := Some(Hold(i, p.clock))], p.loose, p.born[i := p.clock], p.clock + 1)
       case Err(_) => p)
    case Share(from, to) =>
      (match p.guards[from]
       case None => p.(guards := p.guards[to := None])
       case Some(h) =>
         match AddConsumer(p.refs, h.slot)
         case Ok(refs) => p.(refs := refs, guards := p.guards[to := Some(h)])
         case Err(_) => p.(guards := p.guards[to := None]))
    case MoveConstruct(from, to) =>
      p.(guards := p.guards[to := p.guards[from]][from := None])
    case MoveAssign(from, to) =>
      if from == to then p
      else
        var q := ResetGuard(p, to);
        q.(guards := q.guards[to := q.guards[from]][from := None])
    case Reset(g) => ResetGuard(p, g)
    case Destroy(g) =>
      var q := ResetGuard(p, g);
      q.(guards := q.guards - {g})
    case ReleaseGuard(g) =>
      if p.guards[g].Some? then
        p.(guards := p.guards[g := None], loose := p.loose + multiset{p.guards[g].value.slot})
      else p
    case TakeLoose(slot) =>
      (match AddConsumer(p.refs, slot)
       case Ok(refs) => p.(refs := refs, loose := p.loose + multiset{slot})
       case Err(_) => p)
    case ReturnLoose(slot) =>
      p.(refs := Released(p.refs, slot), loose := p.loose - multiset{slot})
  }

  function Holders(guards: map<GuardId, Option<Hold>>, slot: Slot): set<GuardId> {
    set g | g in guards && guards[g].Some? && guards[g].value.slot == slot
  }

  ghost predicate Conserved(p: Pool) {
    && (forall slot :: 0 <= slot < |p.refs| ==> p.refs[slot] == |Holders(p.guards, slot)| + p.loose[slot])
    && (forall slot :: slot in p.loose ==> slot < |p.refs|)
    && (forall g :: g in p.guards && p.guards[g].Some? ==> p.guards[g].value.slot < |p.refs|)
  }

  /** References to one slot come from its latest allocation, and no two slots share one. */
  ghost predicate Separate(p: Pool) {
    && (forall i :: i in p.born ==> i < |p.refs| && p.born[i] < p.clock)
    && (forall i, j :: i in p.born && j in p.born && p.born[i] == p.born[j] ==> i == j)
    && AllFromLatest(p.guards, p.born)
  }

  ghost predicate AllFromLatest(guards: map<GuardId, Option<Hold>>, born: map<Slot, nat>) {
    forall g :: g in guards && guards[g].Some? ==>
      guards[g].value.slot in born && guards[g].value.born == born[guards[g].value.slot]
  }

  function InitPool(count: nat): Pool {
    Pool(seq(count, _ => 0), map[], multiset{}, map[], 0)
  }

  lemma HoldersPut(guards: map<GuardId, Option<Hold>>, g: GuardId, h: Option<Hold>, slot: Slot)
    ensures |Holders(guards[g := h], slot)| ==
            |Holders(guards, slot) - {g}| + if h.Some? && h.value.slot == slot then 1 else 0
    ensures |Holders(guards, slot) - {g}| ==
            |Holders(guards, slot)| - if g in Holders(guards, slot) then 1 else 0
  {
    var before, after := Holders(guards, slot), Holders(guards[g := h], slot);
    CountOne(before, after, g, g in before, h.Some? && h.value.slot == slot);
  }

  lemma HoldersMove(guards: map<GuardId, Option<Hold>>, from: GuardId, to: GuardId, slot: Slot)
    requires from in guards && from != to
    requires to in guards ==> guards[to].None?
    ensures |Holders(guards[to := guards[from]][from := None], slot)| == |Holders(guards, slot)|
  {
    HoldersPut(guards, to, guards[from], slot);
    HoldersPut(guards[to := guards[from]], from, None, slot);
  }

  lemma ResetConserves(p: Pool, g: GuardId)
    requires g in p.guards && Conserved(p)
    ensures Conserved(ResetGuard(p, g))
  {
    var q := ResetGuard(p, g);
    if p.guards[g].Some? {
      var held := p.guards[g].value.slot;
      assert g in Holders(p.guards, held);
      HoldersPut(p.guards, g, None, held);
      forall slot | 0 <= slot < |p.refs|
        ensures q.refs[slot] == |Holders(q.guards, slot)| + q.loose[slot]
      {
        HoldersPut(p.guards, g, None, slot);
      }
    }
  }

  lemma AllocationConserves(p: Pool, g: GuardId)
    requires Conserved(p) && Legal(p, AllocateSlot(g))
    ensures Conserved(Apply(p, AllocateSlot(g)))
  {
    if Allocate(p.refs).Ok? {
      var q := Apply(p, AllocateSlot(g));
      forall slot | 0 <= slot < |p.refs|
        ensures q.refs[slot] == |Holders(q.guards, slot)| + q.loose[slot]
      {
        HoldersPut(p.guards, g, q.guards[g], slot);
      }
    }
  }

  lemma ShareConserves(p: Pool, from: GuardId, to: GuardId)
    requires Conserved(p) && Legal(p, Share(from, to))
    ensures Conserved(Apply(p, Share(from, to)))
  {
    var q := Apply(p, Share(from, to));
    if p.guards[from].Some? {
      assert from in Holders(p.guards, p.guards[from].value.slot);
    }
    forall slot | 0 <= slot < |p.refs|
      ensures q.refs[slot] == |Holders(q.guards, slot)| + q.loose[slot]
    {
      HoldersPut(p.guards, to, q.guards[to], slot);
    }
  }

  lemma MoveConserves(p: Pool, from: GuardId, to: GuardId)
    requires Conserved(p) && from in p.guards && from != to
    requires to in p.guards ==> p.guards[to].None?
    ensures Conserved(p.(guards := p.guards[to := p.guards[from]][from := None]))
  {
    forall slot | 0 <= slot < |p.refs| { HoldersMove(p.guards, from, to, slot); }
  }

  lemma DetachConserves(p: Pool, g: GuardId)
    requires Conserved(p) && g in p.guards
    ensures Conserved(Apply(p, ReleaseGuard(g)))
  {
    if p.guards[g].Some? {
      var held := p.guards[g].value.slot;
      var guards, loose := p.guards[g := None], p.loose + multiset{held};
      assert g in Holders(p.guards, held);
      forall slot | 0 <= slot < |p.refs|
        ensures p.refs[slot] == |Holders(guards, slot)| + loose[slot]
      {
        HoldersPut(p.guards, g, None, slot);
      }
      assert Apply(p, ReleaseGuard(g)) == p.(guards := guards, loose := loose);
    }
  }

  lemma DestroyConserves(p: Pool, g: GuardId)
    requires Conserved(p) && g in p.guards
    ensures Conserved(Apply(p, Destroy(g)))
  {
    var q := ResetGuard(p, g);
    ResetConserves(p, g);
    forall slot: Slot ensures Holders(q.guards - {g}, slot) == Holders(q.guards, slot) { }
  }

  lemma TakeConserves(p: Pool, slot: Slot)
    requires Conserved(p)
    ensures Conserved(Apply(p, TakeLoose(slot)))
  {
  }

  lemma ReturnConserves(p: Pool, slot: Slot)
    requires Conserved(p) && Legal(p, ReturnLoose(slot))
    ensures Conserved(Apply(p, ReturnLoose(slot)))
  {
  }

  lemma StepConserves(p: Pool, op: Op)
    requires Conserved(p) && Legal(p, op)
    ensures Conserved(Apply(p, op))
  {
    match op
    case AllocateSlot(g) => AllocationConserves(p, g);
    case Share(from, to) => ShareConserves(p, from, to);
    case MoveConstruct(from, to) => MoveConserves(p, from, to);
    case MoveAssign(from, to) =>
      if from != to {
        ResetConserves(p, to);
        MoveConserves(ResetGuard(p, to), from, to);
      }
    case Reset(g) => ResetConserves(p, g);
    case Destroy(g) => DestroyConserves(p, g);
    case ReleaseGuard(g) => DetachConserves(p, g);
    case TakeLoose(slot) => TakeConserves(p, slot);
    case ReturnLoose(slot) => ReturnConserves(p, slot);
  }

  function HeldBy(p: Pool, g: GuardId): Option<Hold> {
    if g in p.guards then p.guards[g] else None
  }

  /** What a guard holds after an operation: sharing gives a second guard what the first keeps, moving hands it over,
      letting go leaves nothing, and every other guard holds what it held. */
  function Holding(p: Pool, op: Op, g: GuardId): Option<Hold> {
    if op.AllocateSlot? && op.g == g then
      if Allocate(p.refs).Ok? then Some(Hold(Allocate(p.refs).value.1, p.clock)) else None
    else if (op.Share? || op.MoveConstruct? || op.MoveAssign?) && op.to == g then HeldBy(p, op.from)
    else if (op.MoveConstruct? || op.MoveAssign?) && op.from == g then None
    else if (op.Reset? || op.Destroy? || op.ReleaseGuard?) && op.g == g then None
    else HeldBy(p, g)
  }

  lemma SharedAsTold(p: Pool, from: GuardId, to: GuardId, g: GuardId)
    requires Conserved(p) && Legal(p, Share(from, to))
    ensures HeldBy(Apply(p, Share(from, to)), g) == Holding(p, Share(from, to), g)
  {
    if p.guards[from].Some? {
      assert from in Holders(p.guards, p.guards[from].value.slot);
    }
  }

  lemma MovedAsTold(p: Pool, op: Op, g: GuardId)
    requires Legal(p, op) && (op.MoveConstruct? || op.MoveAssign?)
    ensures HeldBy(Apply(p, op), g) == Holding(p, op, g)
  {
  }

  lemma DroppedAsTold(p: Pool, op: Op, g: GuardId)
    requires Legal(p, op) && (op.Reset? || op.Destroy? || op.ReleaseGuard? || op.TakeLoose? || op.ReturnLoose?)
    ensures HeldBy(Apply(p, op), g) == Holding(p, op, g)
  {
  }

  lemma AllocatedAsTold(p: Pool, g: GuardId, h: GuardId)
    requires Legal(p, AllocateSlot(g))
    ensures HeldBy(Apply(p, AllocateSlot(g)), h) == Holding(p, AllocateSlot(g), h)
  {
  }

  lemma GuardsHoldAsTold(p: Pool, op: Op, g: GuardId)
    requires Conserved(p) && Legal(p, op)
    ensures HeldBy(Apply(p, op), g) == Holding(p, op, g)
  {
    if op.AllocateSlot? {
      AllocatedAsTold(p, op.g, g);
    } else if op.Share? {
      SharedAsTold(p, op.from, op.to, g);
    } else if op.MoveConstruct? || op.MoveAssign? {
      MovedAsTold(p, op, g);
    } else {
      DroppedAsTold(p, op, g);
    }
  }

  /** The references outside guards: one more for a guard that is released or a consumer that is added, one less for one
      that is given back. */
  lemma LooseReferencesChangeAsTold(p: Pool, op: Op, slot: Slot)
    requires Conserved(p) && Legal(p, op)
    ensures Apply(p, op).loose[slot] == p.loose[slot]
              + One(op.ReleaseGuard? && HeldBy(p, op.g).Some? && HeldBy(p, op.g).value.slot == slot)
              + One(op == TakeLoose(slot) && (Holders(p.guards, slot) != {} || slot in p.loose))
              - One(op == ReturnLoose(slot))
  {
    if slot < |p.refs| {
      assert p.refs[slot] > 0 <==> Holders(p.guards, slot) != {} || slot in p.loose;
    } else {
      assert Holders(p.guards, slot) == {};
    }
  }

  lemma AllocationSeparates(p: Pool, g: GuardId)
    requires Conserved(p) && Separate(p) && Legal(p, AllocateSlot(g))
    ensures Separate(Apply(p, AllocateSlot(g)))
  {
    if Allocate(p.refs).Ok? {
      var i := Allocate(p.refs).value.1;
      assert Holders(p.guards, i) == {};
      forall k | k in p.guards && p.guards[k].Some? ensures p.guards[k].value.slot != i {
        assert p.guards[k].value.slot == i ==> k in Holders(p.guards, i);
      }
    }
  }

  /** Every hold of the second pool is one of the first. */
  ghost predicate HoldsFrom(p: Pool, q: Pool) {
    && |q.refs| == |p.refs| && q.born == p.born && q.clock == p.clock
    && forall g :: g in q.guards && q.guards[g].Some? ==> exists f :: f in p.guards && p.guards[f] == q.guards[g]
  }

  lemma MovesHoldFrom(p: Pool, op: Op)
    requires Legal(p, op) && (op.Share? || op.MoveConstruct? || op.MoveAssign?)
    ensures HoldsFrom(p, Apply(p, op))
  {
  }

  lemma DropsHoldFrom(p: Pool, op: Op)
    requires Legal(p, op) && (op.Reset? || op.Destroy? || op.ReleaseGuard?)
    ensures HoldsFrom(p, Apply(p, op))
  {
  }

  lemma LooseHoldFrom(p: Pool, op: Op)
    requires Legal(p, op) && (op.TakeLoose? || op.ReturnLoose?)
    ensures HoldsFrom(p, Apply(p, op))
  {
  }

  lemma StepSeparates(p: Pool, op: Op)
    requires Conserved(p) && Separate(p) && Legal(p, op)
    ensures Separate(Apply(p, op))
  {
    if op.AllocateSlot? {
      AllocationSeparates(p, op.g);
    } else if op.Share? || op.MoveConstruct? || op.MoveAssign? {
      MovesHoldFrom(p, op);
    } else if op.TakeLoose? || op.ReturnLoose? {
      LooseHoldFrom(p, op);
    } else {
      DropsHoldFrom(p, op);
    }
  }

  ghost predicate LegalRun(p: Pool, ops: seq<Op>)
    decreases ops
  {
    ops == [] || (Legal(p, ops[0]) && LegalRun(Apply(p, ops[0]), ops[1..]))
  }

  function Run(p: Pool, ops: seq<Op>): Pool
    requires LegalRun(p, ops)
    decreases ops
  {
    if ops == [] then p else Run(Apply(p, ops[0]), ops[1..])
  }

  lemma {:induction false} RunKeeps(p: Pool, ops: seq<Op>)
    requires LegalRun(p, ops) && Conserved(p) && Separate(p)
    ensures Conserved(Run(p, ops)) && Separate(Run(p, ops))
    decreases ops
  {
    if ops != [] {
      StepConserves(p, ops[0]);
      StepSeparates(p, ops[0]);
      RunKeeps(Apply(p, ops[0]), ops[1..]);
    }
  }

  /** In every reachable pool each count is the number of live guards plus loose references. */
  lemma ReferenceCountsAreConserved(count: nat, ops: seq<Op>)
    requires LegalRun(InitPool(count), ops)
    ensures Conserved(Run(InitPool(count), ops)) && Separate(Run(InitPool(count), ops))
  {
    var p := InitPool(count);
    forall slot: Slot ensures Holders(p.guards, slot) == {} {}
    RunKeeps(p, ops);
  }

  /** Allocation fails exactly when every slot is held, and otherwise takes the lowest slot nobody holds. */
  lemma AllocationTakesTheLowestFree(p: Pool)
    requires Conserved(p)
    ensures Allocate(p.refs).Err? <==>
            forall s :: 0 <= s < |p.refs| ==> Holders(p.guards, s) != {} || s in p.loose
    ensures Allocate(p.refs).Ok? ==>
            var s := Allocate(p.refs).value.1;
            && s < |p.refs| && Holders(p.guards, s) == {} && s !in p.loose
            && forall lower :: 0 <= lower < s ==> Holders(p.guards, lower) != {} || lower in p.loose
  {
    forall s | 0 <= s < |p.refs|
      ensures p.refs[s] > 0 <==> Holders(p.guards, s) != {} || s in p.loose
    {
    }
  }

  // Memory: one region, slot i at offset i * size.

  function Offset(size: nat, slot: Slot): nat {
    slot * size
  }

  ghost predicate InSlot(size: nat, slot: Slot, at: nat) {
    Offset(size, slot) <= at < Offset(size, slot) + size
  }

  lemma OffsetBounds(size: nat, count: nat, slot: Slot)
    requires slot < count
    ensures Offset(size, slot) + size <= count * size
  {
    assert count * size == (count - slot - 1) * size + slot * size + size;
  }

  lemma SlotsApart(size: nat, s: Slot, t: Slot)
    requires s < t
    ensures Offset(size, s) + size <= Offset(size, t)
  {
    OffsetBounds(size, t, s);
  }

  /** Live guards own byte ranges inside the region, and two guards share a byte exactly when they stem
      from the same allocation. */
  lemma GuardsOwnDisjointRanges(p: Pool, size: nat, g: GuardId, h: GuardId)
    requires Separate(p) && size > 0
    requires g in p.guards && h in p.guards && p.guards[g].Some? && p.guards[h].Some?
    ensures forall at: nat :: InSlot(size, p.guards[g].value.slot, at) ==> at < |p.refs| * size
    ensures p.guards[g].value.born == p.guards[h].value.born <==>
            exists at: nat :: InSlot(size, p.guards[g].value.slot, at) && InSlot(size, p.guards[h].value.slot, at)
  {
    var s, t := p.guards[g].value.slot, p.guards[h].value.slot;
    OffsetBounds(size, |p.refs|, s);
    if s == t {
      assert InSlot(size, s, Offset(size, s));
    } else if s < t {
      SlotsApart(size, s, t);
    } else {
      SlotsApart(size, t, s);
    }
  }

  function SlotBytes(memory: seq<Byte>, size: nat, slot: Slot): seq<Byte>
    requires Offset(size, slot) + size <= |memory|
  {
    memory[Offset(size, slot)..Offset(size, slot) + size]
  }

  /** Storing bytes from the start of a slot. */
  function Write(memory: seq<Byte>, size: nat, slot: Slot, bytes: seq<Byte>): seq<Byte>
    requires |bytes| <= size && Offset(size, slot) + size <= |memory|
  {
    var at := Offset(size, slot);
    memory[..at] + bytes + memory[at + |bytes|..]
  }

  /** A write shows at the front of its own slot and in no other slot. */
  lemma WriteIsLocal(memory: seq<Byte>, size: nat, count: nat, slot: Slot, bytes: seq<Byte>, other: Slot)
    requires |memory| == count * size && slot < count && other < count && |bytes| <= size
    ensures Offset(size, slot) + size <= |memory| && Offset(size, other) + size <= |memory|
    ensures var after := Write(memory, size, slot, bytes);
            && |after| == |memory|
            && SlotBytes(after, size, slot)[..|bytes|] == bytes
            && (other != slot ==> SlotBytes(after, size, other) == SlotBytes(memory, size, other))
  {
    OffsetBounds(size, count, slot);
    OffsetBounds(size, count, other);
    if other < slot {
      SlotsApart(size, other, slot);
    } else if slot < other {
      SlotsApart(size, slot, other);
    }
  }

  class Manager {
    const slotSize: nat
    const slotCount: nat
    const slots: array<nat>

    ghost predicate Valid()
      reads this
    {
      slots.Length == slotCount
    }

    constructor (slotSize: nat, slotCount: nat)
      ensures Valid() && fresh(slots) && this.slotSize == slotSize && this.slotCount == slotCount
      ensures slots[..] == InitPool(slotCount).refs
    {
      this.slotSize, this.slotCount := slotSize, slotCount;
      slots := new nat[slotCount](_ => 0);
    }

    method AllocateSlot() returns (r: Result<Slot, SlotError>)
      requires Valid()
      modifies slots
      ensures match Allocate(old(slots[..]))
              case Ok((refs, i)) => r == Ok(i) && slots[..] == refs
              case Err(e) => r == Err(e) && slots[..] == old(slots[..])
    {
      for i := 0 to slotCount
        invariant slots[..] == old(slots[..])
        invariant FirstFree(slots[..], 0) == FirstFree(slots[..], i)
      {
        if slots[i] == 0 {
          slots[i] := 1;
          return Ok(i);
        }
      }
      return Err(NoAvailableSlots);
    }

    method AddConsumerTo(h: Slot) returns (r: Result<(), SlotError>)
      requires Valid()
      modifies slots
      ensures match AddConsumer(old(slots[..]), h)
              case Ok(refs) => r == Ok(()) && slots[..] == refs
              case Err(e) => r == Err(e) && slots[..] == old(slots[..])
    {
      if h >= slotCount {
        return Err(InvalidSlotHandle);
      }
      if slots[h] == 0 {
        return Err(SlotNotAllocated);
      }
      slots[h] := slots[h] + 1;
      return Ok(());
    }

    method Release(h: Slot) returns (r: Result<(), SlotError>)
      requires Valid()
      modifies slots
      ensures match ReleaseSlot(old(slots[..]), h)
              case Ok(refs) => r == Ok(()) && slots[..] == refs
              case Err(e) => r == Err(e) && slots[..] == old(slots[..])
    {
      if h >= slotCount {
        return Err(InvalidSlotHandle);
      }
      if slots[h] == 0 {
        return Err(SlotNotAllocated);
      }
      slots[h] := slots[h] - 1;
      return Ok(());
    }

    /** The byte range of an allocated slot. */
    method GetMemory(h: Slot) returns (r: Result<(nat, nat), SlotError>)
      requires Valid()
      ensures r == if h >= |slots[..]| then Err(InvalidSlotHandle)
                   else if slots[..][h] == 0 then Err(SlotNotAllocated)
                   else Ok((Offset(slotSize, h), slotSize))
      ensures r.Ok? ==> r.value.0 + r.value.1 <= slotCount * slotSize
    {
      if h >= slotCount {
        return Err(InvalidSlotHandle);
      }
      if slots[h] == 0 {
        return Err(SlotNotAllocated);
      }
      OffsetBounds(slotSize, slotCount, h);
      return Ok((h * slotSize, slotSize));
    }
  }

  /** The RAII guard. A guard without a manager holds nothing. */
  class Guard {
    var manager: Manager?
    var handle: Slot

    ghost predicate Valid()
      reads this, manager
    {
      manager != null ==> manager.Valid()
    }

    constructor (manager: Manager?, handle: Slot)
      ensures this.manager == manager && this.handle == handle
    {
      this.manager, this.handle := manager, handle;
    }

    /** The move constructor. */
    constructor MoveFrom(other: Guard)
      modifies other
      ensures manager == old(other.manager) && handle == old(other.handle)
      ensures other.manager == null && other.handle == old(other.handle)
    {
      manager, handle := other.manager, other.handle;
      new;
      other.manager := null;
    }

    /** Also what the destructor does. */
    method Clear()
      requires Valid()
      modifies this, if manager == null then {} else {manager.slots}
      ensures manager == null && handle == old(handle)
      ensures old(manager) != null ==>
              old(manager).slots[..] == Released(old(manager.slots[..]), handle)
    {
      if manager != null {
        var _ := manager.Release(handle);
        manager := null;
      }
    }

    method Assign(other: Guard)
      requires Valid() && other.Valid()
      modifies this, other, if manager == null then {} else {manager.slots}
      ensures this == other ==> manager == old(manager) && handle == old(handle)
      ensures this != other ==>
              && manager == old(other.manager) && handle == old(other.handle)
              && other.manager == null && other.handle == old(other.handle)
      ensures old(manager) != null ==>
              old(manager).slots[..] ==
              if this == other then old(manager.slots[..]) else Released(old(manager.slots[..]), old(handle))
    {
      if this != other {
        Clear();
        manager, handle := other.manager, other.handle;
        other.manager := null;
      }
    }

    method ShareSlot() returns (guard: Guard)
      requires Valid()
      modifies if manager == null then {} else {manager.slots}
      ensures fresh(guard) && manager == old(manager) && handle == old(handle)
      ensures manager == null ==> guard.manager == null
      ensures manager != null ==>
              match AddConsumer(old(manager.slots[..]), handle)
              case Ok(refs) => guard.manager == manager && guard.handle == handle && manager.slots[..] == refs
              case Err(_) => guard.manager == null && manager.slots[..] == old(manager.slots[..])
    {
      if manager == null {
        guard := new Guard(null, 0);
        return;
      }
      var r := manager.AddConsumerTo(handle);
      if r.Ok? {
        guard := new Guard(manager, handle);
      } else {
        guard := new Guard(null, 0);
      }
    }

    method Detach() returns (r: Result<Slot, SlotError>)
      modifies this
      ensures manager == null && handle == old(handle)
      ensures r == if old(manager) == null then Err(SlotNotAllocated) else Ok(old(handle))
    {
      if manager == null {
        return Err(SlotNotAllocated);
      }
      manager := null;
      return Ok(handle);
    }
  }
}
