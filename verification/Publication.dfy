/** What a publication hands out, where its bytes come from, and when its slot comes back (binding_base.cpp,
    shared_memory_managers.hpp). */
module Publication {
  import opened Prelude
  import opened ConnectionMetadata
  import SM = SlotManager
  import opened AllocationTable
  import opened SlotLifetime
  import B = Binding

  // Who receives what.

  /** The client owns a mapping of the key. */
  ghost predicate Owns(t: Table, c: Client, key: Key) {
    exists e :: e in EntriesOf(t, c) && e.key == key
  }

  /** The handle of the mapping of the key that the client made last. */
  ghost predicate LastHandle(t: Table, c: Client, key: Key, handle: Handle) {
    var v := EntriesOf(t, c);
    exists i :: 0 <= i < |v| && v[i].key == key && v[i].remote == handle && forall j :: i < j < |v| ==> v[j].key != key
  }

  lemma OwnsIsLast(t: Table, c: Client, key: Key)
    ensures Owns(t, c, key) <==> c in t && LastWithKey(t[c], key).Some?
  {
    var v := EntriesOf(t, c);
    var at := LastWithKey(v, key);
    if at.Some? {
      assert v[at.value] in v;
    }
  }

  /** What one recipient is sent: the first `used` bytes of the slot, under the handle it knows the service by. */
  ghost predicate Rightly(s: System, key: Key, slot: SM.Slot, used: nat, t: Token)
    requires key in s.memory
  {
    && t.stage == InFlight && |t.copy| == used && used <= |BytesAt(s.memory[key], slot)|
    && (forall i :: 0 <= i < used ==> t.copy[i] == BytesAt(s.memory[key], slot)[i])
    && LastHandle(s.node.table, t.client, key, t.handle)
  }

  lemma PublishHandsOut(s: System, key: Key, slot: SM.Slot, used: nat, ok: set<Client>)
    requires Inv(s) && Possible(s, Publish(key, slot, used, ok))
    ensures used <= |BytesAt(s.memory[key], slot)|
    ensures var s' := Perform(s, Publish(key, slot, used, ok));
            Out(s', key, slot) == multiset(NewTokens(s.node.table, key, BytesAt(s.memory[key], slot)[..used], ok))
  {
    WritingIsInside(s.memory[key], slot);
    PublishEffect(s, key, slot, BytesAt(s.memory[key], slot)[..used], ok);
  }

  /** Every update carries the first `used` bytes of the slot and the handle of its client's latest mapping. */
  lemma PublishedTokenIsRight(s: System, key: Key, slot: SM.Slot, used: nat, ok: set<Client>, t: Token)
    requires Inv(s) && Possible(s, Publish(key, slot, used, ok))
    requires t in Out(Perform(s, Publish(key, slot, used, ok)), key, slot)
    ensures Rightly(s, key, slot, used, t) && t.client in ok
  {
    var table, copy := s.node.table, BytesAt(s.memory[key], slot);
    PublishHandsOut(s, key, slot, used, ok);
    assert t in NewTokens(table, key, copy[..used], ok);
    var c :| c in Recipients(table, key, ok) && t == TokenFor(table, key, copy[..used], c);
    var v := EntriesOf(table, c);
    var at := LastWithKey(v, key).value;
    assert v[at].key == key && v[at].remote == t.handle;
  }

  /** Exactly the clients that own a mapping of the service and can be sent to get an update. */
  lemma ReachedIffOwner(s: System, key: Key, slot: SM.Slot, used: nat, ok: set<Client>, c: Client)
    requires Inv(s) && Possible(s, Publish(key, slot, used, ok))
    ensures (exists t :: t in Out(Perform(s, Publish(key, slot, used, ok)), key, slot) && t.client == c) <==>
            c in ok && Owns(s.node.table, c, key)
  {
    PublishHandsOut(s, key, slot, used, ok);
    var table, copy := s.node.table, BytesAt(s.memory[key], slot)[..used];
    OwnsIsLast(table, c, key);
    if c in ok && Owns(table, c, key) {
      assert c in Recipients(table, key, ok);
      assert TokenFor(table, key, copy, c) in NewTokens(table, key, copy, ok);
    }
  }

  /** Nobody gets two. */
  lemma ReachedOnce(s: System, key: Key, slot: SM.Slot, used: nat, ok: set<Client>, t: Token, u: Token)
    requires Inv(s) && Possible(s, Publish(key, slot, used, ok))
    requires var out := Out(Perform(s, Publish(key, slot, used, ok)), key, slot);
             t in out && u in out && t.client == u.client
    ensures t == u && Out(Perform(s, Publish(key, slot, used, ok)), key, slot)[t] == 1
  {
    PublishHandsOut(s, key, slot, used, ok);
  }

  /** A new memory has the slots and the size asked for, and every slot is free and zero. */
  lemma MemoryIsFresh(s: System, key: Key, size: nat, count: nat, slot: SM.Slot)
    requires Possible(s, CreateMemory(key, size, count)) && slot < count
    ensures var m := Perform(s, CreateMemory(key, size, count)).memory[key];
            && |m.refs| == count && m.refs[slot] == 0 && |BytesAt(m, slot)| == size
            && forall i :: 0 <= i < size ==> BytesAt(m, slot)[i] == 0
  {
    SM.OffsetBounds(size, count, slot);
  }

  /** A recipient's part moves from its way to the peer into its hands, and from there on the way back, and changes in
      no other way; nobody else's part changes. */
  lemma PartsMoveOn(s: System, step: Step, k: Key, slot: SM.Slot)
    requires Possible(s, step) && (step.Receive? || step.Destroy?)
    ensures var t := step.token;
            var moved := t.(stage := if t.stage == InFlight then Held else Acking);
            && t.stage == (if step.Receive? then InFlight else Held)
            && Out(Perform(s, step), k, slot) ==
               if k == step.key && slot == step.slot then Out(s, k, slot) - multiset{t} + multiset{moved}
               else Out(s, k, slot)
  {
  }

  // Where the bytes come from.

  predicate Writes(step: Step, key: Key, slot: SM.Slot) {
    step.WritePayload? && step.key == key && step.slot == slot
  }

  lemma WriteShows(s: System, key: Key, slot: SM.Slot, bytes: seq<Byte>)
    requires Inv(s) && Possible(s, WritePayload(key, slot, bytes))
    ensures var s' := Perform(s, WritePayload(key, slot, bytes));
            key in s'.memory && bytes <= BytesAt(s'.memory[key], slot)
  {
    var m := s.memory[key];
    WritingIsInside(m, slot);
    SM.WriteIsLocal(m.bytes, m.size, |m.refs|, slot, bytes, slot);
  }

  lemma OtherWriteKeepsSlot(s: System, step: Step, key: Key, slot: SM.Slot)
    requires Inv(s) && Possible(s, step) && step.WritePayload? && key in s.memory && !Writes(step, key, slot)
    ensures key in Perform(s, step).memory
    ensures BytesAt(Perform(s, step).memory[key], slot) == BytesAt(s.memory[key], slot)
  {
    if step.key == key {
      var m := s.memory[key];
      WritingIsInside(m, step.slot);
      SM.WriteIsLocal(m.bytes, m.size, |m.refs|, step.slot, step.bytes, step.slot);
      if m.size > 0 && Fits(m, slot) {
        FitsIsInside(m, slot);
        SM.WriteIsLocal(m.bytes, m.size, |m.refs|, step.slot, step.bytes, slot);
      }
    }
  }

  lemma FitsIsInside(m: KeyMemory, slot: SM.Slot)
    requires Shaped(m) && m.size > 0 && Fits(m, slot)
    ensures slot < |m.refs|
  {
    assert slot * m.size < |m.refs| * m.size;
  }

  /** Only a write to the slot changes its bytes. */
  lemma OnlyWritesChangeBytes(s: System, step: Step, key: Key, slot: SM.Slot)
    requires Inv(s) && Possible(s, step) && key in s.memory && !Writes(step, key, slot)
    ensures key in Perform(s, step).memory
    ensures BytesAt(Perform(s, step).memory[key], slot) == BytesAt(s.memory[key], slot)
  {
    if step.WritePayload? {
      OtherWriteKeepsSlot(s, step, key, slot);
    }
  }

  ghost predicate Shows(s: System, key: Key, slot: SM.Slot, bytes: seq<Byte>) {
    key in s.memory && bytes <= BytesAt(s.memory[key], slot)
  }

  lemma StepShows(s: System, step: Step, key: Key, slot: SM.Slot, bytes: seq<Byte>)
    requires Inv(s) && Possible(s, step)
    requires step == WritePayload(key, slot, bytes) || (Shows(s, key, slot, bytes) && !Writes(step, key, slot))
    ensures Shows(Perform(s, step), key, slot, bytes)
  {
    if Writes(step, key, slot) {
      WriteShows(s, key, slot, bytes);
    } else {
      OnlyWritesChangeBytes(s, step, key, slot);
    }
  }

  lemma ShowsNext(steps: seq<Step>, at: nat, key: Key, slot: SM.Slot, bytes: seq<Byte>)
    requires PossibleRun(INIT, steps) && CarefulRun(INIT, steps) && at < |steps|
    requires steps[at] == WritePayload(key, slot, bytes) ||
             (Shows(Run(INIT, steps[..at]), key, slot, bytes) && !Writes(steps[at], key, slot))
    ensures Shows(Run(INIT, steps[..at + 1]), key, slot, bytes)
  {
    InvAt(steps, at);
    RunNext(steps, at);
    StepShows(Run(INIT, steps[..at]), steps[at], key, slot, bytes);
  }

  ghost function ShowsAt(steps: seq<Step>, key: Key, slot: SM.Slot, bytes: seq<Byte>): nat -> bool {
    (t: nat) => t <= |steps| && Shows(Run(INIT, steps[..t]), key, slot, bytes)
  }

  lemma ShowsOn(steps: seq<Step>, at: nat, key: Key, slot: SM.Slot, bytes: seq<Byte>)
    requires PossibleRun(INIT, steps) && CarefulRun(INIT, steps) && at < |steps| && !Writes(steps[at], key, slot)
    ensures KeepsAt(at, ShowsAt(steps, key, slot, bytes))
  {
    if Shows(Run(INIT, steps[..at]), key, slot, bytes) {
      ShowsNext(steps, at, key, slot, bytes);
    }
  }

  lemma ShowsAlong(steps: seq<Step>, i: nat, j: nat, key: Key, slot: SM.Slot, bytes: seq<Byte>)
    requires PossibleRun(INIT, steps) && CarefulRun(INIT, steps) && i <= j <= |steps|
    requires forall m :: i <= m < j ==> !Writes(steps[m], key, slot)
    ensures KeepsFrom(i, j, ShowsAt(steps, key, slot, bytes))
  {
    forall m: nat | i <= m < j ensures KeepsAt(m, ShowsAt(steps, key, slot, bytes)) {
      ShowsOn(steps, m, key, slot, bytes);
    }
  }

  lemma ShowsFirst(steps: seq<Step>, i: nat, key: Key, slot: SM.Slot, bytes: seq<Byte>)
    requires PossibleRun(INIT, steps) && CarefulRun(INIT, steps) && i < |steps|
    requires steps[i] == WritePayload(key, slot, bytes)
    ensures ShowsAt(steps, key, slot, bytes)(i + 1)
  {
    ShowsNext(steps, i, key, slot, bytes);
  }

  lemma WrittenBytesStay(steps: seq<Step>, i: nat, j: nat, key: Key, slot: SM.Slot, bytes: seq<Byte>)
    requires PossibleRun(INIT, steps) && CarefulRun(INIT, steps)
    requires i < j <= |steps| && steps[i] == WritePayload(key, slot, bytes)
    requires forall m :: i < m < j ==> !Writes(steps[m], key, slot)
    ensures ShowsAt(steps, key, slot, bytes)(j)
  {
    ShowsFirst(steps, i, key, slot, bytes);
    ShowsAlong(steps, i + 1, j, key, slot, bytes);
    Persists(i + 1, j, ShowsAt(steps, key, slot, bytes));
  }

  lemma InvAt(steps: seq<Step>, at: nat)
    requires PossibleRun(INIT, steps) && CarefulRun(INIT, steps) && at < |steps|
    ensures Inv(Run(INIT, steps[..at])) && Possible(Run(INIT, steps[..at]), steps[at])
  {
    StepPossible(steps, at);
    CarefulPrefix(steps, at);
    RunsKeepInv(steps[..at]);
  }

  lemma {:induction false} CarefulPrefix(steps: seq<Step>, at: nat)
    requires CarefulRun(INIT, steps) && at <= |steps|
    ensures CarefulRun(INIT, steps[..at])
    decreases |steps|
  {
    if at == |steps| {
      assert steps[..at] == steps;
    } else {
      CarefulPrefix(steps[..|steps| - 1], at);
      assert steps[..|steps| - 1][..at] == steps[..at];
    }
  }

  /** In every careful run, what the recipients of a publication are sent is what was last written into its slot, cut to
      the size in use. */
  lemma WhatIsSentWasWritten(steps: seq<Step>, i: nat, j: nat, key: Key, slot: SM.Slot, bytes: seq<Byte>, used: nat,
                             ok: set<Client>)
    requires PossibleRun(INIT, steps) && CarefulRun(INIT, steps) && i < j < |steps|
    requires steps[i] == WritePayload(key, slot, bytes) && steps[j] == Publish(key, slot, used, ok) && used <= |bytes|
    requires forall m :: i < m < j ==> !Writes(steps[m], key, slot)
    ensures forall t :: t in Out(Run(INIT, steps[..j + 1]), key, slot) ==> t.copy == bytes[..used]
  {
    var s := Run(INIT, steps[..j]);
    InvAt(steps, j);
    RunNext(steps, j);
    WrittenBytesStay(steps, i, j, key, slot, bytes);
    forall t | t in Out(Run(INIT, steps[..j + 1]), key, slot) ensures t.copy == bytes[..used] {
      PublishedTokenIsRight(s, key, slot, used, ok, t);
    }
  }

  // When a slot comes back.

  /** The step takes a recipient's part away without counting it: a loss, or an acknowledgement that finds no
      mapping. */
  predicate Leaks(s: System, step: Step, key: Key, slot: SM.Slot) {
    (step.Lose? || (step.Acknowledge? &&
                    FirstWithRemote(EntriesOf(s.node.table, step.token.client), step.token.handle).None?)) &&
    step.key == key && step.slot == slot
  }

  function Leaked(steps: seq<Step>, key: Key, slot: SM.Slot): nat {
    if steps == [] then 0
    else
      var before := steps[..|steps| - 1];
      Leaked(before, key, slot) + One(Leaks(Run(INIT, before), steps[|steps| - 1], key, slot))
  }

  /** The pending count is what is out, and what leaked. */
  ghost predicate Balanced(s: System, key: Key, slot: SM.Slot, leaked: nat) {
    PendingAt(s, key, slot) == |Out(s, key, slot)| + leaked
  }

  lemma PublishToElsewhere(s: System, k: Key, sl: SM.Slot, copy: seq<Byte>, ok: set<Client>, key: Key, slot: SM.Slot)
    requires Inv(s) && k in s.memory && sl in s.memory[k].writing && (key != k || slot != sl)
    ensures var s' := PublishTo(s, k, sl, copy, ok);
            Out(s', key, slot) == Out(s, key, slot) && PendingAt(s', key, slot) == PendingAt(s, key, slot)
  {
    PublishEffect(s, k, sl, copy, ok);
  }

  lemma WritingIsBalanced(s: System, k: Key, sl: SM.Slot, leaked: nat)
    requires Inv(s) && k in s.memory && sl in s.memory[k].writing && Balanced(s, k, sl, leaked)
    ensures leaked == 0
  {
    var m := s.memory[k];
    WritingHasNoReader(s, k, sl);
    assert SlotAgrees(m.refs, m.allocs, m.writing, sl);
  }

  lemma PublishBalances(s: System, k: Key, sl: SM.Slot, used: nat, ok: set<Client>, key: Key, slot: SM.Slot,
                        leaked: nat)
    requires Inv(s) && Possible(s, Publish(k, sl, used, ok)) && Balanced(s, key, slot, leaked)
    ensures Balanced(Perform(s, Publish(k, sl, used, ok)), key, slot, leaked)
  {
    WritingIsInside(s.memory[k], sl);
    var copy := BytesAt(s.memory[k], sl)[..used];
    if key == k && slot == sl {
      WritingIsBalanced(s, k, sl, leaked);
      PublishEffect(s, k, sl, copy, ok);
    } else {
      PublishToElsewhere(s, k, sl, copy, ok, key, slot);
    }
  }

  predicate SameSlot(k: Key, sl: SM.Slot, key: Key, slot: SM.Slot) {
    k == key && sl == slot
  }

  lemma ForwardOut(s: System, k: Key, sl: SM.Slot, bytes: seq<Byte>, ok: set<Client>, key: Key, slot: SM.Slot)
    requires k in s.memory
    ensures |Out(Perform(s, Forward(k, sl, bytes, ok)), key, slot)| ==
            |Out(s, key, slot)| + if SameSlot(k, sl, key, slot) then |Recipients(s.node.table, k, ok)| else 0
  {
    ForwardEffect(s, k, sl, bytes, ok);
    OneTokenEach(s.node.table, k, bytes, Recipients(s.node.table, k, ok));
  }

  lemma ForwardPending(s: System, k: Key, sl: SM.Slot, bytes: seq<Byte>, ok: set<Client>, key: Key, slot: SM.Slot)
    requires MemoryOk(s) && k in s.memory
    ensures PendingAt(Perform(s, Forward(k, sl, bytes, ok)), key, slot) ==
            PendingAt(s, key, slot) + if SameSlot(k, sl, key, slot) then |Recipients(s.node.table, k, ok)| else 0
  {
    var m := s.memory[k];
    InsertForeignAgreesIff(m.refs, m.allocs, m.writing, sl, |Recipients(s.node.table, k, ok)|);
  }

  lemma ForwardBalances(s: System, k: Key, sl: SM.Slot, bytes: seq<Byte>, ok: set<Client>, key: Key, slot: SM.Slot,
                        leaked: nat)
    requires Inv(s) && k in s.memory && Balanced(s, key, slot, leaked)
    ensures Balanced(Perform(s, Forward(k, sl, bytes, ok)), key, slot, leaked)
  {
    ForwardOut(s, k, sl, bytes, ok, key, slot);
    ForwardPending(s, k, sl, bytes, ok, key, slot);
  }

  lemma WithoutSize(s: System, k: Key, sl: SM.Slot, t: Token, key: Key, slot: SM.Slot)
    requires t in Out(s, k, sl)
    ensures |Out(Without(s, k, sl, t), key, slot)| == |Out(s, key, slot)| - One(SameSlot(k, sl, key, slot))
  {
    assert |Out(s, k, sl) - multiset{t}| == |Out(s, k, sl)| - 1;
  }

  lemma WithSize(s: System, k: Key, sl: SM.Slot, t: Token, key: Key, slot: SM.Slot)
    ensures |Out(With(s, k, sl, t), key, slot)| == |Out(s, key, slot)| + One(SameSlot(k, sl, key, slot))
  {
    assert |Out(s, k, sl) + multiset{t}| == |Out(s, k, sl)| + 1;
  }

  /** An acknowledgement that finds its mapping takes one pending consumer away. */
  lemma ConsumedPending(s: System, k: Key, sl: SM.Slot, t: Token, key: Key, slot: SM.Slot)
    requires MemoryOk(s) && k in s.memory && PendingAt(s, k, sl) > 0
    requires var found := FirstWithRemote(EntriesOf(s.node.table, t.client), t.handle);
             found.Some? && found.value.key == k
    ensures var s' := HandleConsumed(s, t.client, t.handle, sl);
            PendingAt(s', key, slot) == PendingAt(s, key, slot) - One(SameSlot(k, sl, key, slot))
  {
    var m := s.memory[k];
    ConsumeAgrees(m.refs, m.allocs, m.writing, sl);
  }

  lemma AcknowledgeBalances(s: System, k: Key, sl: SM.Slot, t: Token, key: Key, slot: SM.Slot, leaked: nat)
    requires Inv(s) && Possible(s, Acknowledge(k, sl, t)) && Balanced(s, key, slot, leaked)
    ensures var step := Acknowledge(k, sl, t);
            Balanced(Perform(s, step), key, slot, leaked + One(Leaks(s, step, key, slot)))
  {
    assert TokenOk(s, k, sl, t) && LifetimeAt(s, k, sl);
    WithoutSize(s, k, sl, t, key, slot);
    var less := Without(s, k, sl, t);
    if FirstWithRemote(EntriesOf(s.node.table, t.client), t.handle).Some? {
      ConsumedPending(less, k, sl, t, key, slot);
    }
  }

  lemma ProducerBalances(s: System, step: Step, key: Key, slot: SM.Slot, leaked: nat)
    requires Possible(s, step) && Balanced(s, key, slot, leaked)
    requires step.Tables? || step.AllocatePayload? || step.WritePayload? || step.AbandonPayload?
    ensures Balanced(Perform(s, step), key, slot, leaked)
  {
  }

  lemma CreateBalances(s: System, k: Key, size: nat, count: nat, key: Key, slot: SM.Slot, leaked: nat)
    requires Possible(s, CreateMemory(k, size, count)) && Balanced(s, key, slot, leaked)
    ensures Balanced(Perform(s, CreateMemory(k, size, count)), key, slot, leaked)
  {
  }

  lemma PassBalances(s: System, k: Key, sl: SM.Slot, t: Token, stage: Stage, key: Key, slot: SM.Slot, leaked: nat)
    requires t in Out(s, k, sl) && Balanced(s, key, slot, leaked)
    ensures Balanced(With(Without(s, k, sl, t), k, sl, t.(stage := stage)), key, slot, leaked)
  {
    WithoutSize(s, k, sl, t, key, slot);
    WithSize(Without(s, k, sl, t), k, sl, t.(stage := stage), key, slot);
  }

  lemma LoseBalances(s: System, k: Key, sl: SM.Slot, t: Token, key: Key, slot: SM.Slot, leaked: nat)
    requires t in Out(s, k, sl) && Balanced(s, key, slot, leaked)
    ensures Balanced(Without(s, k, sl, t), key, slot, leaked + One(SameSlot(k, sl, key, slot)))
  {
    WithoutSize(s, k, sl, t, key, slot);
  }

  lemma PeerBalances(s: System, step: Step, key: Key, slot: SM.Slot, leaked: nat)
    requires Possible(s, step) && Balanced(s, key, slot, leaked) && (step.Receive? || step.Destroy? || step.Lose?)
    ensures Balanced(Perform(s, step), key, slot, leaked + One(Leaks(s, step, key, slot)))
  {
    if step.Receive? {
      PassBalances(s, step.key, step.slot, step.token, Held, key, slot, leaked);
    } else if step.Destroy? {
      PassBalances(s, step.key, step.slot, step.token, Acking, key, slot, leaked);
    } else {
      LoseBalances(s, step.key, step.slot, step.token, key, slot, leaked);
      assert Leaks(s, step, key, slot) == SameSlot(step.key, step.slot, key, slot);
    }
  }

  lemma StepBalances(s: System, step: Step, key: Key, slot: SM.Slot, leaked: nat)
    requires Inv(s) && Possible(s, step) && Balanced(s, key, slot, leaked)
    ensures Balanced(Perform(s, step), key, slot, leaked + One(Leaks(s, step, key, slot)))
  {
    if step.Publish? {
      PublishBalances(s, step.key, step.slot, step.used, step.ok, key, slot, leaked);
    } else if step.Forward? {
      ForwardBalances(s, step.key, step.slot, step.bytes, step.ok, key, slot, leaked);
    } else if step.Acknowledge? {
      AcknowledgeBalances(s, step.key, step.slot, step.token, key, slot, leaked);
    } else if step.CreateMemory? {
      CreateBalances(s, step.key, step.size, step.count, key, slot, leaked);
    } else if step.Receive? || step.Destroy? || step.Lose? {
      PeerBalances(s, step, key, slot, leaked);
    } else {
      ProducerBalances(s, step, key, slot, leaked);
    }
  }

  /** In every careful run the pending count of a slot is exactly the number of updates in flight, held payloads and
      acknowledgements in flight, plus those that were lost or acknowledged without a mapping. */
  lemma {:induction false} RunsBalance(steps: seq<Step>, key: Key, slot: SM.Slot)
    requires PossibleRun(INIT, steps) && CarefulRun(INIT, steps)
    ensures PendingAt(Run(INIT, steps), key, slot) == |Out(Run(INIT, steps), key, slot)| + Leaked(steps, key, slot)
  {
    if steps != [] {
      var before := steps[..|steps| - 1];
      RunsBalance(before, key, slot);
      RunsKeepInv(before);
      StepBalances(Run(INIT, before), steps[|steps| - 1], key, slot, Leaked(before, key, slot));
    }
  }

  /** In every careful run a slot is free for the next payload exactly when nobody writes it, nothing of it is out, and
      nothing of it ever leaked. */
  lemma SlotComesBackIff(steps: seq<Step>, key: Key, slot: SM.Slot)
    requires PossibleRun(INIT, steps) && CarefulRun(INIT, steps)
    requires key in Run(INIT, steps).memory && slot < |Run(INIT, steps).memory[key].refs|
    ensures var s := Run(INIT, steps);
            s.memory[key].refs[slot] == 0 <==>
            slot !in s.memory[key].writing && Out(s, key, slot) == multiset{} && Leaked(steps, key, slot) == 0
  {
    var s := Run(INIT, steps);
    var m := s.memory[key];
    RunsBalance(steps, key, slot);
    RunsKeepInv(steps);
    assert SlotAgrees(m.refs, m.allocs, m.writing, slot);
    assert |Out(s, key, slot)| == 0 <==> Out(s, key, slot) == multiset{};
  }
}
