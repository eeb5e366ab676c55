/** A binding that publishes events through shared memory, and everything its peers hold of them. */
module SlotLifetime {
  import opened Prelude
  import opened ConnectionMetadata
  import opened SlotManager
  import opened AllocationTable
  import B = Binding
  import BindingSafety

  /** The shared memory of one key. `writing` holds the slots whose payload a producer still writes. */
  datatype KeyMemory = KeyMemory(size: nat, bytes: seq<Byte>, refs: seq<nat>, allocs: seq<Allocation>,
                                 writing: set<Slot>)

  /** An event update on its way, a payload a peer holds, or an acknowledgement on its way back. */
  datatype Stage = InFlight | Held | Acking

  /** One recipient's part in one publication. `copy` is what the payload held when it was published:
      what the recipient would have been sent if payloads were copied. */
  datatype Token = Token(client: Client, handle: Handle, copy: seq<Byte>, stage: Stage)

  datatype System = System(node: B.Node, memory: map<Key, KeyMemory>, out: map<(Key, Slot), multiset<Token>>)

  function Out(s: System, k: Key, slot: Slot): multiset<Token> {
    if (k, slot) in s.out then s.out[(k, slot)] else multiset{}
  }

  function PendingAt(s: System, k: Key, slot: Slot): nat {
    if k in s.memory then At(s.memory[k].allocs, slot).pending else 0
  }

  const INIT := System(B.INIT, map[], map[])

  datatype Step =
    | Tables(op: B.Op)
    | CreateMemory(key: Key, size: nat, count: nat)
    | AllocatePayload(key: Key)
    | WritePayload(key: Key, slot: Slot, bytes: seq<Byte>)
    | AbandonPayload(key: Key, slot: Slot)
    | Publish(key: Key, slot: Slot, used: nat, ok: set<Client>)
    | Forward(key: Key, slot: Slot, bytes: seq<Byte>, ok: set<Client>)
    | Receive(key: Key, slot: Slot, token: Token)
    | Destroy(key: Key, slot: Slot, token: Token)
    | Lose(key: Key, slot: Slot, token: Token)
    | Acknowledge(key: Key, slot: Slot, token: Token)

  // Publishing.

  /** The clients an event update of the key is sent to with success. */
  function Recipients(t: Table, key: Key, ok: set<Client>): set<Client> {
    set c | c in t && LastWithKey(t[c], key).Some? && c in ok
  }

  function TokenFor(t: Table, key: Key, copy: seq<Byte>, c: Client): Token
    requires c in t && LastWithKey(t[c], key).Some?
  {
    Token(c, t[c][LastWithKey(t[c], key).value].remote, copy, InFlight)
  }

  function NewTokens(t: Table, key: Key, copy: seq<Byte>, ok: set<Client>): set<Token> {
    set c | c in Recipients(t, key, ok) :: TokenFor(t, key, copy, c)
  }

  /** send_event_update: it takes whatever payload the server passes on. */
  function SendUpdate(s: System, key: Key, slot: Slot, copy: seq<Byte>, ok: set<Client>, origin: Origin): System
    requires key in s.memory
  {
    var m := s.memory[key];
    var tokens := NewTokens(s.node.table, key, copy, ok);
    var (refs, allocs) := Insert(m.refs, m.allocs, slot, |Recipients(s.node.table, key, ok)|, origin);
    s.(memory := s.memory[key := m.(refs := refs, allocs := allocs)],
       out := s.out[(key, slot) := Out(s, key, slot) + multiset(tokens)])
  }

  /** Publishing a payload that was obtained from the slots of the key. */
  function PublishTo(s: System, key: Key, slot: Slot, copy: seq<Byte>, ok: set<Client>): System
    requires key in s.memory
  {
    var r := SendUpdate(s, key, slot, copy, ok, Ours);
    r.(memory := r.memory[key := r.memory[key].(writing := r.memory[key].writing - {slot})])
  }

  /** The handler of Payload_consumed: the mapping decides which key the acknowledgement is for. */
  function HandleConsumed(s: System, c: Client, handle: Handle, slot: Slot): System {
    var found := FirstWithRemote(EntriesOf(s.node.table, c), handle);
    if found.None? || found.value.key !in s.memory then s
    else
      var m := s.memory[found.value.key];
      var (refs, allocs) := Consume(m.refs, m.allocs, slot);
      s.(memory := s.memory[found.value.key := m.(refs := refs, allocs := allocs)])
  }

  function Without(s: System, k: Key, slot: Slot, t: Token): System {
    s.(out := s.out[(k, slot) := Out(s, k, slot) - multiset{t}])
  }

  function With(s: System, k: Key, slot: Slot, t: Token): System {
    s.(out := s.out[(k, slot) := Out(s, k, slot) + multiset{t}])
  }

  // Which steps are possible.

  /** The entry a step adds to the mapping, if any. */
  function Adds(n: B.Node, op: B.Op): Option<(Client, Ids)> {
    match op
    case ConnectServiceMessage(c, key, required, inUse) =>
      if inUse then Some((c, Ids(key, n.next, required, Provider))) else None
    case ConnectServiceReplyMessage(c, required, provided) =>
      if required in n.pending && n.pending[required].client == c && n.pending[required].key in n.states
      then Some((c, Ids(n.pending[required].key, provided, required, Consumer))) else None
    case _ => None
  }

  /** The client has no entry and no outstanding payload with the same handle for another key. */
  ghost predicate HandleFree(s: System, c: Client, ids: Ids) {
    && (forall e :: e in EntriesOf(s.node.table, c) && e.remote == ids.remote ==> e.key == ids.key)
    && (forall k, slot, t :: t in Out(s, k, slot) && t.client == c && t.handle == ids.remote ==> k == ids.key)
  }

  /** The key has a client connector of the binding and a server connector of its own, made for an accepted reply: the
      runtime pairs the two, and updates received for the key are sent on. */
  predicate Looped(n: B.Node, key: Key) {
    key in n.states && n.states[key].clientConnector && n.states[key].enabledConnector
  }

  ghost predicate Possible(s: System, step: Step) {
    match step
    case Tables(op) => B.Enabled(s.node, op)
    case CreateMemory(key, size, count) => key !in s.memory && size > 0 && count > 0
    case AllocatePayload(key) => key in s.memory
    case WritePayload(key, slot, bytes) =>
      key in s.memory && slot in s.memory[key].writing && |bytes| <= s.memory[key].size
    case AbandonPayload(key, slot) => key in s.memory && slot in s.memory[key].writing
    case Publish(key, slot, used, ok) =>
      key in s.memory && slot in s.memory[key].writing && used <= s.memory[key].size
    case Forward(key, slot, bytes, ok) => key in s.memory && Looped(s.node, key)
    case Receive(key, slot, t) => t in Out(s, key, slot) && t.stage == InFlight
    case Destroy(key, slot, t) => t in Out(s, key, slot) && t.stage == Held
    case Lose(key, slot, t) => t in Out(s, key, slot)
    case Acknowledge(key, slot, t) => t in Out(s, key, slot) && t.stage == Acking
  }

  ghost predicate KeepsHandlesApart(s: System, step: Step) {
    step.Tables? && Adds(s.node, step.op).Some? ==>
      HandleFree(s, Adds(s.node, step.op).value.0, Adds(s.node, step.op).value.1)
  }

  ghost predicate Shaped(m: KeyMemory) {
    && |m.bytes| == |m.refs| * m.size
    && InAgreement(m.refs, m.allocs, m.writing)
  }

  lemma SlotFits(m: KeyMemory, slot: Slot)
    requires Shaped(m) && slot < |m.refs|
    ensures Offset(m.size, slot) + m.size <= |m.bytes|
  {
    OffsetBounds(m.size, |m.refs|, slot);
  }

  lemma WritingIsInside(m: KeyMemory, slot: Slot)
    requires Shaped(m) && slot in m.writing
    ensures slot < |m.refs| && Offset(m.size, slot) + m.size <= |m.bytes|
  {
    assert SlotAgrees(m.refs, m.allocs, m.writing, slot);
    SlotFits(m, slot);
  }

  predicate Fits(m: KeyMemory, slot: Slot) {
    Offset(m.size, slot) + m.size <= |m.bytes|
  }

  function BytesAt(m: KeyMemory, slot: Slot): seq<Byte> {
    if Fits(m, slot) then SlotBytes(m.bytes, m.size, slot) else []
  }

  function Perform(s: System, step: Step): System {
    match step
    case Tables(op) => s.(node := B.Step(s.node, op))
    case CreateMemory(key, size, count) =>
      s.(memory := s.memory[key := KeyMemory(size, seq(count * size, _ => 0), seq(count, _ => 0), [], {})])
    case AllocatePayload(key) =>
      if key in s.memory && Allocate(s.memory[key].refs).Ok? then
        var (refs, slot) := Allocate(s.memory[key].refs).value;
        var m := s.memory[key];
        s.(memory := s.memory[key := m.(refs := refs, writing := m.writing + {slot})])
      else s
    case WritePayload(key, slot, bytes) =>
      if key in s.memory && Fits(s.memory[key], slot) && |bytes| <= s.memory[key].size then
        var m := s.memory[key];
        s.(memory := s.memory[key := m.(bytes := Write(m.bytes, m.size, slot, bytes))])
      else s
    case AbandonPayload(key, slot) =>
      if key in s.memory then
        var m := s.memory[key];
        s.(memory := s.memory[key := m.(refs := Released(m.refs, slot), writing := m.writing - {slot})])
      else s
    case Publish(key, slot, used, ok) =>
      if key in s.memory && used <= |BytesAt(s.memory[key], slot)|
      then PublishTo(s, key, slot, BytesAt(s.memory[key], slot)[..used], ok) else s
    case Forward(key, slot, bytes, ok) => if key in s.memory then SendUpdate(s, key, slot, bytes, ok, Theirs) else s
    case Receive(key, slot, t) => With(Without(s, key, slot, t), key, slot, t.(stage := Held))
    case Destroy(key, slot, t) => With(Without(s, key, slot, t), key, slot, t.(stage := Acking))
    case Lose(key, slot, t) => Without(s, key, slot, t)
    case Acknowledge(key, slot, t) => HandleConsumed(Without(s, key, slot, t), t.client, t.handle, slot)
  }

  // What every run keeps.

  ghost predicate MemoryOk(s: System) {
    forall k :: k in s.memory ==> Shaped(s.memory[k])
  }

  /** Every event update on its way, held payload and acknowledgement on its way is a pending consumer. */
  ghost predicate LifetimeAt(s: System, k: Key, slot: Slot) {
    |Out(s, k, slot)| <= PendingAt(s, k, slot)
  }

  ghost predicate Lifetime(s: System) {
    forall k: Key, slot: Slot :: LifetimeAt(s, k, slot)
  }

  /** Entries of one client with the same remote handle are for the same key. */
  ghost predicate EntriesApart(t: Table) {
    forall c: Client, e, e' ::
      e in EntriesOf(t, c) && e' in EntriesOf(t, c) && e.remote == e'.remote ==> e.key == e'.key
  }

  /** No entry would take the acknowledgement of a payload of key `k` to another key. */
  ghost predicate Addressed(t: Table, k: Key, c: Client, handle: Handle) {
    forall e :: e in EntriesOf(t, c) && e.remote == handle ==> e.key == k
  }

  /** What a recipient reads in place is what was published. */
  ghost predicate ReadsCopy(m: KeyMemory, slot: Slot, copy: seq<Byte>) {
    |copy| <= |BytesAt(m, slot)| && BytesAt(m, slot)[..|copy|] == copy
  }

  ghost predicate TokenOk(s: System, k: Key, slot: Slot, t: Token) {
    && k in s.memory
    && ReadsCopy(s.memory[k], slot, t.copy)
    && Addressed(s.node.table, k, t.client, t.handle)
  }

  ghost predicate TokensOk(s: System) {
    forall k: Key, slot: Slot, t :: t in Out(s, k, slot) ==> TokenOk(s, k, slot, t)
  }

  ghost predicate Inv(s: System) {
    MemoryOk(s) && Lifetime(s) && EntriesApart(s.node.table) && TokensOk(s)
  }

  // The tables of the node.

  lemma {:induction false} SendConnectKeepsTable(n: B.Node, key: Key, order: seq<Client>, ok: set<Client>)
    ensures B.SendConnect(n, key, order, ok).table == n.table
  {
    if order != [] {
      SendConnectKeepsTable(n, key, order[..|order| - 1], ok);
    }
  }

  lemma {:induction false} SendConnectsKeepsTable(n: B.Node, visits: seq<B.Visit>)
    ensures B.SendConnects(n, visits).table == n.table
  {
    if visits != [] {
      var v := visits[|visits| - 1];
      SendConnectsKeepsTable(n, visits[..|visits| - 1]);
      SendConnectKeepsTable(B.SendConnects(n, visits[..|visits| - 1]), v.key, v.order, v.ok);
    }
  }

  ghost predicate OnlyAdds(n: B.Node, m: B.Node, added: Option<(Client, Ids)>) {
    forall c: Client, e :: e in EntriesOf(m.table, c) ==> e in EntriesOf(n.table, c) || added == Some((c, e))
  }

  predicate Sends(op: B.Op) {
    op.ConnectReplyMessage? || op.OfferMessage? || op.LocalRequest?
  }

  lemma SendingTableEffect(n: B.Node, op: B.Op)
    requires Sends(op)
    ensures OnlyAdds(n, B.Step(n, op), Adds(n, op))
  {
    match op
    case ConnectReplyMessage(visits) => SendConnectsKeepsTable(n, visits);
    case OfferMessage(c, key, offered, order, ok) =>
      var s := B.StateOf(n, key);
      var offer := if c in s.offers then s.offers[c].(offered := true) else B.Offer(true, false, 0);
      SendConnectKeepsTable(B.WithState(n, key, s.(offers := s.offers[c := offer])), key, order, ok);
    case LocalRequest(key, inUse, order, ok) =>
      SendConnectKeepsTable(B.WithState(n, key, B.StateOf(n, key).(requested := true)), key, order, ok);
  }

  lemma ConnectingTableEffect(n: B.Node, op: B.Op)
    requires op.ConnectServiceMessage? || op.ConnectServiceReplyMessage?
    ensures OnlyAdds(n, B.Step(n, op), Adds(n, op))
  {
  }

  /** A step adds the announced entry at most. */
  lemma TableEffect(n: B.Node, op: B.Op)
    ensures OnlyAdds(n, B.Step(n, op), Adds(n, op))
  {
    if Sends(op) {
      SendingTableEffect(n, op);
    } else if op.ConnectServiceMessage? || op.ConnectServiceReplyMessage? {
      ConnectingTableEffect(n, op);
    }
  }

  lemma TablesKeepInv(s: System, op: B.Op)
    requires Inv(s) && KeepsHandlesApart(s, Tables(op))
    ensures Inv(Perform(s, Tables(op)))
  {
    var s' := Perform(s, Tables(op));
    TableEffect(s.node, op);
    forall k: Key, slot: Slot ensures Out(s', k, slot) == Out(s, k, slot) && LifetimeAt(s', k, slot) {
      assert LifetimeAt(s, k, slot);
    }
    forall k: Key, slot: Slot, t | t in Out(s', k, slot) ensures TokenOk(s', k, slot, t) {
      assert TokenOk(s, k, slot, t);
    }
  }

  // The producer's steps.

  lemma SameElsewhere(s: System, m: KeyMemory, key: Key)
    requires Inv(s) && key in s.memory && Shaped(m)
    requires forall slot: Slot :: At(m.allocs, slot) == At(s.memory[key].allocs, slot)
    requires forall slot: Slot, t :: t in Out(s, key, slot) ==> BytesAt(m, slot) == BytesAt(s.memory[key], slot)
    ensures Inv(s.(memory := s.memory[key := m]))
  {
    var s' := s.(memory := s.memory[key := m]);
    forall k: Key, slot: Slot ensures Out(s', k, slot) == Out(s, k, slot) && LifetimeAt(s', k, slot) {
      assert LifetimeAt(s, k, slot);
    }
    forall k: Key, slot: Slot, t | t in Out(s', k, slot) ensures TokenOk(s', k, slot, t) {
      assert TokenOk(s, k, slot, t);
    }
  }

  lemma CreateKeepsInv(s: System, key: Key, size: nat, count: nat)
    requires Inv(s) && Possible(s, CreateMemory(key, size, count))
    ensures Inv(Perform(s, CreateMemory(key, size, count)))
  {
    var s' := Perform(s, CreateMemory(key, size, count));
    var m := s'.memory[key];
    forall slot: Slot ensures SlotAgrees(m.refs, m.allocs, m.writing, slot) {}
    forall k: Key, slot: Slot ensures LifetimeAt(s', k, slot) && Out(s', k, slot) == Out(s, k, slot) {
      assert LifetimeAt(s, k, slot);
    }
    forall k: Key, slot: Slot, t | t in Out(s', k, slot) ensures TokenOk(s', k, slot, t) {
      assert TokenOk(s, k, slot, t);
    }
  }

  lemma AllocateKeepsInv(s: System, key: Key)
    requires Inv(s) && key in s.memory
    ensures Inv(Perform(s, AllocatePayload(key)))
  {
    var m := s.memory[key];
    FreshSlotIsUnoccupied(m.refs, m.allocs, m.writing);
    if Allocate(m.refs).Ok? {
      SameElsewhere(s, Perform(s, AllocatePayload(key)).memory[key], key);
    }
  }

  /** A payload that is being written has no recipient. */
  lemma WritingHasNoReader(s: System, key: Key, slot: Slot)
    requires Inv(s) && key in s.memory && slot in s.memory[key].writing
    ensures Out(s, key, slot) == multiset{}
  {
    var m := s.memory[key];
    assert SlotAgrees(m.refs, m.allocs, m.writing, slot) && LifetimeAt(s, key, slot);
  }

  lemma WriteKeepsInv(s: System, key: Key, slot: Slot, bytes: seq<Byte>)
    requires Inv(s) && Possible(s, WritePayload(key, slot, bytes))
    ensures Inv(Perform(s, WritePayload(key, slot, bytes)))
  {
    var m := s.memory[key];
    var s' := Perform(s, WritePayload(key, slot, bytes));
    WritingIsInside(m, slot);
    WritingHasNoReader(s, key, slot);
    WriteIsLocal(m.bytes, m.size, |m.refs|, slot, bytes, slot);
    forall other: Slot, t | t in Out(s, key, other)
      ensures BytesAt(s'.memory[key], other) == BytesAt(m, other)
    {
      assert LifetimeAt(s, key, other) && SlotAgrees(m.refs, m.allocs, m.writing, other);
      WriteIsLocal(m.bytes, m.size, |m.refs|, slot, bytes, other);
    }
    SameElsewhere(s, s'.memory[key], key);
  }

  lemma AbandonKeepsInv(s: System, key: Key, slot: Slot)
    requires Inv(s) && Possible(s, AbandonPayload(key, slot))
    ensures Inv(Perform(s, AbandonPayload(key, slot)))
  {
    var m := s.memory[key];
    AbandonAgrees(m.refs, m.allocs, m.writing, slot);
    SameElsewhere(s, Perform(s, AbandonPayload(key, slot)).memory[key], key);
  }

  lemma {:induction false} OneTokenEach(t: Table, key: Key, copy: seq<Byte>, clients: set<Client>)
    requires forall c :: c in clients ==> c in t && LastWithKey(t[c], key).Some?
    ensures |set c | c in clients :: TokenFor(t, key, copy, c)| == |clients|
  {
    if clients != {} {
      var c :| c in clients;
      OneTokenEach(t, key, copy, clients - {c});
      var rest := set d | d in clients - {c} :: TokenFor(t, key, copy, d);
      assert (set d | d in clients :: TokenFor(t, key, copy, d)) == rest + {TokenFor(t, key, copy, c)};
    }
  }

  /** Replacing what is out for one slot. */
  lemma OutChanges(s: System, s': System, key: Key, slot: Slot)
    requires Inv(s) && EntriesApart(s'.node.table) && MemoryOk(s')
    requires s'.node == s.node
    requires forall k: Key, sl: Slot :: (k != key || sl != slot) ==>
               Out(s', k, sl) == Out(s, k, sl) && PendingAt(s', k, sl) == PendingAt(s, k, sl)
    requires forall k :: k in s.memory ==>
               k in s'.memory && s'.memory[k].size == s.memory[k].size && s'.memory[k].bytes == s.memory[k].bytes
    requires |Out(s', key, slot)| <= PendingAt(s', key, slot)
    requires forall t :: t in Out(s', key, slot) ==> TokenOk(s', key, slot, t)
    ensures Inv(s')
  {
    forall k: Key, sl: Slot ensures LifetimeAt(s', k, sl) {
      assert LifetimeAt(s, k, sl);
    }
    forall k: Key, sl: Slot, t | t in Out(s', k, sl) ensures TokenOk(s', k, sl, t) {
      if k != key || sl != slot {
        assert TokenOk(s, k, sl, t);
      }
    }
  }

  lemma NewTokensOk(s: System, s': System, key: Key, slot: Slot, copy: seq<Byte>, ok: set<Client>, t: Token)
    requires EntriesApart(s.node.table) && s'.node == s.node
    requires key in s'.memory && ReadsCopy(s'.memory[key], slot, copy)
    requires t in NewTokens(s.node.table, key, copy, ok)
    ensures TokenOk(s', key, slot, t)
  {
    var table := s.node.table;
    var c :| c in Recipients(table, key, ok) && t == TokenFor(table, key, copy, c);
    var mine := table[c][LastWithKey(table[c], key).value];
    assert mine in EntriesOf(table, c) && mine.key == key;
  }

  /** The memory and the tokens after publishing a payload that was being written. */
  lemma PublishEffect(s: System, key: Key, slot: Slot, copy: seq<Byte>, ok: set<Client>)
    requires Inv(s) && key in s.memory && slot in s.memory[key].writing
    ensures var s' := PublishTo(s, key, slot, copy, ok);
            var m := s'.memory[key];
            && MemoryOk(s')
            && m.bytes == s.memory[key].bytes && m.size == s.memory[key].size
            && Out(s', key, slot) == multiset(NewTokens(s.node.table, key, copy, ok))
            && |Out(s', key, slot)| == PendingAt(s', key, slot)
            && forall other: Slot :: other != slot ==> At(m.allocs, other) == At(s.memory[key].allocs, other)
  {
    var m := s.memory[key];
    WritingHasNoReader(s, key, slot);
    var clients := Recipients(s.node.table, key, ok);
    OneTokenEach(s.node.table, key, copy, clients);
    InsertAgrees(m.refs, m.allocs, m.writing, slot, |clients|);
  }

  lemma PublishToKeepsInv(s: System, key: Key, slot: Slot, copy: seq<Byte>, ok: set<Client>)
    requires Inv(s) && key in s.memory && slot in s.memory[key].writing && ReadsCopy(s.memory[key], slot, copy)
    ensures Inv(PublishTo(s, key, slot, copy, ok))
  {
    var s' := PublishTo(s, key, slot, copy, ok);
    PublishEffect(s, key, slot, copy, ok);
    forall t | t in Out(s', key, slot) ensures TokenOk(s', key, slot, t) {
      NewTokensOk(s, s', key, slot, copy, ok, t);
    }
    OutChanges(s, s', key, slot);
  }

  lemma PublishKeepsInv(s: System, key: Key, slot: Slot, used: nat, ok: set<Client>)
    requires Inv(s) && Possible(s, Publish(key, slot, used, ok))
    ensures Inv(Perform(s, Publish(key, slot, used, ok)))
  {
    WritingIsInside(s.memory[key], slot);
    PublishToKeepsInv(s, key, slot, BytesAt(s.memory[key], slot)[..used], ok);
  }

  // The peers' steps.

  lemma LoseKeepsInv(s: System, key: Key, slot: Slot, t: Token)
    requires Inv(s) && t in Out(s, key, slot)
    ensures Inv(Without(s, key, slot, t))
    ensures |Out(Without(s, key, slot, t), key, slot)| == |Out(s, key, slot)| - 1
  {
    var s' := Without(s, key, slot, t);
    assert LifetimeAt(s, key, slot);
    forall u | u in Out(s', key, slot) ensures TokenOk(s', key, slot, u) {
      assert u in Out(s, key, slot) && TokenOk(s, key, slot, u);
    }
    OutChanges(s, s', key, slot);
  }

  lemma PeerKeepsInv(s: System, key: Key, slot: Slot, t: Token, stage: Stage)
    requires Inv(s) && t in Out(s, key, slot)
    ensures Inv(With(Without(s, key, slot, t), key, slot, t.(stage := stage)))
  {
    LoseKeepsInv(s, key, slot, t);
    var lost := Without(s, key, slot, t);
    var s' := With(lost, key, slot, t.(stage := stage));
    assert TokenOk(s, key, slot, t) && LifetimeAt(s, key, slot);
    forall u | u in Out(s', key, slot) ensures TokenOk(s', key, slot, u) {
      if u != t.(stage := stage) {
        assert u in Out(lost, key, slot) && TokenOk(lost, key, slot, u);
      }
    }
    OutChanges(lost, s', key, slot);
  }

  lemma AcknowledgeKeepsInv(s: System, key: Key, slot: Slot, t: Token)
    requires Inv(s) && Possible(s, Acknowledge(key, slot, t))
    ensures Inv(Perform(s, Acknowledge(key, slot, t)))
  {
    var lost := Without(s, key, slot, t);
    LoseKeepsInv(s, key, slot, t);
    assert TokenOk(s, key, slot, t) && LifetimeAt(s, key, slot);
    var s' := Perform(s, Acknowledge(key, slot, t));
    var found := FirstWithRemote(EntriesOf(s.node.table, t.client), t.handle);
    if found.Some? && found.value.key in s.memory {
      assert found.value.key == key;
      var m := s.memory[key];
      ConsumeAgrees(m.refs, m.allocs, m.writing, slot);
      forall u | u in Out(s', key, slot) ensures TokenOk(s', key, slot, u) {
        assert u in Out(lost, key, slot) && TokenOk(lost, key, slot, u);
      }
      OutChanges(lost, s', key, slot);
    }
  }

  // Sending on a payload of a peer.

  lemma ForwardEffect(s: System, key: Key, slot: Slot, bytes: seq<Byte>, ok: set<Client>)
    requires key in s.memory
    ensures var s' := Perform(s, Forward(key, slot, bytes, ok));
            && s'.node == s.node && s'.memory.Keys == s.memory.Keys
            && Out(s', key, slot) == Out(s, key, slot) + multiset(NewTokens(s.node.table, key, bytes, ok))
            && (forall k: Key, sl: Slot :: (k != key || sl != slot) ==> Out(s', k, sl) == Out(s, k, sl))
            && (forall k :: k in s.memory ==>
                  s'.memory[k].size == s.memory[k].size && s'.memory[k].bytes == s.memory[k].bytes)
  {
  }

  /** The recipients of a payload that is sent on read it rightly exactly when nobody receives it, or this binding's
      memory happens to show the same bytes under the peer's slot number. */
  lemma ForwardIsReadRightlyIff(s: System, key: Key, slot: Slot, bytes: seq<Byte>, ok: set<Client>)
    requires Inv(s) && key in s.memory
    ensures TokensOk(Perform(s, Forward(key, slot, bytes, ok))) <==>
            Recipients(s.node.table, key, ok) == {} || ReadsCopy(s.memory[key], slot, bytes)
  {
    var s' := Perform(s, Forward(key, slot, bytes, ok));
    var tokens := NewTokens(s.node.table, key, bytes, ok);
    ForwardEffect(s, key, slot, bytes, ok);
    if Recipients(s.node.table, key, ok) == {} || ReadsCopy(s.memory[key], slot, bytes) {
      forall k: Key, sl: Slot, t | t in Out(s', k, sl) ensures TokenOk(s', k, sl, t) {
        if t in Out(s, k, sl) {
          assert TokenOk(s, k, sl, t);
        } else {
          assert t in tokens;
          NewTokensOk(s, s', key, slot, bytes, ok, t);
        }
      }
    } else {
      var c :| c in Recipients(s.node.table, key, ok);
      var t := TokenFor(s.node.table, key, bytes, c);
      assert t in tokens && t in Out(s', key, slot);
      assert !TokenOk(s', key, slot, t);
    }
  }

  /** Nobody receives it, or the slot holds the same bytes, published by this binding. */
  ghost predicate ForwardIsHarmless(s: System, key: Key, slot: Slot, bytes: seq<Byte>, ok: set<Client>)
    requires key in s.memory
  {
    Recipients(s.node.table, key, ok) == {} ||
    (Published(s.memory[key].allocs, slot) && ReadsCopy(s.memory[key], slot, bytes))
  }

  lemma ForwardKeepsMemoryIff(s: System, key: Key, slot: Slot, bytes: seq<Byte>, ok: set<Client>)
    requires Inv(s) && key in s.memory
    ensures MemoryOk(Perform(s, Forward(key, slot, bytes, ok))) <==>
            Recipients(s.node.table, key, ok) == {} || Published(s.memory[key].allocs, slot)
  {
    var s' := Perform(s, Forward(key, slot, bytes, ok));
    var m, clients := s.memory[key], Recipients(s.node.table, key, ok);
    InsertForeignAgreesIff(m.refs, m.allocs, m.writing, slot, |clients|);
    assert Shaped(s'.memory[key]) <==> clients == {} || Published(m.allocs, slot);
  }

  lemma ForwardKeepsLifetime(s: System, key: Key, slot: Slot, bytes: seq<Byte>, ok: set<Client>)
    requires Inv(s) && key in s.memory
    ensures Lifetime(Perform(s, Forward(key, slot, bytes, ok)))
  {
    var s' := Perform(s, Forward(key, slot, bytes, ok));
    var m, clients := s.memory[key], Recipients(s.node.table, key, ok);
    OneTokenEach(s.node.table, key, bytes, clients);
    InsertForeignAgreesIff(m.refs, m.allocs, m.writing, slot, |clients|);
    forall k: Key, sl: Slot ensures LifetimeAt(s', k, sl) {
      assert LifetimeAt(s, k, sl);
    }
  }

  lemma ForwardKeepsInvIff(s: System, key: Key, slot: Slot, bytes: seq<Byte>, ok: set<Client>)
    requires Inv(s) && key in s.memory
    ensures Inv(Perform(s, Forward(key, slot, bytes, ok))) <==> ForwardIsHarmless(s, key, slot, bytes, ok)
  {
    ForwardKeepsLifetime(s, key, slot, bytes, ok);
    ForwardKeepsMemoryIff(s, key, slot, bytes, ok);
    ForwardIsReadRightlyIff(s, key, slot, bytes, ok);
    ForwardEffect(s, key, slot, bytes, ok);
  }

  /** A mapping that takes over a handle in use for another key breaks what runs keep. */
  lemma ClashBreaksInv(s: System, op: B.Op)
    requires Inv(s) && !KeepsHandlesApart(s, Tables(op))
    ensures !Inv(Perform(s, Tables(op)))
  {
    var s' := Perform(s, Tables(op));
    var (c, ids) := Adds(s.node, op).value;
    var v := EntriesOf(s.node.table, c);
    assert EntriesOf(s'.node.table, c) == v + [ids];
    if forall e :: e in v && e.remote == ids.remote ==> e.key == ids.key {
      var k, slot, t :| t in Out(s, k, slot) && t.client == c && t.handle == ids.remote && k != ids.key;
      assert t in Out(s', k, slot) && !TokenOk(s', k, slot, t);
    }
  }

  /** A new mapping does not take over a handle in use, and a payload of a peer is not sent on to harm. */
  ghost predicate Careful(s: System, step: Step) {
    && KeepsHandlesApart(s, step)
    && (step.Forward? && step.key in s.memory ==> ForwardIsHarmless(s, step.key, step.slot, step.bytes, step.ok))
  }

  /** Every step keeps the invariant, except exactly the careless ones. */
  lemma StepKeepsInvIff(s: System, step: Step)
    requires Inv(s) && Possible(s, step)
    ensures Inv(Perform(s, step)) <==> Careful(s, step)
  {
    if step.Tables? {
      if KeepsHandlesApart(s, step) {
        TablesKeepInv(s, step.op);
      } else {
        ClashBreaksInv(s, step.op);
      }
    } else if step.Forward? {
      ForwardKeepsInvIff(s, step.key, step.slot, step.bytes, step.ok);
    } else {
      MemoryStepKeepsInv(s, step);
    }
  }

  lemma MemoryStepKeepsInv(s: System, step: Step)
    requires Inv(s) && Possible(s, step) && !step.Tables? && !step.Forward?
    ensures Inv(Perform(s, step))
  {
    match step
    case CreateMemory(key, size, count) => CreateKeepsInv(s, key, size, count);
    case AllocatePayload(key) => AllocateKeepsInv(s, key);
    case WritePayload(key, slot, bytes) => WriteKeepsInv(s, key, slot, bytes);
    case AbandonPayload(key, slot) => AbandonKeepsInv(s, key, slot);
    case Publish(key, slot, used, ok) => PublishKeepsInv(s, key, slot, used, ok);
    case Receive(key, slot, t) => PeerKeepsInv(s, key, slot, t, Held);
    case Destroy(key, slot, t) => PeerKeepsInv(s, key, slot, t, Acking);
    case Lose(key, slot, t) => LoseKeepsInv(s, key, slot, t);
    case Acknowledge(key, slot, t) => AcknowledgeKeepsInv(s, key, slot, t);
  }

  // Runs.

  function Run(s: System, steps: seq<Step>): System {
    if steps == [] then s else Perform(Run(s, steps[..|steps| - 1]), steps[|steps| - 1])
  }

  ghost predicate PossibleRun(s: System, steps: seq<Step>) {
    steps == [] ||
    (PossibleRun(s, steps[..|steps| - 1]) && Possible(Run(s, steps[..|steps| - 1]), steps[|steps| - 1]))
  }

  ghost predicate CarefulRun(s: System, steps: seq<Step>) {
    steps == [] ||
    (CarefulRun(s, steps[..|steps| - 1]) && Careful(Run(s, steps[..|steps| - 1]), steps[|steps| - 1]))
  }

  /** The invariant holds after every step of the run. */
  ghost predicate InvThroughout(steps: seq<Step>) {
    Inv(Run(INIT, steps)) && (steps == [] || InvThroughout(steps[..|steps| - 1]))
  }

  /** Over every possible run: the invariant holds all along exactly when every step is careful. */
  lemma {:induction false} RunsKeepInvIff(steps: seq<Step>)
    requires PossibleRun(INIT, steps)
    ensures InvThroughout(steps) <==> CarefulRun(INIT, steps)
  {
    if steps == [] {
      forall k: Key, slot: Slot ensures LifetimeAt(INIT, k, slot) {}
    } else {
      RunsKeepInvIff(steps[..|steps| - 1]);
      if InvThroughout(steps[..|steps| - 1]) {
        StepKeepsInvIff(Run(INIT, steps[..|steps| - 1]), steps[|steps| - 1]);
      }
    }
  }

  lemma RunsKeepInv(steps: seq<Step>)
    requires PossibleRun(INIT, steps) && CarefulRun(INIT, steps)
    ensures Inv(Run(INIT, steps))
  {
    RunsKeepInvIff(steps);
  }

  /** No slot is allocated again while an update, a held payload or an acknowledgement of it is out. */
  lemma SlotsOutliveTheirReaders(steps: seq<Step>, key: Key)
    requires PossibleRun(INIT, steps) && CarefulRun(INIT, steps) && key in Run(INIT, steps).memory
    ensures var s := Run(INIT, steps);
            && (forall slot: Slot :: |Out(s, key, slot)| <= PendingAt(s, key, slot))
            && (Allocate(s.memory[key].refs).Ok? ==> Out(s, key, Allocate(s.memory[key].refs).value.1) == multiset{})
  {
    var s := Run(INIT, steps);
    RunsKeepInv(steps);
    var m := s.memory[key];
    FreshSlotIsUnoccupied(m.refs, m.allocs, m.writing);
    forall slot: Slot ensures |Out(s, key, slot)| <= PendingAt(s, key, slot) {
      assert LifetimeAt(s, key, slot);
    }
  }

  /** Until it is destroyed, a payload read in place shows what a copy taken at publication would show. */
  lemma ZeroCopyRefinesCopying(steps: seq<Step>, key: Key, slot: Slot, t: Token)
    requires PossibleRun(INIT, steps) && CarefulRun(INIT, steps) && t in Out(Run(INIT, steps), key, slot)
    ensures var s := Run(INIT, steps);
            && key in s.memory && |t.copy| <= |BytesAt(s.memory[key], slot)|
            && BytesAt(s.memory[key], slot)[..|t.copy|] == t.copy
  {
    RunsKeepInv(steps);
    assert TokenOk(Run(INIT, steps), key, slot, t);
  }

  // When the condition on new mappings holds.

  /** The run delivered a Connect_service of client `c` for key `k` with the handle. */
  ghost predicate ConnectsIn(steps: seq<Step>, c: Client, k: Key, handle: Handle) {
    Tables(B.ConnectServiceMessage(c, k, handle, true)) in steps
  }

  /** The handle was chosen for the key by the client, or by this binding when it addressed the client. */
  ghost predicate Chosen(s: System, steps: seq<Step>, c: Client, k: Key, handle: Handle) {
    ConnectsIn(steps, c, k, handle) || B.Sent(c, k, handle) in s.node.sent
  }

  /** No handle a client chose for a key was chosen for another key, by that client or towards it. */
  ghost predicate OneKeyPerHandle(s: System, steps: seq<Step>) {
    forall c: Client, k: Key, k': Key, handle: Handle ::
      ConnectsIn(steps, c, k, handle) && Chosen(s, steps, c, k', handle) ==> k == k'
  }

  /** Every entry and everything that is out carries a handle chosen for its key. */
  ghost predicate Traceable(s: System, steps: seq<Step>) {
    && (forall c: Client, e :: e in EntriesOf(s.node.table, c) ==> Chosen(s, steps, c, e.key, e.remote))
    && (forall k: Key, slot: Slot, t :: t in Out(s, k, slot) ==> Chosen(s, steps, t.client, k, t.handle))
  }

  lemma ChosenStays(s: System, steps: seq<Step>, step: Step, c: Client, k: Key, handle: Handle)
    requires Chosen(s, steps, c, k, handle)
    ensures Chosen(Perform(s, step), steps + [step], c, k, handle)
  {
    if step.Tables? {
      BindingSafety.NothingIsSentEarly(s.node, step.op);
    }
  }

  /** The entry a step adds has a handle chosen for its key. */
  lemma AddedIsChosen(s: System, steps: seq<Step>, op: B.Op)
    requires BindingSafety.Handshake(s.node) && B.Enabled(s.node, op) && Adds(s.node, op).Some?
    ensures var (c, e) := Adds(s.node, op).value;
            Chosen(Perform(s, Tables(op)), steps + [Tables(op)], c, e.key, e.remote)
  {
    var n := s.node;
    BindingSafety.NothingIsSentEarly(n, op);
    if op.ConnectServiceReplyMessage? {
      var h := op.required;
      assert BindingSafety.HasRequired(n, n.pending[h].key, op.client, h);
      var i :| 0 <= i < |n.sent| && n.sent[i].client == op.client && n.sent[i].required == h;
      assert n.sent[i] == B.Sent(op.client, n.pending[h].key, h);
    } else {
      assert (steps + [Tables(op)])[|steps|] == Tables(op);
    }
  }

  lemma TablesKeepTrace(s: System, steps: seq<Step>, op: B.Op)
    requires BindingSafety.Handshake(s.node) && Traceable(s, steps) && Possible(s, Tables(op))
    ensures Traceable(Perform(s, Tables(op)), steps + [Tables(op)])
  {
    var s' := Perform(s, Tables(op));
    var steps' := steps + [Tables(op)];
    TableEffect(s.node, op);
    forall c: Client, e | e in EntriesOf(s'.node.table, c) ensures Chosen(s', steps', c, e.key, e.remote) {
      if e in EntriesOf(s.node.table, c) {
        ChosenStays(s, steps, Tables(op), c, e.key, e.remote);
      } else {
        AddedIsChosen(s, steps, op);
      }
    }
    forall k: Key, slot: Slot, t | t in Out(s', k, slot) ensures Chosen(s', steps', t.client, k, t.handle) {
      assert t in Out(s, k, slot);
      ChosenStays(s, steps, Tables(op), t.client, k, t.handle);
    }
  }

  /** A token of the same recipient was there before. */
  ghost predicate WasOut(s: System, k: Key, slot: Slot, t: Token) {
    exists u :: u in Out(s, k, slot) && u.client == t.client && u.handle == t.handle
  }

  /** The recipient of the token owns an entry of the key. */
  ghost predicate HasEntry(s: System, k: Key, t: Token) {
    exists e :: e in EntriesOf(s.node.table, t.client) && e.key == k && e.remote == t.handle
  }

  lemma PublishedTokensComeFrom(s: System, step: Step, k: Key, slot: Slot, t: Token)
    requires (step.Publish? || step.Forward?) && t in Out(Perform(s, step), k, slot)
    ensures WasOut(s, k, slot, t) || HasEntry(s, k, t)
  {
    if t !in Out(s, k, slot) {
      var table := s.node.table;
      var copy := if step.Publish? then BytesAt(s.memory[step.key], step.slot)[..step.used] else step.bytes;
      assert t in NewTokens(table, step.key, copy, step.ok);
      var c :| c in Recipients(table, step.key, step.ok) && t == TokenFor(table, step.key, copy, c);
      assert table[c][LastWithKey(table[c], step.key).value] in EntriesOf(table, c);
    }
  }

  lemma WithoutComesFrom(s: System, key: Key, at: Slot, u: Token, k: Key, slot: Slot, t: Token)
    requires t in Out(Without(s, key, at, u), k, slot)
    ensures t in Out(s, k, slot)
  {
  }

  lemma PassedTokensComeFrom(s: System, step: Step, k: Key, slot: Slot, t: Token)
    requires step.Receive? || step.Destroy? || step.Lose? || step.Acknowledge?
    requires Possible(s, step) && t in Out(Perform(s, step), k, slot)
    ensures WasOut(s, k, slot, t)
  {
    var less := Without(s, step.key, step.slot, step.token);
    if t in Out(less, k, slot) {
      WithoutComesFrom(s, step.key, step.slot, step.token, k, slot, t);
    } else {
      assert k == step.key && slot == step.slot && t == step.token.(stage := t.stage);
      assert step.token in Out(s, k, slot);
    }
  }

  lemma KeptTokensComeFrom(s: System, step: Step, k: Key, slot: Slot, t: Token)
    requires step.CreateMemory? || step.AllocatePayload? || step.WritePayload? || step.AbandonPayload?
    requires t in Out(Perform(s, step), k, slot)
    ensures WasOut(s, k, slot, t)
  {
  }

  /** A token after a step was there before, up to its stage, or was just published from an entry. */
  lemma TokensComeFrom(s: System, step: Step, k: Key, slot: Slot, t: Token)
    requires !step.Tables? && Possible(s, step) && t in Out(Perform(s, step), k, slot)
    ensures WasOut(s, k, slot, t) || HasEntry(s, k, t)
  {
    if step.Publish? || step.Forward? {
      PublishedTokensComeFrom(s, step, k, slot, t);
    } else if step.Receive? || step.Destroy? || step.Lose? || step.Acknowledge? {
      PassedTokensComeFrom(s, step, k, slot, t);
    } else {
      KeptTokensComeFrom(s, step, k, slot, t);
    }
  }

  lemma StepKeepsTrace(s: System, steps: seq<Step>, step: Step)
    requires BindingSafety.Handshake(s.node) && Traceable(s, steps) && Possible(s, step)
    ensures Traceable(Perform(s, step), steps + [step])
  {
    if step.Tables? {
      TablesKeepTrace(s, steps, step.op);
    } else {
      var s' := Perform(s, step);
      assert s'.node == s.node;
      forall c: Client, e | e in EntriesOf(s'.node.table, c) ensures Chosen(s', steps + [step], c, e.key, e.remote) {
        ChosenStays(s, steps, step, c, e.key, e.remote);
      }
      forall k: Key, slot: Slot, t | t in Out(s', k, slot) ensures Chosen(s', steps + [step], t.client, k, t.handle) {
        TokensComeFrom(s, step, k, slot, t);
        assert Chosen(s, steps, t.client, k, t.handle);
        ChosenStays(s, steps, step, t.client, k, t.handle);
      }
    }
  }

  lemma {:induction false} RunsAreTraceable(steps: seq<Step>)
    requires PossibleRun(INIT, steps)
    ensures BindingSafety.Handshake(Run(INIT, steps).node) && Traceable(Run(INIT, steps), steps)
  {
    if steps == [] {
      BindingSafety.HandshakeAlwaysHolds([]);
    } else {
      var n := |steps| - 1;
      var shorter := steps[..n];
      RunsAreTraceable(shorter);
      StepKeepsTrace(Run(INIT, shorter), shorter, steps[n]);
      if steps[n].Tables? {
        BindingSafety.StepKeepsHandshake(Run(INIT, shorter).node, steps[n].op);
      }
      assert shorter + [steps[n]] == steps;
    }
  }

  lemma {:induction false} ChosenStaysInRun(steps: seq<Step>, at: nat, c: Client, k: Key, handle: Handle)
    requires at <= |steps| && Chosen(Run(INIT, steps[..at]), steps[..at], c, k, handle)
    ensures Chosen(Run(INIT, steps), steps, c, k, handle)
    decreases |steps|
  {
    if at == |steps| {
      assert steps[..at] == steps;
    } else {
      var n := |steps| - 1;
      assert steps[..n][..at] == steps[..at];
      ChosenStaysInRun(steps[..n], at, c, k, handle);
      ChosenStays(Run(INIT, steps[..n]), steps[..n], steps[n], c, k, handle);
      assert steps[..n] + [steps[n]] == steps;
    }
  }

  /** Two handles this binding chose are never the same. */
  lemma OwnHandlesDiffer(n: B.Node, c: Client, k: Key, k': Key, handle: Handle)
    requires BindingSafety.Handshake(n) && B.Sent(c, k, handle) in n.sent && B.Sent(c, k', handle) in n.sent
    ensures k == k'
  {
    var i :| 0 <= i < |n.sent| && n.sent[i] == B.Sent(c, k, handle);
    var j :| 0 <= j < |n.sent| && n.sent[j] == B.Sent(c, k', handle);
    assert i == j;
  }

  lemma RunNext(steps: seq<Step>, at: nat)
    requires at < |steps|
    ensures Run(INIT, steps[..at + 1]) == Perform(Run(INIT, steps[..at]), steps[at])
    ensures steps[..at + 1] == steps[..at] + [steps[at]]
  {
    assert steps[..at + 1][..at] == steps[..at];
  }

  lemma {:induction false} PrefixPossible(steps: seq<Step>, at: nat)
    requires PossibleRun(INIT, steps) && at <= |steps|
    ensures PossibleRun(INIT, steps[..at])
    decreases |steps|
  {
    if at == |steps| {
      assert steps[..at] == steps;
    } else {
      PrefixPossible(steps[..|steps| - 1], at);
      assert steps[..|steps| - 1][..at] == steps[..at];
    }
  }

  lemma StepPossible(steps: seq<Step>, at: nat)
    requires PossibleRun(INIT, steps) && at < |steps|
    ensures PossibleRun(INIT, steps[..at]) && Possible(Run(INIT, steps[..at]), steps[at])
  {
    PrefixPossible(steps, at + 1);
    assert steps[..at + 1][..at] == steps[..at];
  }

  lemma {:induction false} CarefulEverywhere(steps: seq<Step>, at: nat)
    requires at <= |steps|
    requires forall i :: 0 <= i < |steps| ==> Careful(Run(INIT, steps[..i]), steps[i])
    ensures CarefulRun(INIT, steps[..at])
  {
    if at > 0 {
      CarefulEverywhere(steps, at - 1);
      assert steps[..at][..at - 1] == steps[..at - 1];
    }
  }

  lemma TraceKeepsApart(s: System, steps: seq<Step>, op: B.Op, c: Client, ids: Ids)
    requires Traceable(s, steps) && Adds(s.node, op) == Some((c, ids))
    requires forall k: Key :: Chosen(s, steps, c, k, ids.remote) ==> k == ids.key
    ensures KeepsHandlesApart(s, Tables(op))
  {
  }

  /** One key per handle keeps every new mapping apart from what is in use. */
  lemma OneKeyPerHandleKeepsApart(steps: seq<Step>, at: nat)
    requires PossibleRun(INIT, steps) && OneKeyPerHandle(Run(INIT, steps), steps) && at < |steps|
    ensures KeepsHandlesApart(Run(INIT, steps[..at]), steps[at])
  {
    var s := Run(INIT, steps[..at]);
    if steps[at].Tables? && Adds(s.node, steps[at].op).Some? {
      var op := steps[at].op;
      var (c, ids) := Adds(s.node, op).value;
      StepPossible(steps, at);
      RunsAreTraceable(steps[..at]);
      AddedIsChosen(s, steps[..at], op);
      AgreesWithTheRun(steps, at, c, ids);
      TraceKeepsApart(s, steps[..at], op, c, ids);
    }
  }

  lemma AgreesWithTheRun(steps: seq<Step>, at: nat, c: Client, ids: Ids)
    requires PossibleRun(INIT, steps) && OneKeyPerHandle(Run(INIT, steps), steps) && at < |steps|
    requires Chosen(Perform(Run(INIT, steps[..at]), steps[at]), steps[..at] + [steps[at]], c, ids.key, ids.remote)
    ensures forall k: Key :: Chosen(Run(INIT, steps[..at]), steps[..at], c, k, ids.remote) ==> k == ids.key
  {
    RunsAreTraceable(steps);
    RunNext(steps, at);
    ChosenStaysInRun(steps, at + 1, c, ids.key, ids.remote);
    forall k: Key | Chosen(Run(INIT, steps[..at]), steps[..at], c, k, ids.remote) ensures k == ids.key {
      ChosenStaysInRun(steps, at, c, k, ids.remote);
      SameKey(steps, c, k, ids.key, ids.remote);
    }
  }

  lemma SameKey(steps: seq<Step>, c: Client, k: Key, k': Key, handle: Handle)
    requires BindingSafety.Handshake(Run(INIT, steps).node) && OneKeyPerHandle(Run(INIT, steps), steps)
    requires Chosen(Run(INIT, steps), steps, c, k, handle) && Chosen(Run(INIT, steps), steps, c, k', handle)
    ensures k == k'
  {
    if !ConnectsIn(steps, c, k, handle) && !ConnectsIn(steps, c, k', handle) {
      OwnHandlesDiffer(Run(INIT, steps).node, c, k, k', handle);
    }
  }

  predicate Unforwarded(steps: seq<Step>) {
    forall i :: 0 <= i < |steps| ==> !steps[i].Forward?
  }

  /** No payload of a peer is sent on while no key has both a client connector and a server connector of the binding. */
  lemma ForwardsOnlyWhenLooped(steps: seq<Step>)
    requires PossibleRun(INIT, steps)
    requires forall i, key :: 0 <= i <= |steps| ==> !Looped(Run(INIT, steps[..i]).node, key)
    ensures Unforwarded(steps)
  {
    forall i | 0 <= i < |steps| ensures !steps[i].Forward? {
      StepPossible(steps, i);
      var s := Run(INIT, steps[..i]);
      assert forall key :: !Looped(s.node, key);
    }
  }

  /** In every run in which no client uses a handle for two keys, and none that this binding uses towards it for another
      key, and no payload of a peer is sent on: slots outlive their readers and reading in place equals reading a
      copy. */
  lemma SlotsAreSafe(steps: seq<Step>, key: Key, slot: Slot)
    requires PossibleRun(INIT, steps) && OneKeyPerHandle(Run(INIT, steps), steps) && Unforwarded(steps)
    ensures var s := Run(INIT, steps);
            && |Out(s, key, slot)| <= PendingAt(s, key, slot)
            && (key in s.memory && Allocate(s.memory[key].refs).Ok? && Allocate(s.memory[key].refs).value.1 == slot ==>
                  Out(s, key, slot) == multiset{})
            && (forall t :: t in Out(s, key, slot) ==> key in s.memory && ReadsCopy(s.memory[key], slot, t.copy))
  {
    forall i | 0 <= i < |steps| ensures Careful(Run(INIT, steps[..i]), steps[i]) {
      OneKeyPerHandleKeepsApart(steps, i);
    }
    CarefulEverywhere(steps, |steps|);
    assert steps[..|steps|] == steps;
    RunsKeepInv(steps);
    var s := Run(INIT, steps);
    assert LifetimeAt(s, key, slot);
    if key in s.memory {
      SlotsOutliveTheirReaders(steps, key);
    }
  }

  // What one acknowledgement does when handles are not apart.

  /** The acknowledgement reaches the key it is for, or nothing, or a slot with consumers to spare. */
  ghost predicate Harmless(s: System, key: Key, slot: Slot, t: Token) {
    var found := FirstWithRemote(EntriesOf(s.node.table, t.client), t.handle);
    found.None? || found.value.key == key || PendingAt(s, found.value.key, slot) == 0 ||
    PendingAt(s, found.value.key, slot) > |Out(s, found.value.key, slot)|
  }

  /** An acknowledgement keeps every slot alive for its readers exactly when it is harmless. */
  lemma AcknowledgeKeepsLifetimeIff(s: System, key: Key, slot: Slot, t: Token)
    requires MemoryOk(s) && Lifetime(s) && Possible(s, Acknowledge(key, slot, t))
    ensures Lifetime(Perform(s, Acknowledge(key, slot, t))) <==> Harmless(s, key, slot, t)
  {
    var s' := Perform(s, Acknowledge(key, slot, t));
    var found := FirstWithRemote(EntriesOf(s.node.table, t.client), t.handle);
    forall k: Key, sl: Slot
      ensures Out(s', k, sl) == if k == key && sl == slot then Out(s, k, sl) - multiset{t} else Out(s, k, sl)
    {
    }
    assert |Out(s, key, slot) - multiset{t}| == |Out(s, key, slot)| - 1;
    if found.Some? && found.value.key in s.memory {
      var hit := found.value.key;
      var m := s.memory[hit];
      ConsumeAgrees(m.refs, m.allocs, m.writing, slot);
      forall k: Key, sl: Slot
        ensures PendingAt(s', k, sl) ==
                if k == hit && sl == slot && PendingAt(s, k, sl) > 0 then PendingAt(s, k, sl) - 1
                else PendingAt(s, k, sl)
      {
      }
    }
    if Harmless(s, key, slot, t) {
      forall k: Key, sl: Slot ensures LifetimeAt(s', k, sl) {
        assert LifetimeAt(s, k, sl);
      }
    } else {
      assert LifetimeAt(s, found.value.key, slot);
      assert !LifetimeAt(s', found.value.key, slot);
    }
  }
}
