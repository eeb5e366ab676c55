/** What every run of a binding keeps: referential integrity, the connect handshake, and the order
    independence of offers and requests. */
module BindingSafety {
  import opened Prelude
  import opened ConnectionMetadata
  import opened EventSubscriptions
  import opened Binding

  // Runs.

  ghost predicate EnabledRun(n: Node, ops: seq<Binding.Op>) {
    ops == [] || (EnabledRun(n, ops[..|ops| - 1]) && Enabled(Run(n, ops[..|ops| - 1]), ops[|ops| - 1]))
  }

  function Run(n: Node, ops: seq<Binding.Op>): Node {
    if ops == [] then n else Step(Run(n, ops[..|ops| - 1]), ops[|ops| - 1])
  }

  // Referential integrity.

  ghost predicate SubscribersIn(subs: Subscribers, clients: set<Client>) {
    forall e, p :: e in subs && p in subs[e] ==> p.client in clients
  }

  ghost predicate StateIn(s: ServiceState, clients: set<Client>) {
    s.offers.Keys <= clients && SubscribersIn(s.subs, clients)
  }

  ghost predicate StatesIn(states: map<Key, ServiceState>, clients: set<Client>) {
    forall k {:trigger StateIn(states[k], clients)} :: k in states ==> StateIn(states[k], clients)
  }

  /** Every client named in a table is connected. */
  ghost predicate AllConnected(n: Node) {
    && StatesIn(n.states, n.connections)
    && (forall k :: k in n.interested ==> n.interested[k] <= n.connections)
    && n.table.Keys <= n.connections
    && (forall h :: h in n.pending ==> n.pending[h].client in n.connections)
  }

  lemma SendOneKeepsConnected(n: Node, key: Key, c: Client, ok: bool)
    requires AllConnected(n)
    ensures AllConnected(SendOne(n, key, c, ok)) && SendOne(n, key, c, ok).connections == n.connections
  {
    var m := SendOne(n, key, c, ok);
    if m != n {
      assert StateIn(n.states[key], n.connections);
      assert c in n.states[key].offers.Keys;
      assert StateIn(m.states[key], n.connections);
    }
  }

  lemma {:induction false} SendConnectKeepsConnected(n: Node, key: Key, order: seq<Client>, ok: set<Client>)
    requires AllConnected(n)
    ensures AllConnected(SendConnect(n, key, order, ok)) && SendConnect(n, key, order, ok).connections == n.connections
  {
    if StateOf(n, key).requested && order != [] {
      var last := |order| - 1;
      SendConnectKeepsConnected(n, key, order[..last], ok);
      SendOneKeepsConnected(SendConnect(n, key, order[..last], ok), key, order[last], order[last] in ok);
    }
  }

  lemma {:induction false} SendConnectsKeepsConnected(n: Node, visits: seq<Visit>)
    requires AllConnected(n)
    ensures AllConnected(SendConnects(n, visits)) && SendConnects(n, visits).connections == n.connections
  {
    if visits != [] {
      var last := |visits| - 1;
      var v := visits[last];
      SendConnectsKeepsConnected(n, visits[..last]);
      SendConnectKeepsConnected(SendConnects(n, visits[..last]), v.key, v.order, v.ok);
    }
  }

  lemma AfterStaysIn(subs: Subscribers, op: EventSubscriptions.Op, clients: set<Client>)
    requires SubscribersIn(subs, clients)
    requires op.AddSubscriber? ==> op.endpoint.client in clients
    ensures SubscribersIn(After(subs, op), clients)
    ensures op.DropClient? ==> SubscribersIn(After(subs, op), clients - {op.client})
  {
  }

  lemma ForgottenState(s: ServiceState, c: Client, clients: set<Client>)
    requires StateIn(s, clients)
    ensures StateIn(WithoutOffer(s.(subs := After(s.subs, DropClient(c))), c), clients - {c})
  {
    AfterStaysIn(s.subs, DropClient(c), clients);
  }

  lemma RemovePeerStates(n: Node, c: Client)
    requires StatesIn(n.states, n.connections)
    ensures StatesIn(RemovePeer(n, c).states, n.connections - {c})
  {
    var states := RemovePeer(n, c).states;
    forall k | k in states ensures StateIn(states[k], n.connections - {c}) {
      assert StateIn(n.states[k], n.connections);
      ForgottenState(n.states[k], c, n.connections);
    }
  }

  lemma RemovePeerForgets(n: Node, c: Client)
    requires AllConnected(n)
    ensures AllConnected(RemovePeer(n, c)) && c !in RemovePeer(n, c).connections
  {
    RemovePeerStates(n, c);
  }

  lemma DropClientSubsStaysIn(states: map<Key, ServiceState>, c: Client, clients: set<Client>)
    requires StatesIn(states, clients)
    ensures StatesIn(DropClientSubs(states, c), clients)
  {
    forall k | k in states
      ensures StateIn(DropClientSubs(states, c)[k], clients)
    {
      assert StateIn(states[k], clients);
      AfterStaysIn(states[k].subs, DropClient(c), clients);
    }
  }

  /** Replacing one state by one that names connected clients only. */
  lemma WithStateKeepsConnected(n: Node, key: Key, s: ServiceState)
    requires AllConnected(n) && StateIn(s, n.connections)
    ensures AllConnected(WithState(n, key, s))
  {
    var m := WithState(n, key, s);
    forall k | k in m.states ensures StateIn(m.states[k], n.connections) {
      if k != key { assert StateIn(n.states[k], n.connections); }
    }
  }

  lemma StateOfIn(n: Node, key: Key)
    requires AllConnected(n)
    ensures StateIn(StateOf(n, key), n.connections)
  {
    if key in n.states { assert StateIn(n.states[key], n.connections); }
  }

  /** Removing mappings and pending connects. */
  lemma LessKeepsConnected(n: Node, m: Node)
    requires AllConnected(n) && m.connections == n.connections && m.interested == n.interested
    requires StatesIn(m.states, n.connections) && m.table.Keys <= n.table.Keys
    requires forall h :: h in m.pending ==> h in n.pending && m.pending[h] == n.pending[h]
    ensures AllConnected(m)
  {
  }

  lemma WithdrawalKeepsConnected(n: Node, c: Client, key: Key, created: bool)
    requires AllConnected(n) && c in n.connections
    ensures AllConnected(HandleRequest(n, c, key, false, created))
  {
    var m := HandleRequest(n, c, key, false, created);
    DropClientSubsStaysIn(n.states, c, n.connections);
    LessKeepsConnected(n, m.(interested := n.interested));
  }

  lemma RequestKeepsConnected(n: Node, c: Client, key: Key, inUse: bool, created: bool)
    requires AllConnected(n) && c in n.connections
    ensures AllConnected(HandleRequest(n, c, key, inUse, created))
  {
    if inUse {
      var m := n.(interested := n.interested[key := InterestedIn(n, key) + {c}]);
      StateOfIn(n, key);
      WithStateKeepsConnected(m, key, StateOf(m, key).(clientConnector := created, clientConnectorPending := false));
    } else {
      WithdrawalKeepsConnected(n, c, key, created);
    }
  }

  lemma OfferKeepsConnected(n: Node, c: Client, key: Key, offered: bool, order: seq<Client>, ok: set<Client>)
    requires AllConnected(n) && c in n.connections
    ensures AllConnected(HandleOffer(n, c, key, offered, order, ok))
  {
    var s := StateOf(n, key);
    StateOfIn(n, key);
    if offered {
      var offer := if c in s.offers then s.offers[c].(offered := true) else Offer(true, false, 0);
      WithStateKeepsConnected(n, key, s.(offers := s.offers[c := offer]));
      SendConnectKeepsConnected(WithState(n, key, s.(offers := s.offers[c := offer])), key, order, ok);
    } else {
      var m := WithState(n, key, s.(offers := s.offers - {c}, enabledConnector := false, subs := map[]));
      WithStateKeepsConnected(n, key, s.(offers := s.offers - {c}, enabledConnector := false, subs := map[]));
      LessKeepsConnected(m, HandleOffer(n, c, key, false, order, ok));
    }
  }

  lemma SubscribeKeepsConnected(n: Node, c: Client, provided: Handle, event: Event, subscribe: bool)
    requires AllConnected(n) && c in n.connections
    ensures AllConnected(HandleSubscribe(n, c, provided, event, subscribe))
  {
    var found := FirstWithLocal(EntriesOf(n.table, c), provided);
    if found.Some? && found.value.key in n.states {
      assert StateIn(n.states[found.value.key], n.connections);
      var p := Endpoint(c, provided);
      AfterStaysIn(n.states[found.value.key].subs,
                   if subscribe then AddSubscriber(p, event) else RemoveSubscriber(p, event), n.connections);
    }
  }

  lemma ClosedStateIn(n: Node, c: Client, key: Key, required: Handle)
    requires AllConnected(n) && key in n.states
    ensures StateIn(HandleConnectService(n, c, key, required, false).states[key], n.connections)
  {
    var found := FirstWithRemote(EntriesOf(n.table, c), required);
    StateOfIn(n, key);
    if found.Some? {
      AfterStaysIn(n.states[key].subs, DropConnection(Endpoint(c, found.value.local)), n.connections);
    }
  }

  lemma ClosingKeepsConnected(n: Node, c: Client, key: Key, required: Handle)
    requires AllConnected(n)
    ensures AllConnected(HandleConnectService(n, c, key, required, false))
  {
    var m := HandleConnectService(n, c, key, required, false);
    if key in n.states {
      ClosedStateIn(n, c, key, required);
      WithStateKeepsConnected(n, key, m.states[key]);
      assert m.states == WithState(n, key, m.states[key]).states;
    }
    LessKeepsConnected(n, m);
  }

  lemma ConnectServiceKeepsConnected(n: Node, c: Client, key: Key, required: Handle, inUse: bool)
    requires AllConnected(n) && c in n.connections
    ensures AllConnected(HandleConnectService(n, c, key, required, inUse))
  {
    if !inUse { ClosingKeepsConnected(n, c, key, required); }
  }

  lemma AddKeepsConnected(n: Node, c: Client)
    requires AllConnected(n)
    ensures AllConnected(Step(n, AddClient(c)))
  {
    forall k | k in n.states ensures StateIn(n.states[k], n.connections + {c}) {
      assert StateIn(n.states[k], n.connections);
    }
  }

  lemma StateChangeKeepsConnected(n: Node, key: Key, available: bool)
    requires AllConnected(n)
    ensures AllConnected(ChangeServiceState(n, key, available))
  {
    StateOfIn(n, key);
    WithStateKeepsConnected(n, key, StateOf(n, key).(requested := true));
  }

  lemma EnablingKeepsConnected(n: Node, key: Key)
    requires AllConnected(n)
    ensures AllConnected(Step(n, ServerConnectorEnabled(key)))
  {
    if key in n.states {
      StateOfIn(n, key);
      WithStateKeepsConnected(n, key, n.states[key].(enabledConnector := true));
    }
  }

  lemma LocalRequestKeepsConnected(n: Node, key: Key, inUse: bool, order: seq<Client>, ok: set<Client>)
    requires AllConnected(n)
    ensures AllConnected(RequestLocally(n, key, inUse, order, ok))
  {
    var s := StateOf(n, key).(requested := true);
    StateOfIn(n, key);
    WithStateKeepsConnected(n, key, s);
    SendConnectKeepsConnected(WithState(n, key, s), key, order, ok);
    var rest := n.states - {key};
    forall k | k in rest ensures StateIn(rest[k], n.connections) {
      assert StateIn(n.states[k], n.connections);
    }
  }

  lemma StepKeepsConnected(n: Node, op: Binding.Op)
    requires AllConnected(n) && Enabled(n, op)
    ensures AllConnected(Step(n, op))
  {
    match op
    case AddClient(c) => AddKeepsConnected(n, c);
    case DropPeer(c) => RemovePeerForgets(n, c);
    case ConnectReplyMessage(visits) => SendConnectsKeepsConnected(n, visits);
    case RequestMessage(c, key, inUse, created) => RequestKeepsConnected(n, c, key, inUse, created);
    case OfferMessage(c, key, offered, order, ok) => OfferKeepsConnected(n, c, key, offered, order, ok);
    case SubscribeMessage(c, provided, event, subscribe) => SubscribeKeepsConnected(n, c, provided, event, subscribe);
    case ConnectServiceMessage(c, key, required, inUse) => ConnectServiceKeepsConnected(n, c, key, required, inUse);
    case ConnectServiceReplyMessage(c, required, provided) =>
    case ServerConnectorEnabled(key) => EnablingKeepsConnected(n, key);
    case ServiceStateChange(key, available) => StateChangeKeepsConnected(n, key, available);
    case LocalRequest(key, inUse, order, ok) => LocalRequestKeepsConnected(n, key, inUse, order, ok);
  }

  /** In every reachable state the clients found in offers, subscriptions, interested peers, mappings and
      pending connects are connected, so no reply channel is ever missing. */
  lemma {:induction false} ClientsAreAlwaysConnected(ops: seq<Binding.Op>)
    requires EnabledRun(INIT, ops)
    ensures AllConnected(Run(INIT, ops))
  {
    if ops != [] {
      ClientsAreAlwaysConnected(ops[..|ops| - 1]);
      StepKeepsConnected(Run(INIT, ops[..|ops| - 1]), ops[|ops| - 1]);
    }
  }

  /** A removed client is named nowhere. */
  lemma RemovedClientIsForgotten(ops: seq<Binding.Op>, c: Client)
    requires EnabledRun(INIT, ops)
    ensures var n := RemovePeer(Run(INIT, ops), c);
            && c !in n.table
            && (forall k :: OfferAt(n, k, c).None? && c !in InterestedIn(n, k))
            && (forall k, e, p :: k in n.states && e in n.states[k].subs && p in n.states[k].subs[e] ==> p.client != c)
            && (forall h :: h in n.pending ==> n.pending[h].client != c)
  {
    ClientsAreAlwaysConnected(ops);
    RemovePeerForgets(Run(INIT, ops), c);
    UnconnectedIsUnnamed(RemovePeer(Run(INIT, ops), c), c);
  }

  lemma UnconnectedIsUnnamed(n: Node, c: Client)
    requires AllConnected(n) && c !in n.connections
    ensures c !in n.table
    ensures forall k :: OfferAt(n, k, c).None? && c !in InterestedIn(n, k)
    ensures forall k, e, p :: k in n.states && e in n.states[k].subs && p in n.states[k].subs[e] ==> p.client != c
    ensures forall h :: h in n.pending ==> n.pending[h].client != c
  {
    forall k | k in n.states ensures StateIn(n.states[k], n.connections) { }
  }

  // The connect handshake.

  ghost predicate OffersOk(n: Node) {
    && n.next >= 1
    && (forall k: Key, c: Client :: OfferAt(n, k, c).Some? ==> OfferOk(n, OfferAt(n, k, c).value))
  }

  ghost predicate OfferOk(n: Node, offer: Offer) {
    offer.required < n.next && (offer.connectSent ==> offer.offered && offer.required != 0)
  }

  ghost predicate SameId(n: Node, k: Key, c: Client, k': Key, c': Client) {
    && OfferAt(n, k, c).Some? && OfferAt(n, k', c').Some?
    && OfferAt(n, k, c).value.required == OfferAt(n, k', c').value.required != 0
  }

  /** Nonzero required ids are pairwise distinct. */
  ghost predicate IdsDistinct(n: Node) {
    forall k: Key, c: Client, k': Key, c': Client :: SameId(n, k, c, k', c') ==> k == k' && c == c'
  }

  ghost predicate HasRequired(n: Node, k: Key, c: Client, h: Handle) {
    h != 0 && OfferAt(n, k, c).Some? && OfferAt(n, k, c).value.required == h
  }

  /** A pending connect stands for an offer with that required id. */
  ghost predicate PendingOk(n: Node) {
    forall h :: h in n.pending ==> HasRequired(n, n.pending[h].key, n.pending[h].client, h)
  }

  /** An accepted handle is never pending again: its Connect_service has been sent. */
  ghost predicate AcceptedOk(n: Node) {
    && (forall h :: h in n.accepted ==> h < n.next && h !in n.pending)
    && (forall k: Key, c: Client :: OfferAt(n, k, c).Some? && OfferAt(n, k, c).value.required in n.accepted ==>
          OfferAt(n, k, c).value.connectSent)
    && 0 !in n.accepted
  }

  ghost predicate NoTwoConsumers(v: seq<Ids>) {
    forall i, j :: 0 <= i < j < |v| && v[i].role == Consumer && v[j].role == Consumer ==> v[i].key != v[j].key
  }

  /** A consumer-side mapping stands for an accepted offer of that client, one per client and key. */
  ghost predicate EntriesOk(n: Node) {
    && (forall c, e :: c in n.table && e in n.table[c] && e.role == Consumer ==>
          HasRequired(n, e.key, c, e.remote) && e.remote in n.accepted)
    && (forall c :: c in n.table ==> NoTwoConsumers(n.table[c]))
  }

  /** Each handle was sent at most once, and an offer counts as sent exactly when its own id was. */
  ghost predicate LogOk(n: Node) {
    && (forall i :: 0 <= i < |n.sent| ==> 0 < n.sent[i].required < n.next)
    && (forall i, j :: 0 <= i < j < |n.sent| ==> n.sent[i].required != n.sent[j].required)
    && (forall k: Key, c: Client :: OfferAt(n, k, c).Some? ==>
          (OfferAt(n, k, c).value.connectSent <==> Sent(c, k, OfferAt(n, k, c).value.required) in n.sent))
    && (forall i, k: Key, c: Client :: 0 <= i < |n.sent| && HasRequired(n, k, c, n.sent[i].required) ==>
          n.sent[i].client == c && n.sent[i].key == k)
  }

  ghost predicate Handshake(n: Node) {
    OffersOk(n) && IdsDistinct(n) && PendingOk(n) && AcceptedOk(n) && EntriesOk(n) && LogOk(n)
  }

  // The steps that add no offer and no consumer-side mapping.

  ghost predicate OffersShrink(n: Node, m: Node) {
    forall k: Key, c: Client :: OfferAt(m, k, c).Some? ==> OfferAt(m, k, c) == OfferAt(n, k, c)
  }

  ghost predicate PendingShrinks(n: Node, m: Node) {
    forall h :: h in m.pending ==>
      h in n.pending && m.pending[h] == n.pending[h] && OfferAt(m, m.pending[h].key, m.pending[h].client).Some?
  }

  ghost predicate EntriesShrink(n: Node, m: Node) {
    && (forall c, e :: c in m.table && e in m.table[c] && e.role == Consumer ==>
          c in n.table && e in n.table[c] && OfferAt(m, e.key, c).Some?)
    && (forall c :: c in m.table ==> NoTwoConsumers(m.table[c]))
  }

  ghost predicate Shrinks(n: Node, m: Node) {
    && m.next >= n.next && m.accepted == n.accepted && m.sent == n.sent
    && OffersShrink(n, m) && PendingShrinks(n, m) && EntriesShrink(n, m)
  }

  lemma ShrinkingKeepsHandshake(n: Node, m: Node)
    requires Handshake(n) && Shrinks(n, m)
    ensures Handshake(m)
  {
    assert OffersOk(m);
    assert IdsDistinct(m) by {
      forall k: Key, c: Client, k': Key, c': Client | SameId(m, k, c, k', c') ensures k == k' && c == c' {
        assert SameId(n, k, c, k', c');
      }
    }
    assert EntriesOk(m) by {
      forall c, e | c in m.table && e in m.table[c] && e.role == Consumer
        ensures HasRequired(m, e.key, c, e.remote) && e.remote in m.accepted
      {
        assert HasRequired(n, e.key, c, e.remote);
      }
    }
    assert LogOk(m) by {
      forall i, k: Key, c: Client | 0 <= i < |m.sent| && HasRequired(m, k, c, m.sent[i].required)
        ensures m.sent[i].client == c && m.sent[i].key == k
      {
        assert HasRequired(n, k, c, n.sent[i].required);
      }
    }
  }

  // Filtering a vector keeps it free of double consumers.

  lemma {:induction false} WithoutKeyKeepsSingle(v: seq<Ids>, key: Key)
    requires NoTwoConsumers(v)
    ensures NoTwoConsumers(WithoutKey(v, key))
  {
    if v != [] {
      assert NoTwoConsumers(v[1..]);
      WithoutKeyKeepsSingle(v[1..], key);
      var rest := WithoutKey(v[1..], key);
      assert forall e :: e in rest && e.role == Consumer && v[0].role == Consumer ==> e.key != v[0].key;
    }
  }

  lemma {:induction false} WithoutRemoteKeepsSingle(v: seq<Ids>, remote: Handle)
    requires NoTwoConsumers(v)
    ensures NoTwoConsumers(WithoutRemote(v, remote))
  {
    if v != [] {
      assert NoTwoConsumers(v[1..]);
      WithoutRemoteKeepsSingle(v[1..], remote);
      var rest := WithoutRemote(v[1..], remote);
      assert forall e :: e in rest && e.role == Consumer && v[0].role == Consumer ==> e.key != v[0].key;
    }
  }

  /** The entries of `u` are entries of `t`, and stay free of double consumers. */
  ghost predicate Reduced(t: Table, u: Table) {
    && (forall c, e :: c in u && e in u[c] ==> c in t && e in t[c])
    && ((forall c :: c in t ==> NoTwoConsumers(t[c])) ==> forall c :: c in u ==> NoTwoConsumers(u[c]))
  }

  lemma RemovalsReduce(t: Table, c: Client, key: Key, remote: Handle)
    ensures Reduced(t, RemoveService(t, key))
    ensures Reduced(t, RemoveClientAndKey(t, c, key))
    ensures Reduced(t, RemoveMapping(t, c, remote))
    ensures Reduced(t, RemoveClient(t, c))
  {
    forall d | d in t && NoTwoConsumers(t[d])
      ensures NoTwoConsumers(WithoutKey(t[d], key)) && NoTwoConsumers(WithoutRemote(t[d], remote))
    {
      WithoutKeyKeepsSingle(t[d], key);
      WithoutRemoteKeepsSingle(t[d], remote);
    }
  }

  /** What is left after a removal stands on an offer that is left. */
  lemma RemovalKeepsHandshake(n: Node, m: Node)
    requires Handshake(n) && OffersShrink(n, m)
    requires m.next >= n.next && m.accepted == n.accepted && m.sent == n.sent
    requires forall h :: h in m.pending ==> h in n.pending && m.pending[h] == n.pending[h]
    requires Reduced(n.table, m.table)
    requires forall k: Key, c: Client :: OfferAt(n, k, c).Some? && OfferAt(m, k, c).None? ==> Unused(m, k, c)
    ensures Handshake(m)
  {
    forall h | h in m.pending ensures OfferAt(m, m.pending[h].key, m.pending[h].client).Some? {
      assert HasRequired(n, n.pending[h].key, n.pending[h].client, h);
      assert !Unused(m, m.pending[h].key, m.pending[h].client);
    }
    forall c, e | c in m.table && e in m.table[c] && e.role == Consumer ensures OfferAt(m, e.key, c).Some? {
      assert HasRequired(n, e.key, c, e.remote);
      assert !Unused(m, e.key, c);
    }
    ShrinkingKeepsHandshake(n, m);
  }

  ghost predicate Unused(n: Node, k: Key, c: Client) {
    && (forall h :: h in n.pending ==> n.pending[h] != Pending(k, c))
    && (c in n.table ==> forall e :: e in n.table[c] ==> e.key != k)
  }

  lemma RemovePeerOffers(n: Node, c: Client)
    ensures forall k: Key, d: Client :: OfferAt(RemovePeer(n, c), k, d) == if d == c then None else OfferAt(n, k, d)
    ensures forall k: Key :: Unused(RemovePeer(n, c), k, c)
  {
    RemovePeerOffersOnly(n, c);
    RemovePeerUnused(n, c);
  }

  lemma RemovePeerOffersOnly(n: Node, c: Client)
    ensures forall k: Key, d: Client :: OfferAt(RemovePeer(n, c), k, d) == if d == c then None else OfferAt(n, k, d)
  {
    forall k: Key, d: Client ensures OfferAt(RemovePeer(n, c), k, d) == if d == c then None else OfferAt(n, k, d) {
      if k in n.states { WithoutOfferAt(n.states[k].(subs := After(n.states[k].subs, DropClient(c))), c, d); }
    }
  }

  lemma WithoutOfferAt(s: ServiceState, c: Client, d: Client)
    ensures var o := WithoutOffer(s, c).offers;
            if d == c then d !in o else (d in o <==> d in s.offers) && (d in o ==> o[d] == s.offers[d])
  {
    if c in s.offers && d != c && d in s.offers { assert d in s.offers - {c}; }
  }

  lemma RemovePeerUnused(n: Node, c: Client)
    ensures forall k: Key :: Unused(RemovePeer(n, c), k, c)
  {
  }

  lemma RemovePeerKeepsHandshake(n: Node, c: Client)
    requires Handshake(n)
    ensures Handshake(RemovePeer(n, c))
  {
    RemovePeerOffers(n, c);
    RemovalsReduce(n.table, c, 0, 0);
    RemovalKeepsHandshake(n, RemovePeer(n, c));
  }

  lemma RequestOffers(n: Node, c: Client, key: Key, inUse: bool, created: bool)
    ensures forall k: Key, d: Client :: OfferAt(HandleRequest(n, c, key, inUse, created), k, d) == OfferAt(n, k, d)
  {
  }

  lemma RequestTables(n: Node, c: Client, key: Key, inUse: bool, created: bool)
    ensures var m := HandleRequest(n, c, key, inUse, created);
            && m.next == n.next && m.accepted == n.accepted && m.sent == n.sent
            && (forall h :: h in m.pending ==> h in n.pending && m.pending[h] == n.pending[h])
            && Reduced(n.table, m.table)
  {
    if !inUse {
      RemovalsReduce(n.table, c, key, 0);
    }
  }

  lemma RequestKeepsHandshake(n: Node, c: Client, key: Key, inUse: bool, created: bool)
    requires Handshake(n)
    ensures Handshake(HandleRequest(n, c, key, inUse, created))
  {
    RequestOffers(n, c, key, inUse, created);
    RequestTables(n, c, key, inUse, created);
    RemovalKeepsHandshake(n, HandleRequest(n, c, key, inUse, created));
  }

  lemma WithdrawalOffers(n: Node, c: Client, key: Key)
    ensures var m := HandleOffer(n, c, key, false, [], {});
            && (forall k: Key, d: Client :: OfferAt(m, k, d) == if k == key && d == c then None else OfferAt(n, k, d))
            && Unused(m, key, c)
  {
  }

  lemma WithdrawalKeepsHandshake(n: Node, c: Client, key: Key)
    requires Handshake(n)
    ensures Handshake(HandleOffer(n, c, key, false, [], {}))
  {
    WithdrawalOffers(n, c, key);
    RemovalsReduce(n.table, c, key, 0);
    RemovalKeepsHandshake(n, HandleOffer(n, c, key, false, [], {}));
  }

  lemma ConnectServiceOffers(n: Node, c: Client, key: Key, required: Handle, inUse: bool)
    ensures forall k: Key, d: Client ::
              OfferAt(HandleConnectService(n, c, key, required, inUse), k, d) == OfferAt(n, k, d)
  {
  }

  lemma ConnectServiceKeepsHandshake(n: Node, c: Client, key: Key, required: Handle, inUse: bool)
    requires Handshake(n)
    ensures Handshake(HandleConnectService(n, c, key, required, inUse))
  {
    var m := HandleConnectService(n, c, key, required, inUse);
    ConnectServiceOffers(n, c, key, required, inUse);
    if inUse {
      assert forall h :: h in n.pending ==> HasRequired(n, n.pending[h].key, n.pending[h].client, h);
      assert forall d, e :: d in m.table && e in m.table[d] && e.role == Consumer ==>
               d in n.table && e in n.table[d] && HasRequired(n, e.key, d, e.remote);
      ShrinkingKeepsHandshake(n, m);
    } else {
      RemovalsReduce(n.table, c, key, required);
      RemovalKeepsHandshake(n, m);
    }
  }

  lemma LocalReleaseOffers(n: Node, key: Key)
    ensures var m := n.(states := n.states - {key}, table := RemoveService(n.table, key),
                        pending := ClearPendingForKey(n.pending, key));
            && (forall k: Key, d: Client :: OfferAt(m, k, d) == if k == key then None else OfferAt(n, k, d))
            && (forall d: Client :: Unused(m, key, d))
  {
  }

  lemma LocalReleaseKeepsHandshake(n: Node, key: Key)
    requires Handshake(n)
    ensures Handshake(RequestLocally(n, key, false, [], {}))
  {
    LocalReleaseOffers(n, key);
    RemovalsReduce(n.table, 0, key, 0);
    RemovalKeepsHandshake(n, RequestLocally(n, key, false, [], {}));
  }

  /** A step that leaves the offers, the pending connects and the history alone, and drops entries at most. */
  lemma SameOffersKeepHandshake(n: Node, m: Node)
    requires Handshake(n)
    requires m.next == n.next && m.accepted == n.accepted && m.sent == n.sent && m.pending == n.pending
    requires forall k: Key, c: Client :: OfferAt(m, k, c) == OfferAt(n, k, c)
    requires m.table == n.table || exists key :: m.table == RemoveService(n.table, key)
    ensures Handshake(m)
  {
    if m.table != n.table {
      var key :| m.table == RemoveService(n.table, key);
      RemovalsReduce(n.table, 0, key, 0);
    }
    RemovalKeepsHandshake(n, m);
  }

  /** Recording an offer with no id yet, or marking a known one as offered. */
  lemma OfferArrives(n: Node, c: Client, key: Key)
    requires Handshake(n)
    ensures var s := StateOf(n, key);
            var offer := if c in s.offers then s.offers[c].(offered := true) else Offer(true, false, 0);
            Handshake(WithState(n, key, s.(offers := s.offers[c := offer])))
  {
    var s := StateOf(n, key);
    var offer := if c in s.offers then s.offers[c].(offered := true) else Offer(true, false, 0);
    var m := WithState(n, key, s.(offers := s.offers[c := offer]));
    forall k: Key, d: Client ensures OfferAt(m, k, d) == if k == key && d == c then Some(offer) else OfferAt(n, k, d) {}
    forall k: Key, d: Client, h: Handle ensures HasRequired(m, k, d, h) <==> HasRequired(n, k, d, h) {}
    forall k: Key, d: Client, k': Key, d': Client | SameId(m, k, d, k', d') ensures k == k' && d == d' {
      assert SameId(n, k, d, k', d');
    }
    assert OffersOk(m) by {
      forall k: Key, d: Client | OfferAt(m, k, d).Some? ensures OfferOk(m, OfferAt(m, k, d).value) {
        assert OfferAt(n, k, d).Some? ==> OfferOk(n, OfferAt(n, k, d).value);
      }
    }
    assert AcceptedOk(m) by {
      forall k: Key, d: Client | OfferAt(m, k, d).Some? && OfferAt(m, k, d).value.required in m.accepted
        ensures OfferAt(m, k, d).value.connectSent
      {
        assert OfferAt(n, k, d).Some? && OfferAt(n, k, d).value.required in n.accepted;
      }
    }
    OfferArrivesInLog(n, m, key, c, offer);
  }

  lemma OfferArrivesInLog(n: Node, m: Node, key: Key, c: Client, offer: Offer)
    requires OffersOk(n) && LogOk(n) && m.sent == n.sent && m.next == n.next
    requires forall k: Key, d: Client ::
               OfferAt(m, k, d) == if k == key && d == c then Some(offer) else OfferAt(n, k, d)
    requires forall k: Key, d: Client, h: Handle :: HasRequired(m, k, d, h) <==> HasRequired(n, k, d, h)
    requires offer == if OfferAt(n, key, c).Some? then OfferAt(n, key, c).value.(offered := true)
                      else Offer(true, false, 0)
    ensures LogOk(m)
  {
    forall k: Key, d: Client ensures Sent(d, k, 0) !in n.sent { }
    forall k: Key, d: Client | OfferAt(m, k, d).Some?
      ensures OfferAt(m, k, d).value.connectSent <==> Sent(d, k, OfferAt(m, k, d).value.required) in m.sent
    {
      if OfferAt(n, k, d).Some? {
        assert OfferAt(m, k, d).value.required == OfferAt(n, k, d).value.required;
      }
    }
  }

  /** One visited offer: it gets its id, becomes pending, and is logged when the send succeeds. */
  lemma SendOneKeepsHandshake(n: Node, key: Key, c: Client, ok: bool)
    requires Handshake(n)
    ensures Handshake(SendOne(n, key, c, ok))
  {
    if Ready(n, key, c) {
      SendOneOffers(n, key, c, ok);
      SendOneIds(n, key, c, ok);
      SendOnePending(n, key, c, ok);
      SendOneEntries(n, key, c, ok);
      SendOneLog(n, key, c, ok);
    }
  }

  ghost predicate Ready(n: Node, key: Key, c: Client) {
    OfferAt(n, key, c).Some? && OfferAt(n, key, c).value.offered && !OfferAt(n, key, c).value.connectSent
  }

  /** The id an offer is sent with. */
  function IdFor(n: Node, key: Key, c: Client): Handle {
    if OfferAt(n, key, c).Some? && OfferAt(n, key, c).value.required != 0
    then OfferAt(n, key, c).value.required else n.next
  }

  ghost predicate SendsOnly(n: Node, m: Node, key: Key, c: Client, ok: bool) {
    forall k: Key, d: Client :: OfferAt(m, k, d) ==
      if k == key && d == c then Some(Offer(true, ok, IdFor(n, key, c))) else OfferAt(n, k, d)
  }

  lemma SendOneOffers(n: Node, key: Key, c: Client, ok: bool)
    requires Ready(n, key, c)
    ensures SendsOnly(n, SendOne(n, key, c, ok), key, c, ok)
  {
  }

  /** No other offer has the id that is being sent. */
  lemma IdIsFree(n: Node, key: Key, c: Client, k: Key, d: Client)
    requires OffersOk(n) && IdsDistinct(n) && Ready(n, key, c)
    requires OfferAt(n, k, d).Some? && OfferAt(n, k, d).value.required == IdFor(n, key, c)
    ensures k == key && d == c
  {
    assert OfferOk(n, OfferAt(n, k, d).value);
    assert SameId(n, k, d, key, c);
  }

  lemma SendOneIds(n: Node, key: Key, c: Client, ok: bool)
    requires OffersOk(n) && IdsDistinct(n) && Ready(n, key, c)
    requires SendsOnly(n, SendOne(n, key, c, ok), key, c, ok)
    ensures OffersOk(SendOne(n, key, c, ok)) && IdsDistinct(SendOne(n, key, c, ok))
  {
    var m := SendOne(n, key, c, ok);
    assert OfferOk(n, OfferAt(n, key, c).value);
    forall k: Key, d: Client | OfferAt(m, k, d).Some? ensures OfferOk(m, OfferAt(m, k, d).value) {
      assert OfferAt(n, k, d).Some? && OfferOk(n, OfferAt(n, k, d).value);
    }
    forall k: Key, d: Client, k': Key, d': Client | SameId(m, k, d, k', d') ensures k == k' && d == d' {
      if k == key && d == c {
        if k' != key || d' != c { IdIsFree(n, key, c, k', d'); }
      } else if k' == key && d' == c {
        IdIsFree(n, key, c, k, d);
      } else {
        assert SameId(n, k, d, k', d');
      }
    }
  }

  lemma SendOnePending(n: Node, key: Key, c: Client, ok: bool)
    requires OffersOk(n) && PendingOk(n) && Ready(n, key, c) && SendsOnly(n, SendOne(n, key, c, ok), key, c, ok)
    ensures PendingOk(SendOne(n, key, c, ok))
  {
    var m := SendOne(n, key, c, ok);
    forall g | g in m.pending ensures HasRequired(m, m.pending[g].key, m.pending[g].client, g) {
      SendOnePendingAt(n, key, c, ok, g);
    }
  }

  lemma SendOnePendingAt(n: Node, key: Key, c: Client, ok: bool, g: Handle)
    requires OffersOk(n) && PendingOk(n) && Ready(n, key, c) && SendsOnly(n, SendOne(n, key, c, ok), key, c, ok)
    requires g in SendOne(n, key, c, ok).pending
    ensures var p := SendOne(n, key, c, ok).pending[g]; HasRequired(SendOne(n, key, c, ok), p.key, p.client, g)
  {
    if g in n.pending {
      assert HasRequired(n, n.pending[g].key, n.pending[g].client, g);
    } else {
      assert g == IdFor(n, key, c) && OfferAt(SendOne(n, key, c, ok), key, c).value.required == g;
      assert OfferOk(n, OfferAt(n, key, c).value);
    }
  }

  lemma SendOneEntries(n: Node, key: Key, c: Client, ok: bool)
    requires OffersOk(n) && AcceptedOk(n) && EntriesOk(n) && Ready(n, key, c)
    requires SendsOnly(n, SendOne(n, key, c, ok), key, c, ok)
    ensures AcceptedOk(SendOne(n, key, c, ok)) && EntriesOk(SendOne(n, key, c, ok))
  {
    var m := SendOne(n, key, c, ok);
    assert OfferOk(n, OfferAt(n, key, c).value);
    assert IdFor(n, key, c) !in n.accepted;
    forall d, e | d in m.table && e in m.table[d] && e.role == Consumer
      ensures HasRequired(m, e.key, d, e.remote) && e.remote in m.accepted
    {
      assert HasRequired(n, e.key, d, e.remote);
    }
  }

  lemma SendOneLog(n: Node, key: Key, c: Client, ok: bool)
    requires OffersOk(n) && IdsDistinct(n) && LogOk(n) && Ready(n, key, c)
    requires SendsOnly(n, SendOne(n, key, c, ok), key, c, ok)
    ensures LogOk(SendOne(n, key, c, ok))
  {
    var m := SendOne(n, key, c, ok);
    var h := IdFor(n, key, c);
    assert OfferOk(n, OfferAt(n, key, c).value);
    forall i | 0 <= i < |n.sent| ensures n.sent[i].required != h {
      assert h != n.next ==> HasRequired(n, key, c, h);
      assert Sent(c, key, OfferAt(n, key, c).value.required) !in n.sent;
    }
    forall k: Key, d: Client | OfferAt(m, k, d).Some?
      ensures OfferAt(m, k, d).value.connectSent <==> Sent(d, k, OfferAt(m, k, d).value.required) in m.sent
    {
      if k == key && d == c {
        assert Sent(c, key, h) !in n.sent;
        assert ok ==> m.sent[|n.sent|] == Sent(c, key, h);
      } else {
        assert OfferAt(n, k, d).Some?;
      }
    }
    forall i, k: Key, d: Client | 0 <= i < |m.sent| && HasRequired(m, k, d, m.sent[i].required)
      ensures m.sent[i].client == d && m.sent[i].key == k
    {
      if i == |n.sent| {
        if k != key || d != c { IdIsFree(n, key, c, k, d); }
      } else if k != key || d != c {
        assert HasRequired(n, k, d, n.sent[i].required);
      }
    }
  }

  lemma {:induction false} SendConnectKeepsHandshake(n: Node, key: Key, order: seq<Client>, ok: set<Client>)
    requires Handshake(n)
    ensures Handshake(SendConnect(n, key, order, ok))
  {
    if StateOf(n, key).requested && order != [] {
      var last := |order| - 1;
      SendConnectKeepsHandshake(n, key, order[..last], ok);
      SendOneKeepsHandshake(SendConnect(n, key, order[..last], ok), key, order[last], order[last] in ok);
    }
  }

  lemma {:induction false} SendConnectsKeepsHandshake(n: Node, visits: seq<Visit>)
    requires Handshake(n)
    ensures Handshake(SendConnects(n, visits))
  {
    if visits != [] {
      var last := |visits| - 1;
      var v := visits[last];
      SendConnectsKeepsHandshake(n, visits[..last]);
      SendConnectKeepsHandshake(SendConnects(n, visits[..last]), v.key, v.order, v.ok);
    }
  }

  /** A reply that will be accepted is for a Connect_service whose send succeeded. */
  ghost predicate Answered(n: Node, c: Client, required: Handle) {
    required in n.pending && n.pending[required].client == c ==>
      OfferAt(n, n.pending[required].key, c).Some? && OfferAt(n, n.pending[required].key, c).value.connectSent
  }

  lemma AnsweredKeepsHandshake(n: Node, c: Client, required: Handle, provided: Handle)
    requires Handshake(n) && Answered(n, c, required)
    ensures Handshake(HandleConnectServiceReply(n, c, required, provided))
  {
    var m := HandleConnectServiceReply(n, c, required, provided);
    if required in n.pending && n.pending[required].client == c {
      var key := n.pending[required].key;
      assert HasRequired(n, key, c, required);
      forall k: Key, d: Client ensures OfferAt(m, k, d) == OfferAt(n, k, d) {}
      forall k: Key, d: Client, h: Handle ensures HasRequired(m, k, d, h) <==> HasRequired(n, k, d, h) {}
      forall k: Key, d: Client, k': Key, d': Client ensures SameId(m, k, d, k', d') <==> SameId(n, k, d, k', d') {}
      forall k: Key, d: Client | OfferAt(m, k, d).Some? && OfferAt(m, k, d).value.required == required
        ensures OfferAt(m, k, d).value.connectSent
      {
        assert SameId(n, k, d, key, c);
      }
      assert AcceptedOk(m);
      ReplyAddsTheOnlyEntry(n, c, required, provided);
    }
  }

  lemma UnansweredBreaksHandshake(n: Node, c: Client, required: Handle, provided: Handle)
    requires PendingOk(n) && !Answered(n, c, required)
    ensures !AcceptedOk(HandleConnectServiceReply(n, c, required, provided))
  {
    var m := HandleConnectServiceReply(n, c, required, provided);
    var key := n.pending[required].key;
    assert HasRequired(n, key, c, required);
    assert OfferAt(m, key, c) == OfferAt(n, key, c) && required in m.accepted;
  }

  /** The offer is standing, its Connect_service could not be sent, and a reply for it would be accepted. */
  ghost predicate Unsent(n: Node, c: Client, key: Key, required: Handle) {
    required in n.pending && n.pending[required] == Pending(key, c) && HasRequired(n, key, c, required) &&
    Ready(n, key, c)
  }

  /** Two replies to such a Connect_service, one before and one after it is sent at last, are both accepted, and the
      client has two consumer-side mappings of the key. */
  lemma UnsentIsAcceptedTwice(n: Node, c: Client, key: Key, required: Handle, first: Handle, second: Handle)
    requires Unsent(n, c, key, required)
    ensures var m := SendOne(HandleConnectServiceReply(n, c, required, first), key, c, true);
            var v := EntriesOf(HandleConnectServiceReply(m, c, required, second).table, c);
            v == EntriesOf(n.table, c) + [Ids(key, first, required, Consumer), Ids(key, second, required, Consumer)]
  {
    var once := HandleConnectServiceReply(n, c, required, first);
    assert OfferAt(once, key, c) == OfferAt(n, key, c);
    var m := SendOne(once, key, c, true);
    assert m.pending[required] == Pending(key, c) && m.table == once.table;
    assert EntriesOf(n.table, c) + [Ids(key, first, required, Consumer)] + [Ids(key, second, required, Consumer)] ==
           EntriesOf(n.table, c) + [Ids(key, first, required, Consumer), Ids(key, second, required, Consumer)];
  }

  const FAILED := [AddClient(1), LocalRequest(0, true, [], {}), OfferMessage(1, 0, true, [1], {})]

  lemma ExtendRun(ops: seq<Binding.Op>, op: Binding.Op)
    requires EnabledRun(INIT, ops) && Enabled(Run(INIT, ops), op)
    ensures EnabledRun(INIT, ops + [op]) && Run(INIT, ops + [op]) == Step(Run(INIT, ops), op)
  {
    assert (ops + [op])[..|ops + [op]| - 1] == ops;
  }

  /** Such a state is reached when a client offers a requested service and the send to it fails. */
  lemma FailedSendIsUnsent()
    ensures EnabledRun(INIT, FAILED) && Unsent(Run(INIT, FAILED), 1, 0, 1)
  {
    var n1 := INIT.(connections := {1});
    var n2 := n1.(states := map[0 := NEW_STATE.(requested := true)]);
    var w := WithState(n2, 0, NEW_STATE.(requested := true, offers := map[1 := Offer(true, false, 0)]));
    assert {} + {1} == {1};
    ExtendRun([], FAILED[0]);
    assert [] + [FAILED[0]] == FAILED[..1] && Run(INIT, FAILED[..1]) == n1;
    assert Visits([], StateOf(n1, 0).offers.Keys);
    ExtendRun(FAILED[..1], FAILED[1]);
    assert FAILED[..1] + [FAILED[1]] == FAILED[..2] && Run(INIT, FAILED[..2]) == n2;
    assert Visits([1], StateOf(n2, 0).offers.Keys + {1});
    ExtendRun(FAILED[..2], FAILED[2]);
    assert FAILED[..2] + [FAILED[2]] == FAILED;
    assert [1][..0] == [] && SendConnect(w, 0, [1], {}) == SendOne(w, 0, 1, false);
  }

  /** A reply keeps the handshake invariant exactly when it is refused or the Connect_service it answers was sent: a
      reply accepted although the send failed would be asked for, and accepted, again. */
  lemma ReplyKeepsHandshakeIff(n: Node, c: Client, required: Handle, provided: Handle)
    requires Handshake(n)
    ensures Handshake(HandleConnectServiceReply(n, c, required, provided)) <==> Answered(n, c, required)
  {
    if Answered(n, c, required) {
      AnsweredKeepsHandshake(n, c, required, provided);
    } else {
      UnansweredBreaksHandshake(n, c, required, provided);
    }
  }

  /** A reply is accepted only from the client addressed, for the key it was sent for, and adds the only
      consumer-side mapping of that client and key. */
  lemma ReplyKeepsHandshake(n: Node, c: Client, required: Handle, provided: Handle)
    requires Handshake(n) && Enabled(n, ConnectServiceReplyMessage(c, required, provided))
    ensures Handshake(HandleConnectServiceReply(n, c, required, provided))
  {
    if required in n.pending && n.pending[required].client == c {
      var key := n.pending[required].key;
      assert HasRequired(n, key, c, required);
      var i :| 0 <= i < |n.sent| && n.sent[i].client == c && n.sent[i].required == required;
      assert HasRequired(n, key, c, n.sent[i].required) && n.sent[i] == Sent(c, key, required);
      assert OfferAt(n, key, c).value.connectSent;
    }
    AnsweredKeepsHandshake(n, c, required, provided);
  }

  lemma ReplyAddsTheOnlyEntry(n: Node, c: Client, required: Handle, provided: Handle)
    requires Handshake(n) && required in n.pending && n.pending[required].client == c
    ensures var m := HandleConnectServiceReply(n, c, required, provided);
            var ids := Ids(n.pending[required].key, provided, required, Consumer);
            && EntriesOk(m) && EntriesOf(m.table, c) == EntriesOf(n.table, c) + [ids]
            && (forall e :: e in EntriesOf(m.table, c) && e.key == ids.key && e.role == Consumer ==> e == ids)
  {
    var m := HandleConnectServiceReply(n, c, required, provided);
    var key := n.pending[required].key;
    assert HasRequired(n, key, c, required);
    var v := EntriesOf(n.table, c);
    forall e | e in v && e.role == Consumer ensures e.key != key {
      assert HasRequired(n, e.key, c, e.remote) && e.remote in n.accepted;
    }
    assert NoTwoConsumers(v);
    assert m.table[c] == v + [Ids(key, provided, required, Consumer)];
    assert NoTwoConsumers(m.table[c]);
    forall d, e | d in m.table && e in m.table[d] && e.role == Consumer
      ensures HasRequired(m, e.key, d, e.remote) && e.remote in m.accepted
    {
      if d == c && e == Ids(key, provided, required, Consumer) {
      } else {
        assert d in n.table && e in n.table[d];
        assert HasRequired(n, e.key, d, e.remote);
      }
    }
  }

  lemma OfferKeepsHandshake(n: Node, c: Client, key: Key, offered: bool, order: seq<Client>, ok: set<Client>)
    requires Handshake(n)
    ensures Handshake(HandleOffer(n, c, key, offered, order, ok))
  {
    if offered {
      OfferArrives(n, c, key);
      var s := StateOf(n, key);
      var offer := if c in s.offers then s.offers[c].(offered := true) else Offer(true, false, 0);
      SendConnectKeepsHandshake(WithState(n, key, s.(offers := s.offers[c := offer])), key, order, ok);
    } else {
      WithdrawalKeepsHandshake(n, c, key);
    }
  }

  lemma LocalRequestKeepsHandshake(n: Node, key: Key, inUse: bool, order: seq<Client>, ok: set<Client>)
    requires Handshake(n)
    ensures Handshake(RequestLocally(n, key, inUse, order, ok))
  {
    if inUse {
      var w := WithState(n, key, StateOf(n, key).(requested := true));
      forall k: Key, c: Client ensures OfferAt(w, k, c) == OfferAt(n, k, c) {}
      SameOffersKeepHandshake(n, w);
      SendConnectKeepsHandshake(w, key, order, ok);
    } else {
      LocalReleaseKeepsHandshake(n, key);
    }
  }

  predicate IsQuiet(op: Binding.Op) {
    op.AddClient? || op.SubscribeMessage? || op.ServerConnectorEnabled? || op.ServiceStateChange?
  }

  /** The step leaves every offer, and removes mappings of one service at most. */
  ghost predicate KeepsOffers(n: Node, m: Node) {
    && m.next == n.next && m.accepted == n.accepted && m.sent == n.sent && m.pending == n.pending
    && (forall k: Key, c: Client :: OfferAt(m, k, c) == OfferAt(n, k, c))
    && (m.table == n.table || exists key :: m.table == RemoveService(n.table, key))
  }

  lemma QuietStepKeepsOffers(n: Node, op: Binding.Op)
    requires IsQuiet(op)
    ensures KeepsOffers(n, Step(n, op))
  {
  }

  lemma QuietStepKeepsHandshake(n: Node, op: Binding.Op)
    requires Handshake(n) && IsQuiet(op)
    ensures Handshake(Step(n, op))
  {
    QuietStepKeepsOffers(n, op);
    SameOffersKeepHandshake(n, Step(n, op));
  }

  lemma StepKeepsHandshake(n: Node, op: Binding.Op)
    requires Handshake(n) && Enabled(n, op)
    ensures Handshake(Step(n, op))
  {
    match op
    case DropPeer(c) => RemovePeerKeepsHandshake(n, c);
    case ConnectReplyMessage(visits) => SendConnectsKeepsHandshake(n, visits);
    case RequestMessage(c, key, inUse, created) => RequestKeepsHandshake(n, c, key, inUse, created);
    case OfferMessage(c, key, offered, order, ok) => OfferKeepsHandshake(n, c, key, offered, order, ok);
    case ConnectServiceMessage(c, key, required, inUse) => ConnectServiceKeepsHandshake(n, c, key, required, inUse);
    case ConnectServiceReplyMessage(c, required, provided) => ReplyKeepsHandshake(n, c, required, provided);
    case LocalRequest(key, inUse, order, ok) => LocalRequestKeepsHandshake(n, key, inUse, order, ok);
    case _ => QuietStepKeepsHandshake(n, op);
  }

  /** The handshake invariant holds in every reachable state. */
  lemma {:induction false} HandshakeAlwaysHolds(ops: seq<Binding.Op>)
    requires EnabledRun(INIT, ops)
    ensures Handshake(Run(INIT, ops))
  {
    if ops != [] {
      HandshakeAlwaysHolds(ops[..|ops| - 1]);
      StepKeepsHandshake(Run(INIT, ops[..|ops| - 1]), ops[|ops| - 1]);
    }
  }

  lemma SendConnectKeepsAccepted(n: Node, key: Key, order: seq<Client>, ok: set<Client>)
    ensures SendConnect(n, key, order, ok).accepted == n.accepted
  {
  }

  lemma {:induction false} SendConnectsKeepsAccepted(n: Node, visits: seq<Visit>)
    ensures SendConnects(n, visits).accepted == n.accepted
  {
    if visits != [] {
      var v := visits[|visits| - 1];
      SendConnectsKeepsAccepted(n, visits[..|visits| - 1]);
      SendConnectKeepsAccepted(SendConnects(n, visits[..|visits| - 1]), v.key, v.order, v.ok);
    }
  }

  lemma AcceptedStays(n: Node, op: Binding.Op)
    ensures n.accepted <= Step(n, op).accepted
  {
    match op
    case ConnectReplyMessage(visits) => SendConnectsKeepsAccepted(n, visits);
    case OfferMessage(c, key, offered, order, ok) =>
      var s := StateOf(n, key);
      var offer := if c in s.offers then s.offers[c].(offered := true) else Offer(true, false, 0);
      SendConnectKeepsAccepted(WithState(n, key, s.(offers := s.offers[c := offer])), key, order, ok);
    case LocalRequest(key, inUse, order, ok) =>
      SendConnectKeepsAccepted(WithState(n, key, StateOf(n, key).(requested := true)), key, order, ok);
    case _ =>
  }

  /** Once a handle has been accepted, no later reply for it changes anything, from whomever it comes. */
  lemma {:induction false} RepliesAreAcceptedOnce(ops: seq<Binding.Op>, at: nat, h: Handle, c: Client, provided: Handle)
    requires EnabledRun(INIT, ops) && at <= |ops| && h in Run(INIT, ops[..at]).accepted
    ensures h in Run(INIT, ops).accepted
    ensures Step(Run(INIT, ops), ConnectServiceReplyMessage(c, h, provided)) == Run(INIT, ops)
    decreases |ops|
  {
    HandshakeAlwaysHolds(ops);
    if at == |ops| {
      assert ops[..at] == ops;
    } else {
      var shorter := ops[..|ops| - 1];
      assert shorter[..at] == ops[..at];
      RepliesAreAcceptedOnce(shorter, at, h, c, provided);
      AcceptedStays(Run(INIT, shorter), ops[|ops| - 1]);
    }
  }

  // Offers and requests in either order.

  /** Every send to a connected client succeeds. */
  ghost predicate AllSendsSucceed(n: Node, op: Binding.Op) {
    match op
    case ConnectReplyMessage(visits) => forall i :: 0 <= i < |visits| ==> n.connections <= visits[i].ok
    case OfferMessage(_, _, _, _, ok) => n.connections <= ok
    case LocalRequest(_, _, _, ok) => n.connections <= ok
    case _ => true
  }

  ghost predicate BridgedOk(n: Node) {
    forall k: Key :: HasClientConnector(n, k) ==> k in n.bridged
  }

  ghost predicate Due(n: Node, k: Key, c: Client) {
    StateOf(n, k).requested && Ready(n, k, c)
  }

  /** Outside bridge-owned keys, nothing that is requested and offered is left to be sent. */
  ghost predicate Caught(n: Node) {
    forall k: Key, c: Client :: Due(n, k, c) ==> k in n.bridged
  }

  /** The key is bridge-owned, or the step neither requests it nor makes it bridge-owned. */
  ghost predicate CalmAt(n: Node, m: Node, k: Key) {
    k in m.bridged || ((HasClientConnector(m, k) ==> HasClientConnector(n, k)) &&
                       (StateOf(m, k).requested ==> StateOf(n, k).requested))
  }

  ghost predicate Calm(n: Node, m: Node) {
    n.bridged <= m.bridged && forall k: Key :: CalmAt(n, m, k)
  }

  lemma CalmKeepsCaught(n: Node, m: Node)
    requires BridgedOk(n) && Caught(n) && Calm(n, m)
    requires forall k: Key, c: Client :: Due(m, k, c) && StateOf(n, k).requested ==> Due(n, k, c) || k in m.bridged
    ensures BridgedOk(m) && Caught(m)
  {
    forall k: Key | HasClientConnector(m, k) ensures k in m.bridged {
      assert CalmAt(n, m, k);
    }
    forall k: Key, c: Client | Due(m, k, c) ensures k in m.bridged {
      assert CalmAt(n, m, k);
    }
  }

  lemma OffersShrinkKeepsCaught(n: Node, m: Node)
    requires BridgedOk(n) && Caught(n) && Calm(n, m) && OffersShrink(n, m)
    ensures BridgedOk(m) && Caught(m)
  {
    forall k: Key, c: Client | Due(m, k, c) && StateOf(n, k).requested ensures Due(n, k, c) {
      assert OfferAt(m, k, c) == OfferAt(n, k, c);
    }
    CalmKeepsCaught(n, m);
  }

  lemma SendOneCatches(n: Node, key: Key, c: Client)
    ensures var m := SendOne(n, key, c, true);
            && Calm(n, m) && m.bridged == n.bridged
            && StateOf(m, key).requested == StateOf(n, key).requested
            && !Ready(m, key, c)
            && (forall k: Key, d: Client :: Ready(m, k, d) ==> Ready(n, k, d))
  {
    var m := SendOne(n, key, c, true);
    forall k: Key ensures CalmAt(n, m, k) {}
    if Ready(n, key, c) {
      SendOneOffers(n, key, c, true);
    }
  }

  /** Sending catches up with every offer it visits and makes no other one due. */
  lemma {:induction false} SendConnectCatches(n: Node, key: Key, order: seq<Client>, ok: set<Client>)
    requires forall c :: c in order ==> c in ok
    ensures var m := SendConnect(n, key, order, ok);
            && Calm(n, m) && m.bridged == n.bridged
            && StateOf(m, key).requested == StateOf(n, key).requested
            && (forall k: Key, c: Client :: Ready(m, k, c) ==> Ready(n, k, c))
            && (forall c :: c in order && StateOf(n, key).requested ==> !Ready(m, key, c))
  {
    if StateOf(n, key).requested && order != [] {
      var last := |order| - 1;
      SendConnectCatches(n, key, order[..last], ok);
      var before := SendConnect(n, key, order[..last], ok);
      var m := SendConnect(n, key, order, ok);
      SendOneCatches(before, key, order[last]);
      assert order == order[..last] + [order[last]];
      forall k: Key ensures CalmAt(n, m, k) {
        assert CalmAt(n, before, k) && CalmAt(before, m, k);
      }
    } else {
      forall k: Key ensures CalmAt(n, n, k) {}
    }
  }

  lemma {:induction false} SendConnectsCatches(n: Node, visits: seq<Visit>)
    requires forall i, c :: 0 <= i < |visits| && c in visits[i].order ==> c in visits[i].ok
    ensures var m := SendConnects(n, visits);
            && Calm(n, m) && m.bridged == n.bridged
            && (forall k: Key, c: Client :: Ready(m, k, c) ==> Ready(n, k, c))
  {
    if visits != [] {
      var v := visits[|visits| - 1];
      SendConnectsCatches(n, visits[..|visits| - 1]);
      var before := SendConnects(n, visits[..|visits| - 1]);
      SendConnectCatches(before, v.key, v.order, v.ok);
      forall k: Key ensures CalmAt(n, SendConnects(n, visits), k) {
        assert CalmAt(n, before, k) && CalmAt(before, SendConnects(n, visits), k);
      }
    } else {
      forall k: Key ensures CalmAt(n, n, k) {}
    }
  }

  /** Setting up `w` may leave offers of one key due; sending them in any order catches up. */
  lemma SendingCatchesUp(n: Node, w: Node, key: Key, order: seq<Client>, ok: set<Client>)
    requires BridgedOk(n) && Caught(n)
    requires w.bridged == n.bridged && forall k: Key :: HasClientConnector(w, k) ==> HasClientConnector(n, k)
    requires forall c :: c in order ==> c in ok
    requires forall k: Key, c: Client :: Due(w, k, c) ==> Due(n, k, c) || (k == key && c in order)
    ensures var m := SendConnect(w, key, order, ok); BridgedOk(m) && Caught(m)
  {
    var m := SendConnect(w, key, order, ok);
    SendConnectCatches(w, key, order, ok);
    forall k: Key | HasClientConnector(m, k) ensures k in m.bridged {
      assert CalmAt(w, m, k);
    }
    forall k: Key, c: Client | Due(m, k, c) ensures k in m.bridged {
      assert CalmAt(w, m, k);
      assert Ready(w, k, c);
      assert k !in m.bridged ==> Due(w, k, c);
    }
  }

  lemma OfferCatches(n: Node, c: Client, key: Key, order: seq<Client>, ok: set<Client>)
    requires AllConnected(n) && BridgedOk(n) && Caught(n)
    requires c in n.connections && n.connections <= ok && Visits(order, StateOf(n, key).offers.Keys + {c})
    ensures var m := HandleOffer(n, c, key, true, order, ok); BridgedOk(m) && Caught(m)
  {
    var s := StateOf(n, key);
    var offer := if c in s.offers then s.offers[c].(offered := true) else Offer(true, false, 0);
    var w := WithState(n, key, s.(offers := s.offers[c := offer]));
    assert StateIn(s, n.connections);
    forall k: Key, d: Client | Due(w, k, d) ensures Due(n, k, d) || (k == key && d in order) {}
    SendingCatchesUp(n, w, key, order, ok);
  }

  lemma LocalRequestCatches(n: Node, key: Key, order: seq<Client>, ok: set<Client>)
    requires AllConnected(n) && BridgedOk(n) && Caught(n)
    requires n.connections <= ok && Visits(order, StateOf(n, key).offers.Keys)
    ensures var m := RequestLocally(n, key, true, order, ok); BridgedOk(m) && Caught(m)
  {
    if !HasClientConnector(n, key) {
      var w := WithState(n, key, StateOf(n, key).(requested := true));
      assert StateIn(StateOf(n, key), n.connections);
      forall k: Key, d: Client | Due(w, k, d) ensures Due(n, k, d) || (k == key && d in order) {}
      SendingCatchesUp(n, w, key, order, ok);
    }
  }

  lemma RequestIsCalm(n: Node, c: Client, key: Key, inUse: bool, created: bool)
    ensures Calm(n, HandleRequest(n, c, key, inUse, created))
  {
    forall k: Key ensures CalmAt(n, HandleRequest(n, c, key, inUse, created), k) {}
  }

  lemma RemovePeerIsCalm(n: Node, c: Client)
    ensures Calm(n, RemovePeer(n, c))
  {
    forall k: Key ensures CalmAt(n, RemovePeer(n, c), k) {}
  }

  lemma WithdrawalIsCalm(n: Node, c: Client, key: Key)
    ensures Calm(n, HandleOffer(n, c, key, false, [], {}))
  {
    forall k: Key ensures CalmAt(n, HandleOffer(n, c, key, false, [], {}), k) {}
  }

  lemma ConnectServiceIsCalm(n: Node, c: Client, key: Key, required: Handle, inUse: bool)
    ensures Calm(n, HandleConnectService(n, c, key, required, inUse))
  {
    forall k: Key ensures CalmAt(n, HandleConnectService(n, c, key, required, inUse), k) {}
  }

  lemma LocalReleaseIsCalm(n: Node, key: Key)
    ensures Calm(n, RequestLocally(n, key, false, [], {}))
  {
    forall k: Key ensures CalmAt(n, RequestLocally(n, key, false, [], {}), k) {}
  }

  lemma MinorStepIsCalm(n: Node, op: Binding.Op)
    requires Enabled(n, op)
    requires op.AddClient? || op.SubscribeMessage? || op.ConnectServiceReplyMessage? || op.ServerConnectorEnabled? ||
             op.ServiceStateChange?
    ensures Calm(n, Step(n, op)) && OffersShrink(n, Step(n, op))
  {
    forall k: Key ensures CalmAt(n, Step(n, op), k) {}
  }

  lemma StepCatches(n: Node, op: Binding.Op)
    requires AllConnected(n) && BridgedOk(n) && Caught(n) && Enabled(n, op) && AllSendsSucceed(n, op)
    ensures BridgedOk(Step(n, op)) && Caught(Step(n, op))
  {
    var m := Step(n, op);
    match op
    case DropPeer(c) =>
      RemovePeerOffers(n, c); RemovePeerIsCalm(n, c); OffersShrinkKeepsCaught(n, m);
    case ConnectReplyMessage(visits) =>
      forall i, c | 0 <= i < |visits| && c in visits[i].order ensures c in visits[i].ok {
        assert StateIn(StateOf(n, visits[i].key), n.connections);
      }
      SendConnectsCatches(n, visits);
      CalmKeepsCaught(n, m);
    case RequestMessage(c, key, inUse, created) =>
      RequestOffers(n, c, key, inUse, created); RequestIsCalm(n, c, key, inUse, created); OffersShrinkKeepsCaught(n, m);
    case OfferMessage(c, key, offered, order, ok) =>
      if offered {
        OfferCatches(n, c, key, order, ok);
      } else {
        WithdrawalOffers(n, c, key); WithdrawalIsCalm(n, c, key); OffersShrinkKeepsCaught(n, m);
      }
    case ConnectServiceMessage(c, key, required, inUse) =>
      ConnectServiceOffers(n, c, key, required, inUse); ConnectServiceIsCalm(n, c, key, required, inUse);
      OffersShrinkKeepsCaught(n, m);
    case LocalRequest(key, inUse, order, ok) =>
      if inUse {
        LocalRequestCatches(n, key, order, ok);
      } else {
        LocalReleaseOffers(n, key); LocalReleaseIsCalm(n, key); OffersShrinkKeepsCaught(n, m);
      }
    case _ => MinorStepIsCalm(n, op); OffersShrinkKeepsCaught(n, m);
  }

  ghost predicate SendingRun(n: Node, ops: seq<Binding.Op>) {
    forall i :: 0 <= i < |ops| ==> AllSendsSucceed(Run(n, ops[..i]), ops[i])
  }

  lemma {:induction false} NothingIsLeftDue(ops: seq<Binding.Op>)
    requires EnabledRun(INIT, ops) && SendingRun(INIT, ops)
    ensures BridgedOk(Run(INIT, ops)) && Caught(Run(INIT, ops))
  {
    if ops != [] {
      var shorter := ops[..|ops| - 1];
      forall i | 0 <= i < |shorter| ensures AllSendsSucceed(Run(INIT, shorter[..i]), shorter[i]) {
        assert shorter[..i] == ops[..i];
      }
      NothingIsLeftDue(shorter);
      ClientsAreAlwaysConnected(shorter);
      StepCatches(Run(INIT, shorter), ops[|ops| - 1]);
    }
  }

  ghost predicate SentOnce(n: Node, c: Client, k: Key, h: Handle) {
    exists i :: 0 <= i < |n.sent| && n.sent[i] == Sent(c, k, h) &&
                forall j :: 0 <= j < |n.sent| && n.sent[j].required == h ==> j == i
  }

  /** Whichever came first, a key that is requested and offered by a client has had exactly one
      Connect_service sent for that offer. */
  lemma OfferAndRequestCommute(ops: seq<Binding.Op>, k: Key, c: Client)
    requires EnabledRun(INIT, ops) && SendingRun(INIT, ops)
    requires var n := Run(INIT, ops);
             k !in n.bridged && k in n.states && n.states[k].requested &&
             OfferAt(n, k, c).Some? && OfferAt(n, k, c).value.offered
    ensures SentOnce(Run(INIT, ops), c, k, OfferAt(Run(INIT, ops), k, c).value.required)
  {
    var n := Run(INIT, ops);
    NothingIsLeftDue(ops);
    HandshakeAlwaysHolds(ops);
    assert !Due(n, k, c);
    var h := OfferAt(n, k, c).value.required;
    assert Sent(c, k, h) in n.sent;
    var i :| 0 <= i < |n.sent| && n.sent[i] == Sent(c, k, h);
    assert forall j :: 0 <= j < |n.sent| && n.sent[j].required == h ==> j == i;
  }

  // No Connect_service leaves before its key is requested and its offer is there.

  ghost predicate Justified(n: Node, x: Sent) {
    && x.key in n.states && n.states[x.key].requested
    && OfferAt(n, x.key, x.client).Some? && OfferAt(n, x.key, x.client).value.offered
  }

  ghost predicate SendsJustified(n: Node, m: Node) {
    n.sent <= m.sent && forall i :: |n.sent| <= i < |m.sent| ==> Justified(m, m.sent[i])
  }

  lemma SendOneJustified(n: Node, m: Node, key: Key, c: Client, ok: bool)
    requires SendsJustified(n, m) && StateOf(m, key).requested
    ensures SendsJustified(n, SendOne(m, key, c, ok)) && StateOf(SendOne(m, key, c, ok), key).requested
  {
    var w := SendOne(m, key, c, ok);
    forall i | |n.sent| <= i < |w.sent| ensures Justified(w, w.sent[i]) {
      if i < |m.sent| {
        assert Justified(m, m.sent[i]);
      }
    }
  }

  lemma {:induction false} SendConnectJustified(n: Node, m: Node, key: Key, order: seq<Client>, ok: set<Client>)
    requires SendsJustified(n, m)
    ensures SendsJustified(n, SendConnect(m, key, order, ok))
    ensures StateOf(m, key).requested ==> StateOf(SendConnect(m, key, order, ok), key).requested
  {
    if StateOf(m, key).requested && order != [] {
      var last := |order| - 1;
      SendConnectJustified(n, m, key, order[..last], ok);
      SendOneJustified(n, SendConnect(m, key, order[..last], ok), key, order[last], order[last] in ok);
    }
  }

  lemma {:induction false} SendConnectsJustified(n: Node, visits: seq<Visit>)
    ensures SendsJustified(n, SendConnects(n, visits))
  {
    if visits != [] {
      var v := visits[|visits| - 1];
      SendConnectsJustified(n, visits[..|visits| - 1]);
      SendConnectJustified(n, SendConnects(n, visits[..|visits| - 1]), v.key, v.order, v.ok);
    }
  }

  /** Each message a step sends is for a key that is then requested and an offer that is then standing. */
  lemma NothingIsSentEarly(n: Node, op: Binding.Op)
    ensures SendsJustified(n, Step(n, op))
  {
    match op
    case ConnectReplyMessage(visits) => SendConnectsJustified(n, visits);
    case OfferMessage(c, key, offered, order, ok) =>
      var s := StateOf(n, key);
      var offer := if c in s.offers then s.offers[c].(offered := true) else Offer(true, false, 0);
      SendConnectJustified(n, WithState(n, key, s.(offers := s.offers[c := offer])), key, order, ok);
    case LocalRequest(key, inUse, order, ok) =>
      SendConnectJustified(n, WithState(n, key, StateOf(n, key).(requested := true)), key, order, ok);
    case _ =>
  }
}
