/** Why something is in the tables of a binding: some message put it there, and nothing took it out since. The messages
    that put in and take out are listed per table; the handlers are written per message (binding_base.cpp,
    service_state.hpp, pending_connects.hpp, connection_metadata.hpp). */
module BindingHistory {
  import opened Prelude
  import opened ConnectionMetadata
  import opened EventSubscriptions
  import opened Binding
  import opened BindingSafety
  import opened SubscriptionRuns

  datatype Fact =
    | Connected(client: Client)
    | Interested(key: Key, client: Client)
    | Available(key: Key)
    | Known(key: Key)
    | Requested(key: Key)
    | HasClient(key: Key)
    | HasServer(key: Key)
    | Offered(key: Key, client: Client)
    | Asked(key: Key, client: Client)
    | Awaited(key: Key, client: Client, required: Handle)
    | Mapped(client: Client, ids: Ids)
    | Subscribed(key: Key, event: Event, endpoint: Endpoint)

  predicate Holds(n: Node, f: Fact) {
    match f
    case Connected(c) => c in n.connections
    case Interested(k, c) => c in InterestedIn(n, k)
    case Available(k) => k in n.localOffers && n.localOffers[k]
    case Known(k) => k in n.states
    case Requested(k) => StateOf(n, k).requested
    case HasClient(k) => HasClientConnector(n, k)
    case HasServer(k) => StateOf(n, k).enabledConnector
    case Offered(k, c) => OfferAt(n, k, c).Some?
    case Asked(k, c) => OfferAt(n, k, c).Some? && OfferAt(n, k, c).value.connectSent
    case Awaited(k, c, h) => h in n.pending && n.pending[h] == Pending(k, c)
    case Mapped(c, ids) => ids in EntriesOf(n.table, c)
    case Subscribed(k, e, p) => p in SubscribersOf(SubsOf(n, k), e)
  }

  // What a message does, in the terms of the protocol.

  /** The last local request of a service that no client connector of the binding stands for is withdrawn. */
  predicate Forgets(n: Node, op: Binding.Op, k: Key) {
    op.LocalRequest? && op.key == k && !op.inUse && !HasClientConnector(n, k)
  }

  predicate RequestsLocally(n: Node, op: Binding.Op, k: Key) {
    op.LocalRequest? && op.key == k && op.inUse && !HasClientConnector(n, k)
  }

  /** A peer's request makes the binding a client of the service. */
  predicate BecomesClient(n: Node, op: Binding.Op, k: Key) {
    && op.RequestMessage? && op.key == k && op.inUse
    && !Holds(n, Available(k)) && !Holds(n, HasClient(k)) && !Holds(n, HasServer(k)) && !Holds(n, Requested(k))
  }

  /** A peer does not want the service any more. */
  predicate LosesInterest(op: Binding.Op, c: Client, k: Key) {
    op.RequestMessage? && op.client == c && op.key == k && !op.inUse
  }

  predicate Withdraws(op: Binding.Op, c: Client, k: Key) {
    op.OfferMessage? && op.client == c && op.key == k && !op.offered
  }

  /** A peer ends its use of the service. */
  predicate Disconnects(op: Binding.Op, c: Client, k: Key) {
    op.ConnectServiceMessage? && op.client == c && op.key == k && !op.inUse
  }

  /** A client goes whose offer was the only one. */
  ghost predicate LastOfferGoes(n: Node, op: Binding.Op, k: Key) {
    op.DropPeer? && Holds(n, Offered(k, op.client)) && forall d: Client :: Holds(n, Offered(k, d)) ==> d == op.client
  }

  /** The offer is to be answered with a Connect_service. */
  predicate Unasked(n: Node, k: Key, c: Client) {
    OfferAt(n, k, c).Some? && OfferAt(n, k, c).value.offered && !OfferAt(n, k, c).value.connectSent
  }

  predicate Asks(n: Node, op: Binding.Op, k: Key, c: Client) {
    match op
    case OfferMessage(d, key, offered, _, _) =>
      key == k && offered && Holds(n, Requested(k)) && (Unasked(n, k, c) || (d == c && !Holds(n, Asked(k, c))))
    case LocalRequest(_, _, _, _) => RequestsLocally(n, op, k) && Unasked(n, k, c)
    case ConnectReplyMessage(_) => Holds(n, Requested(k)) && Unasked(n, k, c)
    case _ => false
  }

  predicate SendSucceeds(op: Binding.Op, k: Key, c: Client) {
    match op
    case OfferMessage(_, _, _, _, ok) => c in ok
    case LocalRequest(_, _, _, ok) => c in ok
    case ConnectReplyMessage(visits) => exists i :: 0 <= i < |visits| && visits[i].key == k && c in visits[i].ok
    case _ => false
  }

  /** The service a subscription message is for. */
  predicate IsFor(n: Node, c: Client, provided: Handle, k: Key) {
    var found := FirstWithLocal(EntriesOf(n.table, c), provided);
    found.Some? && found.value.key == k
  }

  ghost predicate Puts(n: Node, op: Binding.Op, f: Fact) {
    match f
    case Connected(c) => op == AddClient(c)
    case Interested(k, c) => op.RequestMessage? && op.client == c && op.key == k && op.inUse
    case Available(k) => op == ServiceStateChange(k, true)
    case Known(k) =>
      || (op.OfferMessage? && op.key == k) || (op.ServiceStateChange? && op.key == k)
      || RequestsLocally(n, op, k) || BecomesClient(n, op, k)
    case Requested(k) => (op.ServiceStateChange? && op.key == k) || RequestsLocally(n, op, k)
    case HasClient(k) => BecomesClient(n, op, k) && op.created
    case HasServer(k) => op == ServerConnectorEnabled(k) && Holds(n, Known(k))
    case Offered(k, c) => op.OfferMessage? && op.client == c && op.key == k && op.offered
    case Asked(k, c) => Asks(n, op, k, c) && SendSucceeds(op, k, c)
    case Awaited(k, c, h) => Asks(n, op, k, c) && HasRequired(Step(n, op), k, c, h)
    case Mapped(c, ids) =>
      || (ids.role == Provider && ids.local == n.next && op == ConnectServiceMessage(c, ids.key, ids.remote, true))
      || (ids.role == Consumer && op == ConnectServiceReplyMessage(c, ids.remote, ids.local) &&
          Holds(n, Awaited(ids.key, c, ids.remote)) && Holds(n, Known(ids.key)))
    case Subscribed(k, e, p) =>
      op == SubscribeMessage(p.client, p.provided, e, true) && Holds(n, Known(k)) && IsFor(n, p.client, p.provided, k)
  }

  /** The subscriber is dropped, not all subscribers of the service. */
  predicate Drops(n: Node, op: Binding.Op, k: Key, e: Event, p: Endpoint) {
    || op == DropPeer(p.client) || (op.RequestMessage? && op.client == p.client && !op.inUse)
    || (op == SubscribeMessage(p.client, p.provided, e, false) && IsFor(n, p.client, p.provided, k))
    || (Disconnects(op, p.client, k) &&
        FirstWithRemote(EntriesOf(n.table, op.client), op.required).Some? &&
        FirstWithRemote(EntriesOf(n.table, op.client), op.required).value.local == p.provided)
  }

  ghost predicate Takes(n: Node, op: Binding.Op, f: Fact) {
    match f
    case Connected(c) => op == DropPeer(c)
    case Interested(k, c) => op == DropPeer(c) || LosesInterest(op, c, k)
    case Available(k) => op == ServiceStateChange(k, false)
    case Known(k) => Forgets(n, op, k)
    case Requested(k) => Forgets(n, op, k)
    case HasClient(k) => op.ConnectServiceMessage? && op.key == k && !op.inUse
    case HasServer(k) =>
      || (op.OfferMessage? && op.key == k && !op.offered) || LastOfferGoes(n, op, k) || Forgets(n, op, k)
    case Offered(k, c) => op == DropPeer(c) || Withdraws(op, c, k) || Forgets(n, op, k)
    case Asked(k, c) => op == DropPeer(c) || Withdraws(op, c, k) || Forgets(n, op, k)
    case Awaited(k, c, h) =>
      || op == DropPeer(c) || LosesInterest(op, c, k) || Withdraws(op, c, k)
      || Disconnects(op, c, k) || Forgets(n, op, k)
      || (op.ConnectServiceReplyMessage? && op.client == c && op.required == h)
    case Mapped(c, ids) =>
      || op == DropPeer(c) || LosesInterest(op, c, ids.key) || Forgets(n, op, ids.key)
      || (op.OfferMessage? && op.key == ids.key && !op.offered) || op == ServiceStateChange(ids.key, false)
      || (op.ConnectServiceMessage? && op.client == c && op.required == ids.remote && !op.inUse)
    case Subscribed(k, e, p) =>
      || Drops(n, op, k, e, p)
      || (op.OfferMessage? && op.key == k && !op.offered) || LastOfferGoes(n, op, k) || Forgets(n, op, k)
  }

  /** The step changes the fact as listed. */
  ghost predicate ChangesAsListed(n: Node, op: Binding.Op, m: Node, f: Fact) {
    Holds(m, f) <==> Puts(n, op, f) || (Holds(n, f) && !Takes(n, op, f))
  }

  // Subscriptions.

  lemma ClearsAsListed(n: Node, op: Binding.Op, k: Key)
    ensures Clears(n, op, k) <==>
            (op.OfferMessage? && op.key == k && !op.offered) || LastOfferGoes(n, op, k) || Forgets(n, op, k)
  {
    if op.DropPeer? && OfferAt(n, k, op.client).Some? {
      var offers := n.states[k].offers;
      if offers - {op.client} == map[] {
        forall d: Client | Holds(n, Offered(k, d)) ensures d == op.client {
          assert d !in offers - {op.client};
        }
      } else {
        var d :| d in offers - {op.client};
        assert Holds(n, Offered(k, d)) && d != op.client;
      }
    }
  }

  lemma SubscriptionChanges(n: Node, op: Binding.Op, k: Key, e: Event, p: Endpoint)
    requires NoEmptySet(SubsOf(n, k))
    ensures ChangesAsListed(n, op, Step(n, op), Subscribed(k, e, p))
  {
    StepChangesSubs(n, op, k);
    ClearsAsListed(n, op, k);
    OperatedAsListed(n, op, k, e, p);
  }

  /** The subscribers after the step's own operation, before any clearing. */
  lemma OperatedAsListed(n: Node, op: Binding.Op, k: Key, e: Event, p: Endpoint)
    requires NoEmptySet(SubsOf(n, k))
    ensures p in SubscribersOf(Operated(n, op, k), e) <==>
            Puts(n, op, Subscribed(k, e, p)) ||
            (Holds(n, Subscribed(k, e, p)) && !Drops(n, op, k, e, p))
  {
    var sub := SubscriberOp(n, op, k);
    if sub.Some? {
      AfterRefinesEffect(SubsOf(n, k), sub.value);
    }
  }

  // The other tables, for the handlers that send nothing.

  predicate AboutState(f: Fact) {
    f.Known? || f.Requested? || f.HasClient? || f.HasServer? || f.Offered? || f.Asked?
  }

  predicate AboutPeers(f: Fact) {
    f.Connected? || f.Interested? || f.Available? || f.Awaited? || f.Mapped?
  }

  lemma WithoutOfferKeeps(s: ServiceState, c: Client)
    ensures var t := WithoutOffer(s, c);
            && t.requested == s.requested && t.clientConnector == s.clientConnector
            && t.clientConnectorPending == s.clientConnectorPending
            && t.offers == s.offers - {c}
  {
    assert c !in s.offers ==> s.offers - {c} == s.offers;
  }

  lemma RemovePeerStateAt(n: Node, c: Client, k: Key)
    ensures var m := RemovePeer(n, c);
            && (k in m.states <==> k in n.states)
            && StateOf(m, k).requested == StateOf(n, k).requested
            && HasClientConnector(m, k) == HasClientConnector(n, k)
            && StateOf(m, k).offers == StateOf(n, k).offers - {c}
  {
    if k in n.states {
      var s := n.states[k].(subs := After(n.states[k].subs, DropClient(c)));
      assert RemovePeer(n, c).states[k] == WithoutOffer(s, c);
      WithoutOfferKeeps(s, c);
    }
  }

  lemma OffersOf(n: Node, k: Key, c: Client)
    ensures OfferAt(n, k, c) == if c in StateOf(n, k).offers then Some(StateOf(n, k).offers[c]) else None
  {
  }

  lemma RemovePeerState(n: Node, c: Client, f: Fact)
    requires AboutState(f) && !f.HasServer?
    ensures ChangesAsListed(n, DropPeer(c), RemovePeer(n, c), f)
  {
    RemovePeerStateAt(n, c, f.key);
    if f.Offered? || f.Asked? {
      OffersOf(n, f.key, f.client);
      OffersOf(RemovePeer(n, c), f.key, f.client);
    }
  }

  lemma RemovePeerServer(n: Node, c: Client, k: Key)
    ensures ChangesAsListed(n, DropPeer(c), RemovePeer(n, c), HasServer(k))
  {
    ClearsAsListed(n, DropPeer(c), k);
  }

  lemma RemovePeerPeers(n: Node, c: Client, f: Fact)
    requires AboutPeers(f)
    ensures ChangesAsListed(n, DropPeer(c), RemovePeer(n, c), f)
  {
  }

  lemma RequestedKeeps(n: Node, c: Client, key: Key, created: bool, k: Key)
    ensures var m := HandleRequest(n, c, key, false, created);
            && (k in m.states <==> k in n.states)
            && StateOf(m, k) == StateOf(n, k).(subs := StateOf(m, k).subs)
  {
    assert HandleRequest(n, c, key, false, created).states == DropClientSubs(n.states, c);
  }

  lemma RequestInUse(n: Node, c: Client, key: Key, created: bool)
    ensures HandleRequest(n, c, key, true, created).states ==
            if BecomesClient(n, RequestMessage(c, key, true, created), key)
            then n.states[key := StateOf(n, key).(clientConnector := created, clientConnectorPending := false)]
            else n.states
  {
  }

  ghost predicate RequestKeepsState(n: Node, op: Binding.Op, m: Node, k: Key)
    requires op.RequestMessage?
  {
    && (k in m.states <==> k in n.states || BecomesClient(n, op, k))
    && StateOf(m, k).requested == StateOf(n, k).requested
    && StateOf(m, k).enabledConnector == StateOf(n, k).enabledConnector
    && HasClientConnector(m, k) == (if BecomesClient(n, op, k) then op.created else HasClientConnector(n, k))
    && StateOf(m, k).offers == StateOf(n, k).offers
  }

  lemma RequestStateAt(n: Node, c: Client, key: Key, inUse: bool, created: bool, k: Key)
    ensures RequestKeepsState(n, RequestMessage(c, key, inUse, created), HandleRequest(n, c, key, inUse, created), k)
  {
    if inUse {
      var op, m := RequestMessage(c, key, inUse, created), HandleRequest(n, c, key, inUse, created);
      RequestInUse(n, c, key, created);
      if k != key || !BecomesClient(n, op, key) {
        assert StateOf(m, k) == StateOf(n, k) && !BecomesClient(n, op, k);
      }
    } else {
      RequestedKeeps(n, c, key, created, k);
    }
  }

  lemma RequestState(n: Node, c: Client, key: Key, inUse: bool, created: bool, f: Fact)
    requires AboutState(f)
    ensures ChangesAsListed(n, RequestMessage(c, key, inUse, created), HandleRequest(n, c, key, inUse, created), f)
  {
    RequestStateAt(n, c, key, inUse, created, f.key);
    if f.Offered? || f.Asked? {
      OffersOf(n, f.key, f.client);
      OffersOf(HandleRequest(n, c, key, inUse, created), f.key, f.client);
    }
  }

  lemma RequestTable(n: Node, c: Client, key: Key, inUse: bool, created: bool, f: Fact)
    requires f.Connected? || f.Available? || f.Mapped?
    ensures ChangesAsListed(n, RequestMessage(c, key, inUse, created), HandleRequest(n, c, key, inUse, created), f)
  {
  }

  lemma RequestInterest(n: Node, c: Client, key: Key, inUse: bool, created: bool, f: Fact)
    requires f.Interested? || f.Awaited?
    ensures ChangesAsListed(n, RequestMessage(c, key, inUse, created), HandleRequest(n, c, key, inUse, created), f)
  {
    var m := HandleRequest(n, c, key, inUse, created);
    if inUse {
      assert m.pending == n.pending && m.interested == n.interested[key := InterestedIn(n, key) + {c}];
    } else {
      assert m.pending == ClearPendingOf(n.pending, key, c);
      assert m.interested == n.interested[key := InterestedIn(n, key) - {c}];
    }
  }

  lemma WithdrawalState(n: Node, c: Client, key: Key, order: seq<Client>, ok: set<Client>, f: Fact)
    requires AboutState(f)
    ensures ChangesAsListed(n, OfferMessage(c, key, false, order, ok), HandleOffer(n, c, key, false, order, ok), f)
  {
  }

  lemma WithdrawalPeers(n: Node, c: Client, key: Key, order: seq<Client>, ok: set<Client>, f: Fact)
    requires AboutPeers(f)
    ensures ChangesAsListed(n, OfferMessage(c, key, false, order, ok), HandleOffer(n, c, key, false, order, ok), f)
  {
  }

  lemma SubscribeKeeps(n: Node, c: Client, provided: Handle, e: Event, subscribe: bool, f: Fact)
    requires AboutState(f) || AboutPeers(f)
    ensures ChangesAsListed(n, SubscribeMessage(c, provided, e, subscribe),
                            HandleSubscribe(n, c, provided, e, subscribe), f)
  {
  }

  lemma ConnectServiceState(n: Node, c: Client, key: Key, required: Handle, inUse: bool, f: Fact)
    requires AboutState(f)
    ensures ChangesAsListed(n, ConnectServiceMessage(c, key, required, inUse),
                            HandleConnectService(n, c, key, required, inUse), f)
  {
  }

  lemma ConnectServicePeers(n: Node, c: Client, key: Key, required: Handle, inUse: bool, f: Fact)
    requires AboutPeers(f)
    ensures ChangesAsListed(n, ConnectServiceMessage(c, key, required, inUse),
                            HandleConnectService(n, c, key, required, inUse), f)
  {
  }

  lemma ReplyState(n: Node, c: Client, required: Handle, provided: Handle, f: Fact)
    requires AboutState(f)
    ensures ChangesAsListed(n, ConnectServiceReplyMessage(c, required, provided),
                            HandleConnectServiceReply(n, c, required, provided), f)
  {
    assert HandleConnectServiceReply(n, c, required, provided).states == n.states;
  }

  lemma ReplyPeers(n: Node, c: Client, required: Handle, provided: Handle, f: Fact)
    requires AboutPeers(f) && !f.Awaited?
    ensures ChangesAsListed(n, ConnectServiceReplyMessage(c, required, provided),
                            HandleConnectServiceReply(n, c, required, provided), f)
  {
  }

  lemma ReplyAwaited(n: Node, c: Client, required: Handle, provided: Handle, k: Key, d: Client, h: Handle)
    ensures ChangesAsListed(n, ConnectServiceReplyMessage(c, required, provided),
                            HandleConnectServiceReply(n, c, required, provided), Awaited(k, d, h))
  {
  }

  lemma EnabledStateAt(n: Node, key: Key, k: Key)
    ensures var m := Step(n, ServerConnectorEnabled(key));
            && (k in m.states <==> k in n.states)
            && StateOf(m, k) == if k == key && key in n.states then StateOf(n, k).(enabledConnector := true)
                                else StateOf(n, k)
  {
  }

  lemma EnabledState(n: Node, key: Key, f: Fact)
    requires AboutState(f)
    ensures var op := ServerConnectorEnabled(key); ChangesAsListed(n, op, Step(n, op), f)
  {
    EnabledStateAt(n, key, f.key);
    if f.Offered? || f.Asked? {
      OffersOf(n, f.key, f.client);
      OffersOf(Step(n, ServerConnectorEnabled(key)), f.key, f.client);
    }
  }

  lemma EnabledPeers(n: Node, key: Key, f: Fact)
    requires AboutPeers(f)
    ensures var op := ServerConnectorEnabled(key); ChangesAsListed(n, op, Step(n, op), f)
  {
    assert Step(n, ServerConnectorEnabled(key)) == n.(states := Step(n, ServerConnectorEnabled(key)).states);
  }

  lemma StateChangeState(n: Node, key: Key, available: bool, f: Fact)
    requires AboutState(f)
    ensures ChangesAsListed(n, ServiceStateChange(key, available), ChangeServiceState(n, key, available), f)
  {
  }

  lemma StateChangePeers(n: Node, key: Key, available: bool, f: Fact)
    requires AboutPeers(f)
    ensures ChangesAsListed(n, ServiceStateChange(key, available), ChangeServiceState(n, key, available), f)
  {
  }

  lemma LocalReleaseState(n: Node, key: Key, order: seq<Client>, ok: set<Client>, f: Fact)
    requires AboutState(f)
    ensures ChangesAsListed(n, LocalRequest(key, false, order, ok), RequestLocally(n, key, false, order, ok), f)
  {
  }

  lemma LocalReleasePeers(n: Node, key: Key, order: seq<Client>, ok: set<Client>, f: Fact)
    requires AboutPeers(f)
    ensures ChangesAsListed(n, LocalRequest(key, false, order, ok), RequestLocally(n, key, false, order, ok), f)
  {
  }

  // Sending Connect_service.

  /** The offer after some offers were visited, of which the sends in `good` succeeded. */
  ghost predicate SweptOffer(n: Node, m: Node, k: Key, c: Client, visited: bool, good: bool) {
    if visited && Due(n, k, c) then
      && OfferAt(m, k, c).Some? && OfferAt(m, k, c).value.offered && OfferAt(m, k, c).value.connectSent == good
      && HasRequired(m, k, c, OfferAt(m, k, c).value.required)
      && (if OfferAt(n, k, c).value.required != 0
          then OfferAt(m, k, c).value.required == OfferAt(n, k, c).value.required
          else n.next <= OfferAt(m, k, c).value.required)
      && OfferAt(m, k, c).value.required in m.pending
      && m.pending[OfferAt(m, k, c).value.required] == Pending(k, c)
    else OfferAt(m, k, c) == OfferAt(n, k, c)
  }

  /** A pending connect after it was there before, or is that of a visited offer. */
  ghost predicate SweptPending(n: Node, m: Node, visited: set<(Key, Client)>, h: Handle) {
    && (h in n.pending ==> h in m.pending && m.pending[h] == n.pending[h])
    && (h in m.pending && h !in n.pending ==>
          && (m.pending[h].key, m.pending[h].client) in visited
          && Due(n, m.pending[h].key, m.pending[h].client)
          && HasRequired(m, m.pending[h].key, m.pending[h].client, h))
  }

  /** The rest of a service's state. */
  ghost predicate SweptState(n: Node, m: Node, k: Key) {
    && (k in m.states <==> k in n.states)
    && StateOf(m, k) == StateOf(n, k).(offers := StateOf(m, k).offers)
  }

  ghost predicate Swept(n: Node, m: Node, visited: set<(Key, Client)>, good: set<(Key, Client)>) {
    && (forall k: Key, c: Client :: SweptOffer(n, m, k, c, (k, c) in visited, (k, c) in good))
    && (forall h: Handle :: SweptPending(n, m, visited, h))
    && (forall k: Key :: SweptState(n, m, k))
    && m.connections == n.connections && m.table == n.table && m.interested == n.interested
    && m.localOffers == n.localOffers && n.next <= m.next
  }

  lemma SendOneSweeps(n: Node, key: Key, c: Client, ok: bool)
    requires Handshake(n) && StateOf(n, key).requested
    ensures Swept(n, SendOne(n, key, c, ok), {(key, c)}, if ok then {(key, c)} else {})
  {
    var m := SendOne(n, key, c, ok);
    if Ready(n, key, c) {
      SendOneOffers(n, key, c, ok);
      var h := IdFor(n, key, c);
      assert OfferOk(n, OfferAt(n, key, c).value);
      if h in n.pending {
        assert HasRequired(n, n.pending[h].key, n.pending[h].client, h);
        IdIsFree(n, key, c, n.pending[h].key, n.pending[h].client);
      }
      forall k: Key, d: Client
        ensures SweptOffer(n, m, k, d, (k, d) in {(key, c)}, (k, d) in if ok then {(key, c)} else {})
      {
      }
    }
  }

  lemma NothingSwept(n: Node)
    ensures Swept(n, n, {}, {})
  {
  }

  lemma OfferSweepsCompose(n: Node, m: Node, r: Node, a: set<(Key, Client)>, b: set<(Key, Client)>,
                           v: set<(Key, Client)>, w: set<(Key, Client)>, k: Key, c: Client)
    requires Swept(n, m, a, v) && Swept(m, r, b, w) && v <= a && w <= b
    ensures SweptOffer(n, r, k, c, (k, c) in a + b, (k, c) in v + w)
  {
    assert SweptOffer(n, m, k, c, (k, c) in a, (k, c) in v) && SweptOffer(m, r, k, c, (k, c) in b, (k, c) in w);
    assert SweptState(n, m, k);
    if (k, c) in a && Due(n, k, c) {
      assert SweptPending(m, r, b, OfferAt(m, k, c).value.required);
    }
  }

  lemma PendingSweepsCompose(n: Node, m: Node, r: Node, a: set<(Key, Client)>, b: set<(Key, Client)>,
                             v: set<(Key, Client)>, w: set<(Key, Client)>, h: Handle)
    requires Swept(n, m, a, v) && Swept(m, r, b, w)
    ensures SweptPending(n, r, a + b, h)
  {
    assert SweptPending(n, m, a, h) && SweptPending(m, r, b, h);
    if h in r.pending && h !in n.pending {
      var k, c := r.pending[h].key, r.pending[h].client;
      assert SweptOffer(n, m, k, c, (k, c) in a, (k, c) in v) && SweptOffer(m, r, k, c, (k, c) in b, (k, c) in w);
      assert SweptState(n, m, k);
    }
  }

  lemma SweepsCompose(n: Node, m: Node, r: Node, a: set<(Key, Client)>, b: set<(Key, Client)>,
                      v: set<(Key, Client)>, w: set<(Key, Client)>)
    requires Swept(n, m, a, v) && Swept(m, r, b, w) && v <= a && w <= b
    ensures Swept(n, r, a + b, v + w)
  {
    forall k: Key, c: Client ensures SweptOffer(n, r, k, c, (k, c) in a + b, (k, c) in v + w) {
      OfferSweepsCompose(n, m, r, a, b, v, w, k, c);
    }
    forall h: Handle ensures SweptPending(n, r, a + b, h) {
      PendingSweepsCompose(n, m, r, a, b, v, w, h);
    }
    forall k: Key ensures SweptState(n, r, k) {
      assert SweptState(n, m, k) && SweptState(m, r, k);
    }
  }

  /** The visits of one service, and those whose send succeeds. */
  function VisitsOf(key: Key, order: seq<Client>): set<(Key, Client)> {
    set c | c in order :: (key, c)
  }

  function SuccessesOf(key: Key, order: seq<Client>, ok: set<Client>): set<(Key, Client)> {
    set c | c in order && c in ok :: (key, c)
  }

  lemma {:induction false} SendConnectSweeps(n: Node, key: Key, order: seq<Client>, ok: set<Client>)
    requires Handshake(n) && StateOf(n, key).requested
    ensures Swept(n, SendConnect(n, key, order, ok), VisitsOf(key, order), SuccessesOf(key, order, ok))
  {
    if order == [] {
      NothingSwept(n);
      assert VisitsOf(key, order) == {} && SuccessesOf(key, order, ok) == {};
    } else {
      var last := |order| - 1;
      var rest, c := order[..last], order[last];
      var m := SendConnect(n, key, rest, ok);
      SendConnectSweeps(n, key, rest, ok);
      SendConnectKeepsHandshake(n, key, rest, ok);
      assert SweptState(n, m, key);
      SendOneSweeps(m, key, c, c in ok);
      var good := if c in ok then {(key, c)} else {};
      SweepsCompose(n, m, SendOne(m, key, c, c in ok), VisitsOf(key, rest), {(key, c)},
                    SuccessesOf(key, rest, ok), good);
      assert order == rest + [c];
      assert VisitsOf(key, rest) + {(key, c)} == VisitsOf(key, order);
      assert SuccessesOf(key, rest, ok) + good == SuccessesOf(key, order, ok);
    }
  }

  /** A service that is not requested is not swept. */
  lemma UnrequestedIsSwept(n: Node, key: Key, order: seq<Client>, ok: set<Client>)
    requires !StateOf(n, key).requested
    ensures Swept(n, SendConnect(n, key, order, ok), VisitsOf(key, order), SuccessesOf(key, order, ok))
  {
    assert SendConnect(n, key, order, ok) == n;
    forall c: Client ensures !Due(n, key, c) { }
  }

  function AllVisits(visits: seq<Visit>): set<(Key, Client)> {
    if visits == [] then {}
    else AllVisits(visits[..|visits| - 1]) + VisitsOf(visits[|visits| - 1].key, visits[|visits| - 1].order)
  }

  function AllSuccesses(visits: seq<Visit>): set<(Key, Client)> {
    if visits == [] then {}
    else
      var v := visits[|visits| - 1];
      AllSuccesses(visits[..|visits| - 1]) + SuccessesOf(v.key, v.order, v.ok)
  }

  lemma {:induction false} SuccessesAreVisits(visits: seq<Visit>)
    ensures AllSuccesses(visits) <= AllVisits(visits)
  {
    if visits != [] {
      SuccessesAreVisits(visits[..|visits| - 1]);
    }
  }

  lemma {:induction false} SendConnectsSweep(n: Node, visits: seq<Visit>)
    requires Handshake(n)
    ensures Swept(n, SendConnects(n, visits), AllVisits(visits), AllSuccesses(visits))
  {
    if visits == [] {
      NothingSwept(n);
    } else {
      var rest, v := visits[..|visits| - 1], visits[|visits| - 1];
      var m := SendConnects(n, rest);
      SendConnectsSweep(n, rest);
      SendConnectsKeepsHandshake(n, rest);
      if StateOf(m, v.key).requested {
        SendConnectSweeps(m, v.key, v.order, v.ok);
      } else {
        UnrequestedIsSwept(m, v.key, v.order, v.ok);
      }
      SuccessesAreVisits(rest);
      SweepsCompose(n, m, SendConnects(n, visits), AllVisits(rest), VisitsOf(v.key, v.order), AllSuccesses(rest),
                    SuccessesOf(v.key, v.order, v.ok));
    }
  }

  // What a sweep does to the facts.

  lemma SweptKeeps(w: Node, m: Node, visited: set<(Key, Client)>, good: set<(Key, Client)>, f: Fact)
    requires Swept(w, m, visited, good) && !f.Asked? && !f.Awaited? && !f.Subscribed?
    ensures Holds(m, f) <==> Holds(w, f)
  {
    if f.Offered? {
      assert SweptOffer(w, m, f.key, f.client, (f.key, f.client) in visited, (f.key, f.client) in good);
    } else if AboutState(f) {
      assert SweptState(w, m, f.key);
    }
  }

  lemma SweptAsks(w: Node, m: Node, visited: set<(Key, Client)>, good: set<(Key, Client)>, k: Key, c: Client)
    requires Swept(w, m, visited, good)
    ensures Holds(m, Asked(k, c)) <==>
            Holds(w, Asked(k, c)) || ((k, c) in visited && Due(w, k, c) && (k, c) in good)
  {
    assert SweptOffer(w, m, k, c, (k, c) in visited, (k, c) in good);
  }

  lemma SweptAwaits(w: Node, m: Node, visited: set<(Key, Client)>, good: set<(Key, Client)>, k: Key, c: Client,
                    h: Handle)
    requires Swept(w, m, visited, good)
    ensures Holds(m, Awaited(k, c, h)) <==>
            Holds(w, Awaited(k, c, h)) || ((k, c) in visited && Due(w, k, c) && HasRequired(m, k, c, h))
  {
    assert SweptOffer(w, m, k, c, (k, c) in visited, (k, c) in good);
    assert SweptPending(w, m, visited, h);
  }

  /** The steps that send Connect_service. */
  predicate IsSending(n: Node, op: Binding.Op) {
    op.ConnectReplyMessage? || (op.OfferMessage? && op.offered) ||
    (op.LocalRequest? && op.inUse && !HasClientConnector(n, op.key))
  }

  /** What such a step does before it sends. */
  function Prepared(n: Node, op: Binding.Op): Node {
    match op
    case OfferMessage(c, key, _, _, _) =>
      var s := StateOf(n, key);
      var offer := if c in s.offers then s.offers[c].(offered := true) else Offer(true, false, 0);
      WithState(n, key, s.(offers := s.offers[c := offer]))
    case LocalRequest(key, _, _, _) => WithState(n, key, StateOf(n, key).(requested := true))
    case _ => n
  }

  function OffersVisited(op: Binding.Op): set<(Key, Client)> {
    match op
    case OfferMessage(_, key, _, order, _) => VisitsOf(key, order)
    case LocalRequest(key, _, order, _) => VisitsOf(key, order)
    case ConnectReplyMessage(visits) => AllVisits(visits)
    case _ => {}
  }

  function Successful(op: Binding.Op): set<(Key, Client)> {
    match op
    case OfferMessage(_, key, _, order, ok) => SuccessesOf(key, order, ok)
    case LocalRequest(key, _, order, ok) => SuccessesOf(key, order, ok)
    case ConnectReplyMessage(visits) => AllSuccesses(visits)
    case _ => {}
  }

  lemma PreparedOffer(n: Node, op: Binding.Op, k: Key, c: Client)
    requires IsSending(n, op)
    ensures OfferAt(Prepared(n, op), k, c) ==
            if op.OfferMessage? && op.key == k && op.client == c
            then Some(if OfferAt(n, k, c).Some? then OfferAt(n, k, c).value.(offered := true)
                      else Offer(true, false, 0))
            else OfferAt(n, k, c)
  {
  }

  lemma PreparedKeepsHandshake(n: Node, op: Binding.Op)
    requires Handshake(n) && IsSending(n, op)
    ensures Handshake(Prepared(n, op))
  {
    if op.OfferMessage? {
      OfferArrives(n, op.client, op.key);
    } else if op.LocalRequest? {
      var w := Prepared(n, op);
      forall k: Key, d: Client ensures OfferAt(w, k, d) == OfferAt(n, k, d) {
        PreparedOffer(n, op, k, d);
      }
      SameOffersKeepHandshake(n, w);
    }
  }

  lemma OneServiceIsSwept(w: Node, key: Key, order: seq<Client>, ok: set<Client>)
    requires Handshake(w)
    ensures Swept(w, SendConnect(w, key, order, ok), VisitsOf(key, order), SuccessesOf(key, order, ok))
  {
    if StateOf(w, key).requested {
      SendConnectSweeps(w, key, order, ok);
    } else {
      UnrequestedIsSwept(w, key, order, ok);
    }
  }

  lemma SendingSweeps(n: Node, op: Binding.Op)
    requires Handshake(n) && IsSending(n, op)
    ensures Swept(Prepared(n, op), Step(n, op), OffersVisited(op), Successful(op))
  {
    PreparedKeepsHandshake(n, op);
    if op.ConnectReplyMessage? {
      SendConnectsSweep(n, op.visits);
    } else {
      OneServiceIsSwept(Prepared(n, op), op.key, op.order, op.ok);
    }
  }

  lemma PreparedState(n: Node, op: Binding.Op, f: Fact)
    requires IsSending(n, op) && AboutState(f) && !f.Asked?
    ensures ChangesAsListed(n, op, Prepared(n, op), f)
  {
    if f.Offered? {
      PreparedOffer(n, op, f.key, f.client);
    }
  }

  lemma PreparedPeers(n: Node, op: Binding.Op, f: Fact)
    requires IsSending(n, op) && AboutPeers(f) && !f.Awaited?
    ensures ChangesAsListed(n, op, Prepared(n, op), f)
  {
  }

  lemma {:induction false} VisitedIff(visits: seq<Visit>, k: Key, c: Client)
    ensures (k, c) in AllVisits(visits) <==> exists i :: 0 <= i < |visits| && visits[i].key == k && c in visits[i].order
    ensures (k, c) in AllSuccesses(visits) <==>
            exists i :: 0 <= i < |visits| && visits[i].key == k && c in visits[i].order && c in visits[i].ok
  {
    if visits != [] {
      VisitedIff(visits[..|visits| - 1], k, c);
    }
  }

  /** Every offer of the service is visited. */
  lemma AllOffersAreVisited(n: Node, op: Binding.Op, k: Key, c: Client)
    requires IsSending(n, op) && Enabled(n, op) && OfferAt(Prepared(n, op), k, c).Some?
    requires op.ConnectReplyMessage? || op.key == k
    ensures (k, c) in OffersVisited(op) && ((k, c) in Successful(op) <==> SendSucceeds(op, k, c))
  {
    PreparedOffer(n, op, k, c);
    if op.ConnectReplyMessage? {
      VisitedIff(op.visits, k, c);
      var i :| 0 <= i < |op.visits| && op.visits[i].key == k;
      forall j | 0 <= j < |op.visits| && op.visits[j].key == k ensures c in op.visits[j].order {}
    }
  }

  /** The listed condition for asking is that a visited offer is due. */
  lemma AsksIffDue(n: Node, op: Binding.Op, k: Key, c: Client)
    requires IsSending(n, op) && Enabled(n, op)
    ensures Asks(n, op, k, c) <==> (k, c) in OffersVisited(op) && Due(Prepared(n, op), k, c)
    ensures Asks(n, op, k, c) ==> ((k, c) in Successful(op) <==> SendSucceeds(op, k, c))
    ensures Holds(Prepared(n, op), Asked(k, c)) <==> Holds(n, Asked(k, c))
  {
    PreparedOffer(n, op, k, c);
    if OfferAt(Prepared(n, op), k, c).Some? && (op.ConnectReplyMessage? || op.key == k) {
      AllOffersAreVisited(n, op, k, c);
    }
  }

  lemma SendingAsks(n: Node, op: Binding.Op, k: Key, c: Client)
    requires Handshake(n) && IsSending(n, op) && Enabled(n, op)
    ensures ChangesAsListed(n, op, Step(n, op), Asked(k, c))
  {
    SendingSweeps(n, op);
    AsksIffDue(n, op, k, c);
    SweptAsks(Prepared(n, op), Step(n, op), OffersVisited(op), Successful(op), k, c);
  }

  lemma PreparedAwaits(n: Node, op: Binding.Op, k: Key, c: Client, h: Handle)
    requires IsSending(n, op)
    ensures Holds(Prepared(n, op), Awaited(k, c, h)) <==> Holds(n, Awaited(k, c, h))
    ensures !Takes(n, op, Awaited(k, c, h))
  {
  }

  lemma SendingAwaits(n: Node, op: Binding.Op, k: Key, c: Client, h: Handle)
    requires Handshake(n) && IsSending(n, op) && Enabled(n, op)
    ensures ChangesAsListed(n, op, Step(n, op), Awaited(k, c, h))
  {
    SendingSweeps(n, op);
    AsksIffDue(n, op, k, c);
    PreparedAwaits(n, op, k, c, h);
    SweptAwaits(Prepared(n, op), Step(n, op), OffersVisited(op), Successful(op), k, c, h);
  }

  lemma SendingKeeps(n: Node, op: Binding.Op, f: Fact)
    requires Handshake(n) && IsSending(n, op) && !f.Subscribed? && !f.Asked? && !f.Awaited?
    ensures ChangesAsListed(n, op, Step(n, op), f)
  {
    SendingSweeps(n, op);
    SweptKeeps(Prepared(n, op), Step(n, op), OffersVisited(op), Successful(op), f);
    if AboutState(f) {
      PreparedState(n, op, f);
    } else {
      PreparedPeers(n, op, f);
    }
  }

  lemma SendingChanges(n: Node, op: Binding.Op, f: Fact)
    requires Handshake(n) && IsSending(n, op) && Enabled(n, op) && !f.Subscribed?
    ensures ChangesAsListed(n, op, Step(n, op), f)
  {
    if f.Asked? {
      SendingAsks(n, op, f.key, f.client);
    } else if f.Awaited? {
      SendingAwaits(n, op, f.key, f.client, f.required);
    } else {
      SendingKeeps(n, op, f);
    }
  }

  // Every handler.

  lemma IdleRequestChanges(n: Node, op: Binding.Op, f: Fact)
    requires op.LocalRequest? && op.inUse && HasClientConnector(n, op.key)
    ensures ChangesAsListed(n, op, Step(n, op), f)
  {
    assert Step(n, op) == n;
  }

  lemma AddClientChanges(n: Node, c: Client, f: Fact)
    requires !f.Subscribed?
    ensures ChangesAsListed(n, AddClient(c), Step(n, AddClient(c)), f)
  {
  }

  lemma StateHandlersChange(n: Node, op: Binding.Op, f: Fact)
    requires AboutState(f) && !IsSending(n, op) && !op.AddClient?
    ensures ChangesAsListed(n, op, Step(n, op), f)
  {
    match op {
      case DropPeer(c) => if f.HasServer? { RemovePeerServer(n, c, f.key); } else { RemovePeerState(n, c, f); }
      case RequestMessage(c, key, inUse, created) => RequestState(n, c, key, inUse, created, f);
      case OfferMessage(c, key, _, order, ok) => WithdrawalState(n, c, key, order, ok, f);
      case SubscribeMessage(c, provided, e, subscribe) => SubscribeKeeps(n, c, provided, e, subscribe, f);
      case ConnectServiceMessage(c, key, required, inUse) => ConnectServiceState(n, c, key, required, inUse, f);
      case ConnectServiceReplyMessage(c, required, provided) => ReplyState(n, c, required, provided, f);
      case ServerConnectorEnabled(key) => EnabledState(n, key, f);
      case ServiceStateChange(key, available) => StateChangeState(n, key, available, f);
      case LocalRequest(key, inUse, order, ok) =>
        if inUse { IdleRequestChanges(n, op, f); } else { LocalReleaseState(n, key, order, ok, f); }
    }
  }

  lemma PeerHandlersChange(n: Node, op: Binding.Op, f: Fact)
    requires AboutPeers(f) && !IsSending(n, op) && !op.AddClient?
    ensures ChangesAsListed(n, op, Step(n, op), f)
  {
    match op {
      case DropPeer(c) => RemovePeerPeers(n, c, f);
      case RequestMessage(c, key, inUse, created) =>
        if f.Interested? || f.Awaited? {
          RequestInterest(n, c, key, inUse, created, f);
        } else {
          RequestTable(n, c, key, inUse, created, f);
        }
      case OfferMessage(c, key, _, order, ok) => WithdrawalPeers(n, c, key, order, ok, f);
      case SubscribeMessage(c, provided, e, subscribe) => SubscribeKeeps(n, c, provided, e, subscribe, f);
      case ConnectServiceMessage(c, key, required, inUse) => ConnectServicePeers(n, c, key, required, inUse, f);
      case ConnectServiceReplyMessage(c, required, provided) =>
        if f.Awaited? {
          ReplyAwaited(n, c, required, provided, f.key, f.client, f.required);
        } else {
          ReplyPeers(n, c, required, provided, f);
        }
      case ServerConnectorEnabled(key) => EnabledPeers(n, key, f);
      case ServiceStateChange(key, available) => StateChangePeers(n, key, available, f);
      case LocalRequest(key, inUse, order, ok) =>
        if inUse { IdleRequestChanges(n, op, f); } else { LocalReleasePeers(n, key, order, ok, f); }
    }
  }

  /** Every handler changes every table exactly as listed: what it does not put in or take out stays as it is. */
  lemma StepChangesAsListed(n: Node, op: Binding.Op, f: Fact)
    requires Handshake(n) && Enabled(n, op) && (f.Subscribed? ==> NoEmptySet(SubsOf(n, f.key)))
    ensures Holds(Step(n, op), f) <==> Puts(n, op, f) || (Holds(n, f) && !Takes(n, op, f))
  {
    if f.Subscribed? {
      SubscriptionChanges(n, op, f.key, f.event, f.endpoint);
    } else if IsSending(n, op) {
      SendingChanges(n, op, f);
    } else if op.AddClient? {
      AddClientChanges(n, op.client, f);
    } else if AboutState(f) {
      StateHandlersChange(n, op, f);
    } else {
      PeerHandlersChange(n, op, f);
    }
  }

  // Runs.

  /** The state after the first `t` steps. */
  function NodeAt(ops: seq<Binding.Op>, t: nat): Node
    requires t <= |ops|
  {
    Run(INIT, ops[..t])
  }

  lemma {:induction false} NodesAreSound(ops: seq<Binding.Op>, t: nat)
    requires EnabledRun(INIT, ops) && t <= |ops|
    ensures EnabledRun(INIT, ops[..t]) && Handshake(NodeAt(ops, t))
    ensures forall k: Key :: NoEmptySet(SubsOf(NodeAt(ops, t), k))
    ensures t < |ops| ==> Enabled(NodeAt(ops, t), ops[t]) && NodeAt(ops, t + 1) == Step(NodeAt(ops, t), ops[t])
    decreases |ops| - t
  {
    if t == |ops| {
      assert ops[..t] == ops;
    } else {
      NodesAreSound(ops, t + 1);
      assert ops[..t + 1][..t] == ops[..t];
    }
    HandshakeAlwaysHolds(ops[..t]);
    forall k: Key ensures NoEmptySet(SubsOf(NodeAt(ops, t), k)) {
      RunsStoreNoEmptySet(ops[..t], k);
    }
  }

  ghost function HoldsAt(ops: seq<Binding.Op>, f: Fact): nat -> bool {
    (t: nat) => t <= |ops| && Holds(NodeAt(ops, t), f)
  }

  ghost function PutsAt(ops: seq<Binding.Op>, f: Fact): nat -> bool {
    (t: nat) => t < |ops| && Puts(NodeAt(ops, t), ops[t], f)
  }

  ghost function TakesAt(ops: seq<Binding.Op>, f: Fact): nat -> bool {
    (t: nat) => t < |ops| && Takes(NodeAt(ops, t), ops[t], f)
  }

  lemma HoldsNext(ops: seq<Binding.Op>, t: nat, f: Fact)
    requires EnabledRun(INIT, ops) && t < |ops|
    ensures FollowsAt(t, HoldsAt(ops, f), PutsAt(ops, f), TakesAt(ops, f))
  {
    NodesAreSound(ops, t);
    StepChangesAsListed(NodeAt(ops, t), ops[t], f);
  }

  lemma NothingHoldsAtFirst(ops: seq<Binding.Op>, f: Fact)
    ensures !HoldsAt(ops, f)(0)
  {
    assert ops[..0] == [];
  }

  lemma HoldsAlong(ops: seq<Binding.Op>, f: Fact)
    requires EnabledRun(INIT, ops)
    ensures Follows(|ops|, HoldsAt(ops, f), PutsAt(ops, f), TakesAt(ops, f))
  {
    forall t: nat | t < |ops| ensures FollowsAt(t, HoldsAt(ops, f), PutsAt(ops, f), TakesAt(ops, f)) {
      HoldsNext(ops, t, f);
    }
  }

  lemma HoldsAtEnd(ops: seq<Binding.Op>, f: Fact)
    ensures HoldsAt(ops, f)(|ops|) <==> Holds(Run(INIT, ops), f)
  {
    assert ops[..|ops|] == ops;
  }

  /** In every run the tables hold exactly what some message put in and no message took out since. */
  lemma TablesAreHistory(ops: seq<Binding.Op>, f: Fact)
    requires EnabledRun(INIT, ops)
    ensures Holds(Run(INIT, ops), f) <==> KeptSincePut(|ops|, PutsAt(ops, f), TakesAt(ops, f))
  {
    NothingHoldsAtFirst(ops, f);
    HoldsAlong(ops, f);
    HoldsAtEnd(ops, f);
    InIffPutAndKept(|ops|, HoldsAt(ops, f), PutsAt(ops, f), TakesAt(ops, f));
  }
}
