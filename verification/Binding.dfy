/** The tables of one gateway IPC binding and its message handlers (binding_base.cpp, service_state.hpp,
    pending_connects.hpp, connections.hpp). Each handler runs under one mutex and is one step. */
module Binding {
  import opened Prelude
  import opened ConnectionMetadata
  import opened EventSubscriptions

  datatype Offer = Offer(offered: bool, connectSent: bool, required: Handle)

  datatype ServiceState = ServiceState(
    requested: bool,
    offers: map<Client, Offer>,
    clientConnector: bool,
    clientConnectorPending: bool,
    enabledConnector: bool,
    subs: Subscribers)

  datatype Pending = Pending(key: Key, client: Client)

  /** A Connect_service message that left this binding. */
  datatype Sent = Sent(client: Client, key: Key, required: Handle)

  /** The last three fields are history: no handler reads them. */
  datatype Node = Node(
    connections: set<Client>,
    states: map<Key, ServiceState>,
    pending: map<Handle, Pending>,
    table: Table,
    interested: map<Key, set<Client>>,
    localOffers: map<Key, bool>,
    next: Handle,
    bridged: set<Key>,
    sent: seq<Sent>,
    accepted: set<Handle>)

  const NEW_STATE := ServiceState(false, map[], false, false, false, map[])

  const INIT := Node({}, map[], map[], map[], map[], map[], 1, {}, [], {})

  function StateOf(n: Node, key: Key): ServiceState {
    if key in n.states then n.states[key] else NEW_STATE
  }

  function OfferAt(n: Node, key: Key, c: Client): Option<Offer> {
    if key in n.states && c in n.states[key].offers then Some(n.states[key].offers[c]) else None
  }

  function InterestedIn(n: Node, key: Key): set<Client> {
    if key in n.interested then n.interested[key] else {}
  }

  function WithState(n: Node, key: Key, s: ServiceState): Node {
    n.(states := n.states[key := s])
  }

  predicate HasClientConnector(n: Node, key: Key) {
    StateOf(n, key).clientConnectorPending || StateOf(n, key).clientConnector
  }

  // Removal from the pending connects.

  function ClearPendingOf(pending: map<Handle, Pending>, key: Key, c: Client): map<Handle, Pending> {
    map h | h in pending && pending[h] != Pending(key, c) :: pending[h]
  }

  function ClearPendingForKey(pending: map<Handle, Pending>, key: Key): map<Handle, Pending> {
    map h | h in pending && pending[h].key != key :: pending[h]
  }

  function ClearPendingForClient(pending: map<Handle, Pending>, c: Client): map<Handle, Pending> {
    map h | h in pending && pending[h].client != c :: pending[h]
  }

  // Removal from the service states.

  function DropClientSubs(states: map<Key, ServiceState>, c: Client): map<Key, ServiceState> {
    map k | k in states :: states[k].(subs := After(states[k].subs, DropClient(c)))
  }

  function WithoutOffer(s: ServiceState, c: Client): ServiceState {
    if c !in s.offers then s
    else if s.offers - {c} != map[] then s.(offers := s.offers - {c})
    else s.(offers := map[], subs := map[], enabledConnector := false)
  }

  function RemoveOffers(states: map<Key, ServiceState>, c: Client): map<Key, ServiceState> {
    map k | k in states :: WithoutOffer(states[k], c)
  }

  function Disinterest(interested: map<Key, set<Client>>, c: Client): map<Key, set<Client>> {
    map k | k in interested && interested[k] - {c} != {} :: interested[k] - {c}
  }

  // Sending Connect_service. `order` is the order in which the offers are visited, `ok` the clients
  // to which a send succeeds.

  function SendOne(n: Node, key: Key, c: Client, ok: bool): Node {
    var offer := OfferAt(n, key, c);
    if offer.None? || !offer.value.offered || offer.value.connectSent then n
    else
      var required := if offer.value.required == 0 then n.next else offer.value.required;
      var s := n.states[key];
      n.(next := if offer.value.required == 0 then n.next + 1 else n.next,
         pending := if required in n.pending then n.pending else n.pending[required := Pending(key, c)],
         states := n.states[key := s.(offers := s.offers[c := Offer(true, ok, required)])],
         sent := if ok then n.sent + [Sent(c, key, required)] else n.sent)
  }

  function SendConnect(n: Node, key: Key, order: seq<Client>, ok: set<Client>): Node {
    if !StateOf(n, key).requested || order == [] then n
    else SendOne(SendConnect(n, key, order[..|order| - 1], ok), key, order[|order| - 1], order[|order| - 1] in ok)
  }

  datatype Visit = Visit(key: Key, order: seq<Client>, ok: set<Client>)

  function SendConnects(n: Node, visits: seq<Visit>): Node {
    if visits == [] then n
    else
      var v := visits[|visits| - 1];
      SendConnect(SendConnects(n, visits[..|visits| - 1]), v.key, v.order, v.ok)
  }

  // The steps.

  datatype Op =
    | AddClient(client: Client)
    | DropPeer(client: Client)
    | ConnectReplyMessage(visits: seq<Visit>)
    | RequestMessage(client: Client, key: Key, inUse: bool, created: bool)
    | OfferMessage(client: Client, key: Key, offered: bool, order: seq<Client>, ok: set<Client>)
    | SubscribeMessage(client: Client, provided: Handle, event: Event, subscribe: bool)
    | ConnectServiceMessage(client: Client, key: Key, required: Handle, inUse: bool)
    | ConnectServiceReplyMessage(client: Client, required: Handle, provided: Handle)
    | ServerConnectorEnabled(key: Key)
    | ServiceStateChange(key: Key, available: bool)
    | LocalRequest(key: Key, inUse: bool, order: seq<Client>, ok: set<Client>)

  function RemovePeer(n: Node, c: Client): Node {
    n.(connections := n.connections - {c},
       states := RemoveOffers(DropClientSubs(n.states, c), c),
       interested := Disinterest(n.interested, c),
       table := RemoveClient(n.table, c),
       pending := ClearPendingForClient(n.pending, c))
  }

  function HandleRequest(n: Node, c: Client, key: Key, inUse: bool, created: bool): Node {
    if !inUse then
      n.(states := DropClientSubs(n.states, c),
         table := RemoveClientAndKey(n.table, c, key),
         pending := ClearPendingOf(n.pending, key, c),
         interested := n.interested[key := InterestedIn(n, key) - {c}])
    else
      var m := n.(interested := n.interested[key := InterestedIn(n, key) + {c}]);
      if (key in n.localOffers && n.localOffers[key]) || HasClientConnector(n, key)
         || StateOf(n, key).enabledConnector || StateOf(n, key).requested then m
      else
        WithState(m, key, StateOf(m, key).(clientConnector := created, clientConnectorPending := false))
        .(bridged := n.bridged + {key})
  }

  function HandleOffer(n: Node, c: Client, key: Key, offered: bool, order: seq<Client>, ok: set<Client>): Node {
    var s := StateOf(n, key);
    if !offered then
      WithState(n, key, s.(offers := s.offers - {c}, enabledConnector := false, subs := map[]))
      .(table := RemoveService(n.table, key), pending := ClearPendingOf(n.pending, key, c))
    else
      var offer := if c in s.offers then s.offers[c].(offered := true) else Offer(true, false, 0);
      SendConnect(WithState(n, key, s.(offers := s.offers[c := offer])), key, order, ok)
  }

  function HandleSubscribe(n: Node, c: Client, provided: Handle, event: Event, subscribe: bool): Node {
    var found := FirstWithLocal(EntriesOf(n.table, c), provided);
    if found.None? || found.value.key !in n.states then n
    else
      var s := n.states[found.value.key];
      var p := Endpoint(c, provided);
      var op := if subscribe then AddSubscriber(p, event) else RemoveSubscriber(p, event);
      WithState(n, found.value.key, s.(subs := After(s.subs, op)))
  }

  function HandleConnectService(n: Node, c: Client, key: Key, required: Handle, inUse: bool): Node {
    if !inUse then
      var found := FirstWithRemote(EntriesOf(n.table, c), required);
      var s := StateOf(n, key);
      var subs := if found.Some? then After(s.subs, DropConnection(Endpoint(c, found.value.local))) else s.subs;
      var states := if key in n.states
                    then n.states[key := s.(subs := subs, clientConnector := false, clientConnectorPending := false)]
                    else n.states;
      n.(states := states, table := RemoveMapping(n.table, c, required), pending := ClearPendingOf(n.pending, key, c))
    else
      n.(next := n.next + 1, table := Add(n.table, c, Ids(key, n.next, required, Provider)))
  }

  function HandleConnectServiceReply(n: Node, c: Client, required: Handle, provided: Handle): Node {
    if required !in n.pending || n.pending[required].client != c then n
    else if n.pending[required].key !in n.states then n.(pending := n.pending - {required})
    else
      n.(table := Add(n.table, c, Ids(n.pending[required].key, provided, required, Consumer)),
         pending := n.pending - {required},
         accepted := n.accepted + {required})
  }

  function ChangeServiceState(n: Node, key: Key, available: bool): Node {
    WithState(n, key, StateOf(n, key).(requested := true))
    .(table := if available then n.table else RemoveService(n.table, key),
      localOffers := n.localOffers[key := available])
  }

  function RequestLocally(n: Node, key: Key, inUse: bool, order: seq<Client>, ok: set<Client>): Node {
    if HasClientConnector(n, key) then n
    else if !inUse then
      n.(states := n.states - {key}, table := RemoveService(n.table, key),
         pending := ClearPendingForKey(n.pending, key))
    else
      SendConnect(WithState(n, key, StateOf(n, key).(requested := true)), key, order, ok)
  }

  function Step(n: Node, op: Op): Node {
    match op
    case AddClient(c) => n.(connections := n.connections + {c})
    case DropPeer(c) => RemovePeer(n, c)
    case ConnectReplyMessage(visits) => SendConnects(n, visits)
    case RequestMessage(c, key, inUse, created) => HandleRequest(n, c, key, inUse, created)
    case OfferMessage(c, key, offered, order, ok) => HandleOffer(n, c, key, offered, order, ok)
    case SubscribeMessage(c, provided, event, subscribe) => HandleSubscribe(n, c, provided, event, subscribe)
    case ConnectServiceMessage(c, key, required, inUse) => HandleConnectService(n, c, key, required, inUse)
    case ConnectServiceReplyMessage(c, required, provided) => HandleConnectServiceReply(n, c, required, provided)
    case ServerConnectorEnabled(key) =>
      if key in n.states then WithState(n, key, n.states[key].(enabledConnector := true)) else n
    case ServiceStateChange(key, available) => ChangeServiceState(n, key, available)
    case LocalRequest(key, inUse, order, ok) => RequestLocally(n, key, inUse, order, ok)
  }

  /** An order visits each offer of the key once. */
  ghost predicate Visits(order: seq<Client>, offers: set<Client>) {
    (forall c :: c in offers <==> c in order) && forall i, j :: 0 <= i < j < |order| ==> order[i] != order[j]
  }

  /** Messages come from connected clients, a reply answers a Connect_service that was sent, and the
      loops visit every offer. */
  ghost predicate Enabled(n: Node, op: Op) {
    match op
    case AddClient(c) => c !in n.connections
    case DropPeer(c) => true
    case ConnectReplyMessage(visits) =>
      && (forall k :: k in n.states <==> exists i :: 0 <= i < |visits| && visits[i].key == k)
      && (forall i :: 0 <= i < |visits| ==> Visits(visits[i].order, StateOf(n, visits[i].key).offers.Keys))
    case RequestMessage(c, _, _, _) => c in n.connections
    case OfferMessage(c, key, offered, order, _) =>
      c in n.connections && (offered ==> Visits(order, StateOf(n, key).offers.Keys + {c}))
    case SubscribeMessage(c, _, _, _) => c in n.connections
    case ConnectServiceMessage(c, _, _, _) => c in n.connections
    case ConnectServiceReplyMessage(c, required, _) =>
      c in n.connections && exists i :: 0 <= i < |n.sent| && n.sent[i].client == c && n.sent[i].required == required
    case ServerConnectorEnabled(_) => true
    case ServiceStateChange(key, _) => key in n.bridged
    case LocalRequest(key, inUse, order, _) => inUse ==> Visits(order, StateOf(n, key).offers.Keys)
  }
}
