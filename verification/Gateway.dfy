/** The binding as an object: its tables, and the handlers that change them under the mutex (binding_base.cpp,
    service_state.hpp, pending_connects.hpp). Each handler takes the step of the model of that name. */
module Gateway {
  import opened Prelude
  import opened ConnectionMetadata
  import opened EventSubscriptions
  import B = Binding
  import BindingSafety

  /** The entries a clearing of the pending connects leaves. */
  ghost function Without(pending: map<Handle, B.Pending>, cleared: B.Pending -> bool): map<Handle, B.Pending> {
    map h | h in pending && !cleared(pending[h]) :: pending[h]
  }

  /** The visits are to exactly these keys. */
  ghost predicate Covers(visits: seq<B.Visit>, keys: set<Key>) {
    forall k :: k in keys <==> exists i :: 0 <= i < |visits| && visits[i].key == k
  }

  lemma CoversPush(visits: seq<B.Visit>, v: B.Visit, keys: set<Key>)
    requires Covers(visits, keys)
    ensures Covers(visits + [v], keys + {v.key})
  {
    var all := visits + [v];
    forall k ensures k in keys + {v.key} <==> exists i :: 0 <= i < |all| && all[i].key == k {
      if k == v.key {
        assert all[|visits|].key == k;
      } else if k in keys {
        var i :| 0 <= i < |visits| && visits[i].key == k;
        assert all[i].key == k;
      }
    }
  }

  /** Each visit lists the offers of its key. */
  ghost predicate OrdersOk(visits: seq<B.Visit>, n: B.Node) {
    forall i :: 0 <= i < |visits| ==> B.Visits(visits[i].order, B.StateOf(n, visits[i].key).offers.Keys)
  }

  lemma VisitsPush(order: seq<Client>, c: Client, cs: set<Client>)
    requires B.Visits(order, cs) && c !in cs
    ensures B.Visits(order + [c], cs + {c})
  {
  }

  lemma SendConnectPush(n: B.Node, key: Key, order: seq<Client>, c: Client, ok: set<Client>)
    requires B.StateOf(n, key).requested
    ensures B.SendConnect(n, key, order + [c], ok) == B.SendOne(B.SendConnect(n, key, order, ok), key, c, c in ok)
  {
    assert (order + [c])[..|order|] == order;
  }

  /** Sending touches only the offers of the key, and no offer comes or goes. */
  lemma {:induction false} SendConnectKeepsKeys(n: B.Node, key: Key, order: seq<Client>, ok: set<Client>)
    requires key in n.states
    ensures var m := B.SendConnect(n, key, order, ok);
            && m.states.Keys == n.states.Keys && m.states[key].offers.Keys == n.states[key].offers.Keys
            && forall k :: k in n.states && k != key ==> m.states[k] == n.states[k]
  {
    if order != [] {
      SendConnectKeepsKeys(n, key, order[..|order| - 1], ok);
    }
  }

  lemma SendConnectsPush(n: B.Node, visits: seq<B.Visit>, v: B.Visit)
    ensures B.SendConnects(n, visits + [v]) == B.SendConnect(B.SendConnects(n, visits), v.key, v.order, v.ok)
  {
    assert (visits + [v])[..|visits|] == visits;
  }

  /** What every step of the binding keeps: all clients named are connected, and the handshake invariant. */
  ghost predicate Safe(n: B.Node) {
    BindingSafety.AllConnected(n) && BindingSafety.Handshake(n)
  }

  lemma SafeStep(n: B.Node, op: B.Op)
    requires Safe(n) && B.Enabled(n, op)
    ensures Safe(B.Step(n, op))
  {
    BindingSafety.StepKeepsConnected(n, op);
    BindingSafety.StepKeepsHandshake(n, op);
  }

  /** The messages whose handlers change the tables. */
  datatype Message =
    | ConnectReply(status: bool)
    | RequestService(key: Key, inUse: bool)
    | OfferService(key: Key, offered: bool)
    | SubscribeEvent(provided: Handle, event: Event, subscribe: bool)
    | ConnectService(key: Key, required: Handle, inUse: bool)
    | ConnectServiceReply(required: Handle, provided: Handle)

  /** The step a message stands for, whatever order its handler visits offers in. */
  predicate Means(c: Client, m: Message, op: B.Op) {
    match m
    case ConnectReply(_) => op.ConnectReplyMessage?
    case RequestService(key, inUse) => op.RequestMessage? && op.client == c && op.key == key && op.inUse == inUse
    case OfferService(key, offered) => op.OfferMessage? && op.client == c && op.key == key && op.offered == offered
    case SubscribeEvent(provided, event, subscribe) => op == B.SubscribeMessage(c, provided, event, subscribe)
    case ConnectService(key, required, inUse) => op == B.ConnectServiceMessage(c, key, required, inUse)
    case ConnectServiceReply(required, provided) => op == B.ConnectServiceReplyMessage(c, required, provided)
  }

  /** A reply answers a Connect_service that was sent to the client. */
  ghost predicate Answers(n: B.Node, c: Client, m: Message) {
    m.ConnectServiceReply? ==>
      exists i :: 0 <= i < |n.sent| && n.sent[i].client == c && n.sent[i].required == m.required
  }

  class GatewayIpcBinding {
    var connections: set<Client>
    var states: map<Key, B.ServiceState>
    var pending: map<Handle, B.Pending>
    const mapping: Connections
    var interested: map<Key, set<Client>>
    var localOffers: map<Key, bool>
    var next: Handle
    var sent: seq<B.Sent>
    ghost var bridged: set<Key>
    ghost var accepted: set<Handle>

    ghost predicate Valid()
      reads this, mapping
    {
      mapping.Valid()
    }

    ghost function Value(): B.Node
      reads this, mapping
    {
      B.Node(connections, states, pending, mapping.idToKey, interested, localOffers, next, bridged, sent, accepted)
    }

    constructor ()
      ensures Valid() && Value() == B.INIT && fresh(mapping)
    {
      connections, states, pending, interested, localOffers := {}, map[], map[], map[], map[];
      next, sent, bridged, accepted := 1, [], {}, {};
      mapping := new Connections();
    }

    method StateOf(key: Key) returns (s: B.ServiceState)
      ensures s == B.StateOf(Value(), key)
    {
      s := if key in states then states[key] else B.NEW_STATE;
    }

    // Loops over the tables.

    /** Pending_connects::clear_pending_connects. */
    method ClearPending(cleared: B.Pending -> bool)
      modifies this`pending
      ensures pending == Without(old(pending), cleared)
    {
      var todo := pending.Keys;
      while todo != {}
        invariant todo <= pending.Keys <= old(pending).Keys
        invariant forall h :: h in pending ==> pending[h] == old(pending)[h]
        invariant forall h :: h in old(pending) && h !in todo ==> (h in pending <==> !cleared(old(pending)[h]))
        decreases todo
      {
        var h :| h in todo;
        todo := todo - {h};
        if cleared(pending[h]) {
          pending := pending - {h};
        }
      }
    }

    method ClearPendingForKey(key: Key, c: Client)
      modifies this`pending
      ensures pending == B.ClearPendingOf(old(pending), key, c)
    {
      ClearPending((p: B.Pending) => p.key == key && p.client == c);
    }

    /** Service_states::remove_event_subscriptions_for_client. */
    method RemoveEventSubscriptions(c: Client)
      modifies this`states
      ensures states == B.DropClientSubs(old(states), c)
    {
      var todo := states.Keys;
      while todo != {}
        invariant states.Keys == old(states).Keys && todo <= states.Keys
        invariant forall k :: k in todo ==> states[k] == old(states)[k]
        invariant forall k :: k in states && k !in todo ==>
                    states[k] == old(states)[k].(subs := After(old(states)[k].subs, DropClient(c)))
        decreases todo
      {
        var k :| k in todo;
        todo := todo - {k};
        states := states[k := states[k].(subs := After(states[k].subs, DropClient(c)))];
      }
    }

    /** Service_states::remove_offers: the last offer takes the server connector and the subscriptions with it. */
    method RemoveOffers(c: Client)
      modifies this`states
      ensures states == B.RemoveOffers(old(states), c)
    {
      var todo := states.Keys;
      while todo != {}
        invariant states.Keys == old(states).Keys && todo <= states.Keys
        invariant forall k :: k in todo ==> states[k] == old(states)[k]
        invariant forall k :: k in states && k !in todo ==> states[k] == B.WithoutOffer(old(states)[k], c)
        decreases todo
      {
        var k :| k in todo;
        todo := todo - {k};
        var s := states[k];
        if c in s.offers {
          s := s.(offers := s.offers - {c});
          if s.offers == map[] {
            s := s.(subs := map[], enabledConnector := false);
          }
          states := states[k := s];
        }
      }
    }

    /** The erase loop of remove_client_state_locked. */
    method LoseInterest(c: Client)
      modifies this`interested
      ensures interested == B.Disinterest(old(interested), c)
    {
      var todo := interested.Keys;
      while todo != {}
        invariant todo <= interested.Keys <= old(interested).Keys
        invariant forall k :: k in todo ==> interested[k] == old(interested)[k]
        invariant forall k :: k in old(interested) && k !in todo ==>
                    (k in interested <==> old(interested)[k] - {c} != {})
        invariant forall k :: k in interested && k !in todo ==> interested[k] == old(interested)[k] - {c}
        decreases todo
      {
        var k :| k in todo;
        todo := todo - {k};
        var peers := interested[k] - {c};
        if peers == {} {
          interested := interested - {k};
        } else {
          interested := interested[k := peers];
        }
      }
    }

    // Connect_service.

    /** The body of the loop in Service_state::send_connect_service, for one offer. */
    method SendOne(key: Key, c: Client, ok: bool)
      requires Valid() && key in states && c in states[key].offers
      modifies this`next, this`pending, this`states, this`sent
      ensures Valid() && Value() == B.SendOne(old(Value()), key, c, ok)
    {
      var offer := states[key].offers[c];
      if offer.offered && !offer.connectSent {
        if offer.required == 0 {
          offer := offer.(required := next);
          next := next + 1;
        }
        if offer.required !in pending {
          pending := pending[offer.required := B.Pending(key, c)];
        }
        if ok {
          sent := sent + [B.Sent(c, key, offer.required)];
        }
        states := states[key := states[key].(offers := states[key].offers[c := offer.(connectSent := ok)])];
      }
    }

    /** maybe_send_connect_service_locked. `ok` are the clients to which a send succeeds; the map is visited in
        some order. */
    method SendConnect(key: Key, ok: set<Client>) returns (order: seq<Client>)
      requires Valid() && key in states
      modifies this`next, this`pending, this`states, this`sent
      ensures Valid() && B.Visits(order, old(states)[key].offers.Keys)
      ensures Value() == B.SendConnect(old(Value()), key, order, ok)
      ensures states.Keys == old(states).Keys && forall k :: k in states && k != key ==> states[k] == old(states)[k]
    {
      order := SomeOrder(states[key].offers.Keys);
      if !states[key].requested {
        return;
      }
      assert order[..0] == [];
      for i := 0 to |order|
        invariant Valid() && Value() == B.SendConnect(old(Value()), key, order[..i], ok)
      {
        SendConnectKeepsKeys(old(Value()), key, order[..i], ok);
        SendOne(key, order[i], order[i] in ok);
        SendConnectPush(old(Value()), key, order[..i], order[i], ok);
        assert order[..i + 1] == order[..i] + [order[i]];
      }
      assert order[..|order|] == order;
      SendConnectKeepsKeys(old(Value()), key, order, ok);
    }

    // The handlers.

    method AddClient(c: Client)
      requires Valid() && c !in connections
      modifies this`connections
      ensures Valid() && Value() == B.Step(old(Value()), B.AddClient(c))
      ensures Safe(old(Value())) ==> Safe(Value())
    {
      ghost var before := Value();
      connections := connections + {c};
      if Safe(before) { SafeStep(before, B.AddClient(c)); }
    }

    method RemoveClient(c: Client)
      requires Valid()
      modifies this, mapping
      ensures Valid() && Value() == B.Step(old(Value()), B.DropPeer(c))
      ensures Safe(old(Value())) ==> Safe(Value())
    {
      ghost var before := Value();
      connections := connections - {c};
      RemoveClientState(c);
      if Safe(before) { SafeStep(before, B.DropPeer(c)); }
    }

    /** remove_client_state_locked. */
    method RemoveClientState(c: Client)
      requires Valid()
      modifies this, mapping
      ensures Valid() && connections == old(connections)
      ensures Value() == B.RemovePeer(old(Value()), c).(connections := connections)
    {
      RemoveEventSubscriptions(c);
      RemoveOffers(c);
      LoseInterest(c);
      mapping.Remove(c);
      ClearPending((p: B.Pending) => p.client == c);
    }

    /** handle_connect_reply_message with a positive status: every service tries its offers again. */
    method HandleConnectReply(ok: set<Client>) returns (ghost visits: seq<B.Visit>)
      requires Valid()
      modifies this
      ensures Valid() && Value() == B.Step(old(Value()), B.ConnectReplyMessage(visits))
      ensures B.Enabled(old(Value()), B.ConnectReplyMessage(visits))
    {
      visits := [];
      var todo := states.Keys;
      while todo != {}
        invariant Valid() && mapping.idToKey == old(mapping.idToKey) && todo <= states.Keys == old(states).Keys
        invariant forall k :: k in todo ==> states[k] == old(states)[k]
        invariant Covers(visits, old(states).Keys - todo)
        invariant OrdersOk(visits, old(Value()))
        invariant Value() == B.SendConnects(old(Value()), visits)
        decreases todo
      {
        var k :| k in todo;
        ghost var visited := old(states).Keys - todo;
        todo := todo - {k};
        var order := SendConnect(k, ok);
        CoversPush(visits, B.Visit(k, order, ok), visited);
        SendConnectsPush(old(Value()), visits, B.Visit(k, order, ok));
        assert visited + {k} == old(states).Keys - todo;
        visits := visits + [B.Visit(k, order, ok)];
      }
      assert old(states).Keys - todo == old(states).Keys;
    }

    method RequestWithdrawn(c: Client, key: Key)
      requires Valid()
      modifies this, mapping
      ensures Valid() && Value() == B.HandleRequest(old(Value()), c, key, false, false)
    {
      RemoveEventSubscriptions(c);
      mapping.RemoveMappingForClientAndKey(c, key);
      ClearPendingForKey(key, c);
      var peers := if key in interested then interested[key] else {};
      interested := interested[key := peers - {c}];
    }

    method RequestMade(c: Client, key: Key, created: bool)
      requires Valid()
      modifies this
      ensures Valid() && Value() == B.HandleRequest(old(Value()), c, key, true, created)
    {
      var peers := if key in interested then interested[key] else {};
      interested := interested[key := peers + {c}];
      if key in localOffers && localOffers[key] {
        return;
      }
      var s := StateOf(key);
      if s.clientConnectorPending || s.clientConnector || s.enabledConnector || s.requested {
        return;
      }
      CreateClientConnector(key, created);
    }

    /** The state is marked pending while the runtime makes the connector. */
    method CreateClientConnector(key: Key, created: bool)
      requires Valid()
      modifies this`states, this`bridged
      ensures Valid() && bridged == old(bridged) + {key}
      ensures states == old(states)[key := B.StateOf(old(Value()), key)
                                            .(clientConnector := created, clientConnectorPending := false)]
    {
      var s := StateOf(key);
      states := states[key := s.(clientConnectorPending := true)];
      bridged := bridged + {key};
      states := states[key := states[key].(clientConnector := created, clientConnectorPending := false)];
    }

    /** `created` says whether the runtime made the client connector. */
    method HandleRequestService(c: Client, key: Key, inUse: bool, created: bool)
      requires Valid()
      modifies this, mapping
      ensures Valid() && Value() == B.Step(old(Value()), B.RequestMessage(c, key, inUse, created))
    {
      if !inUse {
        RequestWithdrawn(c, key);
        return;
      }
      RequestMade(c, key, created);
    }

    method OfferWithdrawn(c: Client, key: Key)
      requires Valid()
      modifies this, mapping
      ensures Valid() && Value() == B.HandleOffer(old(Value()), c, key, false, [], {})
    {
      DropOffer(c, key);
      mapping.RemoveAllOf(key);
      ClearPendingForKey(key, c);
    }

    /** process_offer for a withdrawn offer, and clear_event_subscriptions. */
    method DropOffer(c: Client, key: Key)
      modifies this`states
      ensures var s := B.StateOf(old(Value()), key);
              states == old(states)[key := s.(offers := s.offers - {c}, enabledConnector := false, subs := map[])]
    {
      var s := StateOf(key);
      states := states[key := s.(offers := s.offers - {c}, enabledConnector := false)];
      states := states[key := states[key].(subs := map[])];
    }

    method OfferMade(c: Client, key: Key, ok: set<Client>) returns (order: seq<Client>)
      requires Valid()
      modifies this
      ensures Valid() && Value() == B.HandleOffer(old(Value()), c, key, true, order, ok)
      ensures B.Visits(order, B.StateOf(old(Value()), key).offers.Keys + {c})
    {
      var s := StateOf(key);
      var offer := if c in s.offers then s.offers[c] else B.Offer(false, false, 0);
      states := states[key := s.(offers := s.offers[c := offer.(offered := true)])];
      assert states[key].offers.Keys == s.offers.Keys + {c};
      order := SendConnect(key, ok);
    }

    method HandleOfferService(c: Client, key: Key, offered: bool, ok: set<Client>) returns (order: seq<Client>)
      requires Valid()
      modifies this, mapping
      ensures Valid() && Value() == B.Step(old(Value()), B.OfferMessage(c, key, offered, order, ok))
      ensures offered ==> B.Visits(order, B.StateOf(old(Value()), key).offers.Keys + {c})
    {
      if !offered {
        OfferWithdrawn(c, key);
        order := [];
        return;
      }
      order := OfferMade(c, key, ok);
    }

    method HandleSubscribeEvent(c: Client, provided: Handle, event: Event, subscribe: bool)
      requires Valid()
      modifies this`states
      ensures Valid() && Value() == B.Step(old(Value()), B.SubscribeMessage(c, provided, event, subscribe))
    {
      var found := mapping.GetByLocalHandle(c, provided);
      if found.Some? && found.value.key in states {
        var s := states[found.value.key];
        var p := Endpoint(c, provided);
        var op := if subscribe then AddSubscriber(p, event) else RemoveSubscriber(p, event);
        states := states[found.value.key := s.(subs := After(s.subs, op))];
      }
    }

    method ConnectionClosed(c: Client, key: Key, required: Handle)
      requires Valid()
      modifies this, mapping
      ensures Valid() && Value() == B.HandleConnectService(old(Value()), c, key, required, false)
    {
      var found := mapping.GetByRemoteHandle(c, required);
      if found.Some? && key in states {
        var s := states[key];
        states := states[key := s.(subs := After(s.subs, DropConnection(Endpoint(c, found.value.local))))];
      }
      mapping.RemoveMappingOf(c, required);
      ClearPendingForKey(key, c);
      if key in states {
        states := states[key := states[key].(clientConnector := false, clientConnectorPending := false)];
      }
    }

    method HandleConnectService(c: Client, key: Key, required: Handle, inUse: bool)
      requires Valid()
      modifies this, mapping
      ensures Valid() && Value() == B.Step(old(Value()), B.ConnectServiceMessage(c, key, required, inUse))
    {
      if !inUse {
        ConnectionClosed(c, key, required);
        return;
      }
      var local := next;
      next := next + 1;
      mapping.AddMapping(c, Ids(key, local, required, Provider));
    }

    method HandleConnectServiceReply(c: Client, required: Handle, provided: Handle)
      requires Valid()
      modifies this, mapping
      ensures Valid() && Value() == B.Step(old(Value()), B.ConnectServiceReplyMessage(c, required, provided))
    {
      if required !in pending || pending[required].client != c {
        return;
      }
      var key := pending[required].key;
      if key in states {
        mapping.AddMapping(c, Ids(key, provided, required, Consumer));
        accepted := accepted + {required};
      }
      pending := pending - {required};
    }

    /** on_receive_message: takes the step the message stands for. A negative Connect_reply does nothing. */
    method OnReceiveMessage(c: Client, m: Message, ok: set<Client>, created: bool) returns (ghost op: B.Op)
      requires Valid() && c in connections && Answers(Value(), c, m)
      modifies this, mapping
      ensures Valid() && (Safe(old(Value())) ==> Safe(Value()))
      ensures m != ConnectReply(false) ==>
                Means(c, m, op) && B.Enabled(old(Value()), op) && Value() == B.Step(old(Value()), op)
      ensures m == ConnectReply(false) ==> Value() == old(Value())
    {
      ghost var before := Value();
      op := Receive(c, m, ok, created);
      if Safe(before) && m != ConnectReply(false) { SafeStep(before, op); }
    }

    method Receive(c: Client, m: Message, ok: set<Client>, created: bool) returns (ghost op: B.Op)
      requires Valid() && c in connections && Answers(Value(), c, m)
      modifies this, mapping
      ensures Valid()
      ensures m != ConnectReply(false) ==>
                Means(c, m, op) && B.Enabled(old(Value()), op) && Value() == B.Step(old(Value()), op)
      ensures m == ConnectReply(false) ==> Value() == old(Value())
    {
      match m
      case ConnectReply(status) =>
        op := B.ConnectReplyMessage([]);
        if status {
          ghost var visits := HandleConnectReply(ok);
          op := B.ConnectReplyMessage(visits);
        }
      case RequestService(key, inUse) =>
        HandleRequestService(c, key, inUse, created);
        op := B.RequestMessage(c, key, inUse, created);
      case OfferService(key, offered) =>
        var order := HandleOfferService(c, key, offered, ok);
        op := B.OfferMessage(c, key, offered, order, ok);
      case SubscribeEvent(provided, event, subscribe) =>
        HandleSubscribeEvent(c, provided, event, subscribe);
        op := B.SubscribeMessage(c, provided, event, subscribe);
      case ConnectService(key, required, inUse) =>
        HandleConnectService(c, key, required, inUse);
        op := B.ConnectServiceMessage(c, key, required, inUse);
      case ConnectServiceReply(required, provided) =>
        HandleConnectServiceReply(c, required, provided);
        op := B.ConnectServiceReplyMessage(c, required, provided);
    }

    method ServerConnectorEnabled(key: Key)
      requires Valid()
      modifies this`states
      ensures Valid() && Value() == B.Step(old(Value()), B.ServerConnectorEnabled(key))
      ensures Safe(old(Value())) ==> Safe(Value())
    {
      ghost var before := Value();
      if key in states {
        states := states[key := states[key].(enabledConnector := true)];
      }
      if Safe(before) { SafeStep(before, B.ServerConnectorEnabled(key)); }
    }

    /** The service state callback of a client connector this binding made. */
    method ServiceStateChange(key: Key, available: bool)
      requires Valid()
      modifies this, mapping
      ensures Valid() && Value() == B.Step(old(Value()), B.ServiceStateChange(key, available))
      ensures Safe(old(Value())) && key in old(bridged) ==> Safe(Value())
    {
      ghost var before := Value();
      ChangeServiceState(key, available);
      if Safe(before) && key in before.bridged { SafeStep(before, B.ServiceStateChange(key, available)); }
    }

    method ChangeServiceState(key: Key, available: bool)
      requires Valid()
      modifies this, mapping
      ensures Valid() && Value() == B.ChangeServiceState(old(Value()), key, available)
    {
      if !available {
        mapping.RemoveAllOf(key);
      }
      localOffers := localOffers[key := available];
      var s := StateOf(key);
      states := states[key := s.(requested := true)];
    }

    /** send_request_service: a local consumer asks for a service, or gives it up. */
    method SendRequestService(key: Key, inUse: bool, ok: set<Client>) returns (order: seq<Client>)
      requires Valid()
      modifies this, mapping
      ensures Valid() && Value() == B.Step(old(Value()), B.LocalRequest(key, inUse, order, ok))
      ensures inUse ==> B.Visits(order, B.StateOf(old(Value()), key).offers.Keys)
      ensures Safe(old(Value())) ==> Safe(Value())
    {
      ghost var before := Value();
      order := RequestLocally(key, inUse, ok);
      if Safe(before) { SafeStep(before, B.LocalRequest(key, inUse, order, ok)); }
    }

    method RequestLocally(key: Key, inUse: bool, ok: set<Client>) returns (order: seq<Client>)
      requires Valid()
      modifies this, mapping
      ensures Valid() && Value() == B.Step(old(Value()), B.LocalRequest(key, inUse, order, ok))
      ensures inUse ==> B.Visits(order, B.StateOf(old(Value()), key).offers.Keys)
    {
      var s := StateOf(key);
      order := SomeOrder(s.offers.Keys);
      if s.clientConnectorPending || s.clientConnector {
        return;
      }
      if !inUse {
        ReleaseLocally(key);
        return;
      }
      states := states[key := s.(requested := true)];
      order := SendConnect(key, ok);
    }

    method ReleaseLocally(key: Key)
      requires Valid()
      modifies this, mapping
      ensures Valid()
      ensures Value() == old(Value()).(states := old(states) - {key}, table := RemoveService(old(mapping.idToKey), key),
                                       pending := B.ClearPendingForKey(old(pending), key))
    {
      states := states - {key};
      mapping.RemoveAllOf(key);
      ClearPending((p: B.Pending) => p.key == key);
    }
  }

  /** The elements of a set, once each. */
  method SomeOrder(cs: set<Client>) returns (order: seq<Client>)
    ensures B.Visits(order, cs)
  {
    order := [];
    var todo := cs;
    while todo != {}
      invariant todo <= cs && B.Visits(order, cs - todo)
      decreases todo
    {
      var c :| c in todo;
      VisitsPush(order, c, cs - todo);
      assert cs - (todo - {c}) == cs - todo + {c};
      order := order + [c];
      todo := todo - {c};
    }
    assert cs - todo == cs;
  }
}
