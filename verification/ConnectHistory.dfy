/** What the handlers leave alone: the other peers when one is removed, the order of the mappings, and the
    Connect_service messages that wait for a reply (binding_base.cpp, pending_connects.hpp). */
module ConnectHistory {
  import opened Prelude
  import opened ConnectionMetadata
  import opened EventSubscriptions
  import opened Binding
  import opened BindingSafety
  import opened SubscriptionRuns
  import opened BindingHistory

  // The other peers.

  /** The client a fact is about, if it is about one. */
  function PeerOf(f: Fact): Option<Client> {
    match f
    case Connected(c) => Some(c)
    case Interested(_, c) => Some(c)
    case Offered(_, c) => Some(c)
    case Asked(_, c) => Some(c)
    case Awaited(_, c, _) => Some(c)
    case Mapped(c, _) => Some(c)
    case Subscribed(_, _, p) => Some(p.client)
    case _ => None
  }

  lemma RemovalIsListed(n: Node, c: Client, f: Fact)
    requires PeerOf(f) != Some(c)
    ensures !Puts(n, DropPeer(c), f)
    ensures Takes(n, DropPeer(c), f) <==> (f.Subscribed? || f.HasServer?) && LastOfferGoes(n, DropPeer(c), f.key)
  {
  }

  /** Removing a peer takes nothing from the others, except that the last offer of a service takes its server connector
      and its subscriptions along. */
  lemma RemovedPeerLeavesOthers(n: Node, c: Client, f: Fact)
    requires Handshake(n) && PeerOf(f) != Some(c) && (f.Subscribed? ==> NoEmptySet(SubsOf(n, f.key)))
    ensures Holds(RemovePeer(n, c), f) <==>
            Holds(n, f) && !((f.Subscribed? || f.HasServer?) && LastOfferGoes(n, DropPeer(c), f.key))
  {
    RemovalIsListed(n, c, f);
    StepChangesAsListed(n, DropPeer(c), f);
  }

  /** The offers and the mappings of the others are the very same. */
  lemma RemovedPeerLeavesEntries(n: Node, c: Client, d: Client, k: Key)
    requires d != c
    ensures EntriesOf(RemovePeer(n, c).table, d) == EntriesOf(n.table, d)
    ensures OfferAt(RemovePeer(n, c), k, d) == OfferAt(n, k, d)
  {
    RemovePeerOffersOnly(n, c);
  }

  // The order of the mappings.

  /** The mappings of a client that the step does not take out, in their order. */
  ghost function Kept(n: Node, op: Binding.Op, c: Client, v: seq<Ids>): seq<Ids> {
    if v == [] then []
    else (if Takes(n, op, Mapped(c, v[0])) then [] else [v[0]]) + Kept(n, op, c, v[1..])
  }

  lemma {:induction false} KeptIsWithoutKey(n: Node, op: Binding.Op, c: Client, v: seq<Ids>, key: Key)
    requires forall e :: e in v ==> (Takes(n, op, Mapped(c, e)) <==> e.key == key)
    ensures Kept(n, op, c, v) == WithoutKey(v, key)
  {
    if v != [] {
      assert v[0] in v && forall e :: e in v[1..] ==> e in v;
      KeptIsWithoutKey(n, op, c, v[1..], key);
    }
  }

  lemma {:induction false} KeptIsWithoutRemote(n: Node, op: Binding.Op, c: Client, v: seq<Ids>, remote: Handle)
    requires forall e :: e in v ==> (Takes(n, op, Mapped(c, e)) <==> e.remote == remote)
    ensures Kept(n, op, c, v) == WithoutRemote(v, remote)
  {
    if v != [] {
      assert v[0] in v && forall e :: e in v[1..] ==> e in v;
      KeptIsWithoutRemote(n, op, c, v[1..], remote);
    }
  }

  lemma {:induction false} KeptIsAll(n: Node, op: Binding.Op, c: Client, v: seq<Ids>)
    requires forall e :: e in v ==> !Takes(n, op, Mapped(c, e))
    ensures Kept(n, op, c, v) == v
  {
    if v != [] {
      assert v[0] in v && forall e :: e in v[1..] ==> e in v;
      KeptIsAll(n, op, c, v[1..]);
    }
  }

  lemma {:induction false} KeptIsNone(n: Node, op: Binding.Op, c: Client, v: seq<Ids>)
    requires forall e :: e in v ==> Takes(n, op, Mapped(c, e))
    ensures Kept(n, op, c, v) == []
  {
    if v != [] {
      assert v[0] in v && forall e :: e in v[1..] ==> e in v;
      KeptIsNone(n, op, c, v[1..]);
    }
  }

  lemma PutIsSame(t: Table, c: Client, v: seq<Ids>, d: Client)
    ensures EntriesOf(ConnectionMetadata.Put(t, c, v), d) == if d == c then v else EntriesOf(t, d)
  {
  }

  lemma RemoveServiceAt(t: Table, key: Key, c: Client)
    ensures EntriesOf(RemoveService(t, key), c) == WithoutKey(EntriesOf(t, c), key)
  {
  }

  /** The mapping a step makes for a client. */
  ghost predicate Makes(n: Node, op: Binding.Op, c: Client, made: seq<Ids>) {
    (made == [] && forall e :: !Puts(n, op, Mapped(c, e))) ||
    (|made| == 1 && forall e :: Puts(n, op, Mapped(c, e)) <==> e == made[0])
  }

  ghost predicate InOrder(n: Node, op: Binding.Op, c: Client, made: seq<Ids>) {
    EntriesOf(Step(n, op).table, c) == Kept(n, op, c, EntriesOf(n.table, c)) + made
  }

  /** Some mappings of the service are taken out, whoever owns them. */
  predicate DropsService(n: Node, op: Binding.Op, key: Key) {
    (op.OfferMessage? && op.key == key && !op.offered) || op == ServiceStateChange(key, false) || Forgets(n, op, key)
  }

  lemma ServiceIsDropped(n: Node, op: Binding.Op, key: Key, c: Client)
    requires DropsService(n, op, key)
    ensures Makes(n, op, c, []) && InOrder(n, op, c, [])
  {
    var v := EntriesOf(n.table, c);
    assert Step(n, op).table == RemoveService(n.table, key);
    RemoveServiceAt(n.table, key, c);
    KeptIsWithoutKey(n, op, c, v, key);
    assert WithoutKey(v, key) + [] == WithoutKey(v, key);
  }

  /** The step leaves the mappings of the client alone. */
  lemma MappingsStay(n: Node, op: Binding.Op, c: Client)
    requires EntriesOf(Step(n, op).table, c) == EntriesOf(n.table, c)
    requires forall e :: e in EntriesOf(n.table, c) ==> !Takes(n, op, Mapped(c, e))
    ensures InOrder(n, op, c, [])
  {
    var v := EntriesOf(n.table, c);
    KeptIsAll(n, op, c, v);
    assert v + [] == v;
  }

  lemma SendingKeepsMappings(n: Node, op: Binding.Op, c: Client)
    requires Handshake(n) && IsSending(n, op)
    ensures Makes(n, op, c, []) && InOrder(n, op, c, [])
  {
    SendingSweeps(n, op);
    MappingsStay(n, op, c);
  }

  lemma RemovalKeepsOrder(n: Node, d: Client, c: Client)
    ensures Makes(n, DropPeer(d), c, []) && InOrder(n, DropPeer(d), c, [])
  {
    if d == c {
      KeptIsNone(n, DropPeer(d), c, EntriesOf(n.table, c));
    } else {
      MappingsStay(n, DropPeer(d), c);
    }
  }

  lemma RequestMappings(n: Node, d: Client, key: Key, inUse: bool, created: bool, c: Client)
    ensures EntriesOf(HandleRequest(n, d, key, inUse, created).table, c) ==
            if inUse || d != c then EntriesOf(n.table, c) else WithoutKey(EntriesOf(n.table, c), key)
  {
    if !inUse {
      PutIsSame(n.table, d, WithoutKey(EntriesOf(n.table, d), key), c);
    }
  }

  lemma RequestKeepsOrder(n: Node, d: Client, key: Key, inUse: bool, created: bool, c: Client)
    ensures var op := RequestMessage(d, key, inUse, created); Makes(n, op, c, []) && InOrder(n, op, c, [])
  {
    var op := RequestMessage(d, key, inUse, created);
    var v := EntriesOf(n.table, c);
    RequestMappings(n, d, key, inUse, created, c);
    if inUse || d != c {
      MappingsStay(n, op, c);
    } else {
      KeptIsWithoutKey(n, op, c, v, key);
      assert WithoutKey(v, key) + [] == WithoutKey(v, key);
    }
  }

  lemma ConnectKeepsOrder(n: Node, d: Client, key: Key, required: Handle, c: Client) returns (made: seq<Ids>)
    ensures var op := ConnectServiceMessage(d, key, required, true); Makes(n, op, c, made) && InOrder(n, op, c, made)
  {
    var op := ConnectServiceMessage(d, key, required, true);
    made := if d == c then [Ids(key, n.next, required, Provider)] else [];
    KeptIsAll(n, op, c, EntriesOf(n.table, c));
    assert EntriesOf(n.table, c) + [] == EntriesOf(n.table, c);
  }

  lemma DisconnectKeepsOrder(n: Node, d: Client, key: Key, required: Handle, c: Client)
    ensures var op := ConnectServiceMessage(d, key, required, false); Makes(n, op, c, []) && InOrder(n, op, c, [])
  {
    var op := ConnectServiceMessage(d, key, required, false);
    var v := EntriesOf(n.table, c);
    if d != c {
      MappingsStay(n, op, c);
    } else {
      PutIsSame(n.table, c, WithoutRemote(v, required), c);
      KeptIsWithoutRemote(n, op, c, v, required);
      assert WithoutRemote(v, required) + [] == WithoutRemote(v, required);
    }
  }

  lemma ReplyKeepsOrder(n: Node, d: Client, required: Handle, provided: Handle, c: Client) returns (made: seq<Ids>)
    ensures var op := ConnectServiceReplyMessage(d, required, provided);
            Makes(n, op, c, made) && InOrder(n, op, c, made)
  {
    var op := ConnectServiceReplyMessage(d, required, provided);
    var v := EntriesOf(n.table, c);
    KeptIsAll(n, op, c, v);
    assert v + [] == v;
    made := if d == c && required in n.pending && n.pending[required].client == c && n.pending[required].key in n.states
            then [Ids(n.pending[required].key, provided, required, Consumer)] else [];
  }

  /** Every handler keeps the mappings it does not take out in their order, and puts a new one at the end: which mapping
      a lookup finds first changes in no other way. */
  lemma MappingsKeepTheirOrder(n: Node, op: Binding.Op, c: Client) returns (made: seq<Ids>)
    requires Handshake(n)
    ensures Makes(n, op, c, made)
    ensures EntriesOf(Step(n, op).table, c) == Kept(n, op, c, EntriesOf(n.table, c)) + made
  {
    made := [];
    if IsSending(n, op) {
      SendingKeepsMappings(n, op, c);
    } else if op.OfferMessage? || op.ServiceStateChange? || op.LocalRequest? {
      if DropsService(n, op, op.key) {
        ServiceIsDropped(n, op, op.key, c);
      } else {
        MappingsStay(n, op, c);
      }
    } else if op.DropPeer? {
      RemovalKeepsOrder(n, op.client, c);
    } else if op.RequestMessage? {
      RequestKeepsOrder(n, op.client, op.key, op.inUse, op.created, c);
    } else if op.ConnectServiceMessage? {
      if op.inUse {
        made := ConnectKeepsOrder(n, op.client, op.key, op.required, c);
      } else {
        DisconnectKeepsOrder(n, op.client, op.key, op.required, c);
      }
    } else if op.ConnectServiceReplyMessage? {
      made := ReplyKeepsOrder(n, op.client, op.required, op.provided, c);
    } else {
      MappingsStay(n, op, c);
    }
  }

  // The handles this side gives to its connections.

  /** Two connections this side provides, with one handle. */
  predicate ShareAHandle(n: Node, c: Client, e: Ids, d: Client, f: Ids) {
    Holds(n, Mapped(c, e)) && Holds(n, Mapped(d, f)) && e.role == Provider && f.role == Provider && e.local == f.local
  }

  /** Handles given to connections are below the next one, and each names one connection of one client. */
  ghost predicate LocalHandlesOk(n: Node) {
    && (forall c: Client, e :: Holds(n, Mapped(c, e)) && e.role == Provider ==> e.local < n.next)
    && (forall c: Client, e, d: Client, f :: ShareAHandle(n, c, e, d, f) ==> c == d && e == f)
  }

  lemma ConnectingTakesAHandle(n: Node, op: Binding.Op, c: Client, e: Ids)
    requires Handshake(n) && Enabled(n, op) && e.role == Provider
    requires Holds(Step(n, op), Mapped(c, e)) && !Holds(n, Mapped(c, e))
    ensures op == ConnectServiceMessage(c, e.key, e.remote, true) && e.local == n.next && n.next < Step(n, op).next
  {
    StepChangesAsListed(n, op, Mapped(c, e));
  }

  lemma StepKeepsLocalHandles(n: Node, op: Binding.Op)
    requires Handshake(n) && Enabled(n, op) && LocalHandlesOk(n)
    ensures LocalHandlesOk(Step(n, op))
  {
    var m := Step(n, op);
    NextGrows(n, op);
    forall c: Client, e | Holds(m, Mapped(c, e)) && e.role == Provider ensures e.local < m.next {
      if !Holds(n, Mapped(c, e)) { ConnectingTakesAHandle(n, op, c, e); }
    }
    forall c: Client, e, d: Client, f | ShareAHandle(m, c, e, d, f) ensures c == d && e == f {
      if !Holds(n, Mapped(c, e)) { ConnectingTakesAHandle(n, op, c, e); }
      if !Holds(n, Mapped(d, f)) { ConnectingTakesAHandle(n, op, d, f); }
      if Holds(n, Mapped(c, e)) && Holds(n, Mapped(d, f)) { assert ShareAHandle(n, c, e, d, f); }
    }
  }

  /** In every run a handle this side gave to a connection names that connection and no other. */
  lemma {:induction false} LocalHandlesAreUnique(ops: seq<Binding.Op>, c: Client, e: Ids, d: Client, f: Ids)
    requires EnabledRun(INIT, ops) && e.role == Provider && f.role == Provider && e.local == f.local
    requires e in EntriesOf(Run(INIT, ops).table, c) && f in EntriesOf(Run(INIT, ops).table, d)
    ensures c == d && e == f
  {
    LocalHandlesAreOk(ops);
    assert ShareAHandle(Run(INIT, ops), c, e, d, f);
  }

  lemma {:induction false} LocalHandlesAreOk(ops: seq<Binding.Op>)
    requires EnabledRun(INIT, ops)
    ensures LocalHandlesOk(Run(INIT, ops))
  {
    if ops != [] {
      var before := ops[..|ops| - 1];
      LocalHandlesAreOk(before);
      HandshakeAlwaysHolds(before);
      StepKeepsLocalHandles(Run(INIT, before), ops[|ops| - 1]);
    }
  }

  // Connect_service messages that wait for a reply.

  lemma OffersStayOrGo(n: Node, op: Binding.Op, k: Key, c: Client)
    requires !IsSending(n, op) && OfferAt(Step(n, op), k, c).Some?
    ensures OfferAt(Step(n, op), k, c) == OfferAt(n, k, c)
  {
    match op
    case DropPeer(d) => RemovePeerOffersOnly(n, d);
    case RequestMessage(d, key, inUse, created) => RequestOffers(n, d, key, inUse, created);
    case OfferMessage(d, key, _, _, _) => WithdrawalOffers(n, d, key);
    case ConnectServiceMessage(d, key, required, inUse) => ConnectServiceOffers(n, d, key, required, inUse);
    case LocalRequest(key, _, _, _) => LocalReleaseOffers(n, key);
    case ConnectServiceReplyMessage(d, required, provided) => assert Step(n, op).states == n.states;
    case _ => QuietStepKeepsOffers(n, op);
  }

  /** An offer keeps its id; a new id is a fresh one. */
  lemma IdIsOldOrFresh(n: Node, op: Binding.Op, k: Key, c: Client, h: Handle)
    requires Handshake(n) && HasRequired(Step(n, op), k, c, h)
    ensures HasRequired(n, k, c, h) || n.next <= h
  {
    if IsSending(n, op) {
      SendingSweeps(n, op);
      PreparedOffer(n, op, k, c);
      assert SweptOffer(Prepared(n, op), Step(n, op), k, c, (k, c) in OffersVisited(op), (k, c) in Successful(op));
    } else {
      OffersStayOrGo(n, op, k, c);
    }
  }

  /** An offer that was asked keeps its id as long as it stands. */
  lemma AskedKeepsItsId(n: Node, op: Binding.Op, k: Key, c: Client, h: Handle)
    requires Handshake(n) && Holds(n, Asked(k, c)) && HasRequired(Step(n, op), k, c, h)
    ensures HasRequired(n, k, c, h)
  {
    if IsSending(n, op) {
      SendingSweeps(n, op);
      PreparedOffer(n, op, k, c);
      assert SweptOffer(Prepared(n, op), Step(n, op), k, c, (k, c) in OffersVisited(op), (k, c) in Successful(op));
    } else {
      OffersStayOrGo(n, op, k, c);
    }
  }

  lemma NextGrows(n: Node, op: Binding.Op)
    requires Handshake(n)
    ensures n.next <= Step(n, op).next
  {
    if IsSending(n, op) {
      SendingSweeps(n, op);
    }
  }

  lemma AskedStays(n: Node, op: Binding.Op, k: Key, c: Client)
    requires Handshake(n) && Enabled(n, op) && Holds(n, Asked(k, c)) && Holds(Step(n, op), Offered(k, c))
    ensures Holds(Step(n, op), Asked(k, c))
  {
    StepChangesAsListed(n, op, Asked(k, c));
    StepChangesAsListed(n, op, Offered(k, c));
  }

  /** At time `t` the offer has the id and its Connect_service was sent. */
  ghost predicate SentAs(ops: seq<Binding.Op>, t: nat, k: Key, c: Client, h: Handle)
    requires t <= |ops|
  {
    Holds(NodeAt(ops, t), Asked(k, c)) && HasRequired(NodeAt(ops, t), k, c, h)
  }

  lemma {:induction false} IdsAreBelowNext(ops: seq<Binding.Op>, i: nat, t: nat, k: Key, c: Client, h: Handle)
    requires EnabledRun(INIT, ops) && i <= t <= |ops| && HasRequired(NodeAt(ops, i), k, c, h)
    ensures h < NodeAt(ops, t).next
    decreases t
  {
    NodesAreSound(ops, i);
    assert OfferOk(NodeAt(ops, i), OfferAt(NodeAt(ops, i), k, c).value);
    if i < t {
      IdsAreBelowNext(ops, i, t - 1, k, c, h);
      NodesAreSound(ops, t - 1);
      NextGrows(NodeAt(ops, t - 1), ops[t - 1]);
    }
  }

  lemma OldIdIsKept(n: Node, op: Binding.Op, k: Key, c: Client, h: Handle)
    requires Handshake(n) && h < n.next && HasRequired(Step(n, op), k, c, h)
    ensures HasRequired(n, k, c, h)
  {
    IdIsOldOrFresh(n, op, k, c, h);
  }

  /** Ids are not used again: an offer that has an old id had it before. */
  lemma HadTheId(ops: seq<Binding.Op>, i: nat, t: nat, k: Key, c: Client, h: Handle)
    requires EnabledRun(INIT, ops) && i < t <= |ops|
    requires HasRequired(NodeAt(ops, i), k, c, h) && HasRequired(NodeAt(ops, t), k, c, h)
    ensures HasRequired(NodeAt(ops, t - 1), k, c, h)
  {
    IdsAreBelowNext(ops, i, t - 1, k, c, h);
    NodesAreSound(ops, t - 1);
    OldIdIsKept(NodeAt(ops, t - 1), ops[t - 1], k, c, h);
  }

  lemma SentNext(ops: seq<Binding.Op>, t: nat, k: Key, c: Client, h: Handle)
    requires EnabledRun(INIT, ops) && t < |ops| && SentAs(ops, t, k, c, h) && HasRequired(NodeAt(ops, t + 1), k, c, h)
    ensures SentAs(ops, t + 1, k, c, h)
  {
    NodesAreSound(ops, t);
    AskedStays(NodeAt(ops, t), ops[t], k, c);
  }

  /** An offer that has the id later had it all along, and stays sent. */
  lemma {:induction false} SentStaysSent(ops: seq<Binding.Op>, i: nat, t: nat, k: Key, c: Client, h: Handle)
    requires EnabledRun(INIT, ops) && i <= t <= |ops| && SentAs(ops, i, k, c, h) && HasRequired(NodeAt(ops, t), k, c, h)
    ensures SentAs(ops, t, k, c, h)
    decreases t
  {
    if i < t {
      HadTheId(ops, i, t, k, c, h);
      SentStaysSent(ops, i, t - 1, k, c, h);
      SentNext(ops, t - 1, k, c, h);
    }
  }

  /** The peer loses interest in the service it offers, or ends its own use of it, while the Connect_service waits. */
  ghost predicate GivesUp(ops: seq<Binding.Op>, i: nat, k: Key, c: Client, h: Handle)
    requires i < |ops|
  {
    (LosesInterest(ops[i], c, k) || Disconnects(ops[i], c, k)) && SentAs(ops, i, k, c, h)
  }

  ghost predicate GivenUp(ops: seq<Binding.Op>, t: nat, k: Key, c: Client, h: Handle)
    requires t <= |ops|
  {
    exists i :: 0 <= i < t && GivesUp(ops, i, k, c, h)
  }

  lemma StandingOfferIsNotTaken(n: Node, op: Binding.Op, k: Key, c: Client)
    requires Handshake(n) && Enabled(n, op) && Holds(Step(n, op), Offered(k, c))
    ensures op != DropPeer(c) && !Withdraws(op, c, k) && !Forgets(n, op, k)
  {
    StepChangesAsListed(n, op, Offered(k, c));
  }

  lemma ReplyIsAccepted(n: Node, c: Client, k: Key, h: Handle, provided: Handle)
    requires Holds(n, Awaited(k, c, h)) && k in n.states
    ensures h in HandleConnectServiceReply(n, c, h, provided).accepted
  {
  }

  /** A Connect_service that was sent goes on waiting, unless it is answered or given up. */
  lemma WaitingGoesOn(n: Node, op: Binding.Op, k: Key, c: Client, h: Handle)
    requires Handshake(n) && Enabled(n, op) && Holds(n, Asked(k, c)) && HasRequired(n, k, c, h)
    requires HasRequired(Step(n, op), k, c, h) && h !in Step(n, op).accepted
    ensures Holds(Step(n, op), Awaited(k, c, h)) <==>
            Holds(n, Awaited(k, c, h)) && !LosesInterest(op, c, k) && !Disconnects(op, c, k)
  {
    StandingOfferIsNotTaken(n, op, k, c);
    if op.ConnectServiceReplyMessage? && op.client == c && op.required == h && Holds(n, Awaited(k, c, h)) {
      ReplyIsAccepted(n, c, k, h, op.provided);
    }
    TakenWhileStanding(n, op, k, c, h);
    StepChangesAsListed(n, op, Awaited(k, c, h));
  }

  lemma TakenWhileStanding(n: Node, op: Binding.Op, k: Key, c: Client, h: Handle)
    requires op != DropPeer(c) && !Withdraws(op, c, k) && !Forgets(n, op, k) && Holds(n, Asked(k, c))
    ensures !Puts(n, op, Awaited(k, c, h))
    ensures Takes(n, op, Awaited(k, c, h)) <==>
            LosesInterest(op, c, k) || Disconnects(op, c, k) ||
            (op.ConnectServiceReplyMessage? && op.client == c && op.required == h)
  {
  }

  /** A Connect_service that is sent starts to wait. */
  lemma WaitingStarts(n: Node, op: Binding.Op, k: Key, c: Client, h: Handle)
    requires Handshake(n) && Enabled(n, op) && Holds(Step(n, op), Asked(k, c)) && HasRequired(Step(n, op), k, c, h)
    requires !(Holds(n, Asked(k, c)) && HasRequired(n, k, c, h))
    ensures Holds(Step(n, op), Awaited(k, c, h))
  {
    if Holds(n, Asked(k, c)) {
      AskedKeepsItsId(n, op, k, c, h);
    }
    StepChangesAsListed(n, op, Asked(k, c));
    StepChangesAsListed(n, op, Awaited(k, c, h));
  }

  /** In every run a Connect_service that was sent for a standing offer and not answered is still waited for, so that
      its reply is taken, exactly when its peer did not lose interest in the service or end its own use of it since. */
  lemma {:induction false} SentConnectWaitsIff(ops: seq<Binding.Op>, t: nat, k: Key, c: Client, h: Handle)
    requires EnabledRun(INIT, ops) && t <= |ops| && SentAs(ops, t, k, c, h) && h !in NodeAt(ops, t).accepted
    ensures Holds(NodeAt(ops, t), Awaited(k, c, h)) <==> !GivenUp(ops, t, k, c, h)
  {
    if t > 0 {
      var n, op := NodeAt(ops, t - 1), ops[t - 1];
      NodesAreSound(ops, t - 1);
      AcceptedStays(n, op);
      if SentAs(ops, t - 1, k, c, h) {
        SentConnectWaitsIff(ops, t - 1, k, c, h);
        WaitingGoesOn(n, op, k, c, h);
        GivenUpMore(ops, t, k, c, h);
      } else {
        WaitingStarts(n, op, k, c, h);
        NotGivenUp(ops, t, k, c, h);
      }
    }
  }

  lemma GivenUpMore(ops: seq<Binding.Op>, t: nat, k: Key, c: Client, h: Handle)
    requires 0 < t <= |ops|
    ensures GivenUp(ops, t, k, c, h) <==> GivenUp(ops, t - 1, k, c, h) || GivesUp(ops, t - 1, k, c, h)
  {
  }

  lemma NotGivenUp(ops: seq<Binding.Op>, t: nat, k: Key, c: Client, h: Handle)
    requires EnabledRun(INIT, ops) && 0 < t <= |ops| && SentAs(ops, t, k, c, h) && !SentAs(ops, t - 1, k, c, h)
    ensures !GivenUp(ops, t, k, c, h)
  {
    if i :| 0 <= i < t && GivesUp(ops, i, k, c, h) {
      HadTheId(ops, i, t, k, c, h);
      SentStaysSent(ops, i, t - 1, k, c, h);
    }
  }

  // A peer that offers a service, requests it itself and lets go of its own request.

  const ASKED := INIT.(connections := {1}, next := 2, pending := map[1 := Pending(0, 1)], sent := [Sent(1, 0, 1)],
                       states := map[0 := NEW_STATE.(requested := true, offers := map[1 := Offer(true, true, 1)])])

  const STRANDED := ASKED.(pending := map[], interested := map[0 := {}])

  const ASKING := [LocalRequest(0, true, [], {}), AddClient(1), OfferMessage(1, 0, true, [1], {1})]

  const LETTING_GO := ASKING + [RequestMessage(1, 0, true, false)] + [RequestMessage(1, 0, false, false)]

  lemma OfferIsAsked()
    ensures EnabledRun(INIT, ASKING) && Run(INIT, ASKING) == ASKED
  {
    var requested := INIT.(states := map[0 := NEW_STATE.(requested := true)]);
    var arrived := requested.(connections := {1});
    assert {} + {1} == {1};
    ExtendRun([], ASKING[0]);
    assert [] + [ASKING[0]] == ASKING[..1] && Run(INIT, ASKING[..1]) == requested;
    ExtendRun(ASKING[..1], ASKING[1]);
    assert ASKING[..1] + [ASKING[1]] == ASKING[..2] && Run(INIT, ASKING[..2]) == arrived;
    assert Visits([1], StateOf(arrived, 0).offers.Keys + {1});
    OfferIsSent(arrived);
    ExtendRun(ASKING[..2], ASKING[2]);
    assert ASKING[..2] + [ASKING[2]] == ASKING;
  }

  lemma OfferIsSent(n: Node)
    requires n == ASKED.(states := map[0 := NEW_STATE.(requested := true)], next := 1, pending := map[], sent := [])
    ensures HandleOffer(n, 1, 0, true, [1], {1}) == ASKED
  {
    var w := WithState(n, 0, NEW_STATE.(requested := true, offers := map[1 := Offer(true, false, 0)]));
    assert SendConnect(w, 0, [1][..0], {1}) == w;
    assert SendConnect(w, 0, [1], {1}) == SendOne(w, 0, 1, true);
    assert n.sent + [Sent(1, 0, 1)] == [Sent(1, 0, 1)];
    assert w.states[0].offers[1 := Offer(true, true, 1)] == map[1 := Offer(true, true, 1)];
    assert w.states[0 := ASKED.states[0]] == ASKED.states;
  }

  lemma RequestIsLetGo()
    ensures EnabledRun(INIT, LETTING_GO) && Run(INIT, LETTING_GO) == STRANDED
  {
    OfferIsAsked();
    var interested := ASKED.(interested := map[0 := {1}]);
    assert {} + {1} == {1} && {1} - {1} == {};
    ExtendRun(ASKING, RequestMessage(1, 0, true, false));
    assert Run(INIT, ASKING + [RequestMessage(1, 0, true, false)]) == interested;
    ExtendRun(ASKING + [RequestMessage(1, 0, true, false)], RequestMessage(1, 0, false, false));
    assert After(map[], DropClient(1)) == map[];
    assert DropClientSubs(ASKED.states, 1) == ASKED.states;
    assert ClearPendingOf(ASKED.pending, 0, 1) == map[];
    assert RemoveClientAndKey(map[], 1, 0) == map[];
  }

  /** The Connect_service sent for its offer is forgotten with its own request: the offer stands as asked, nothing
      waits, and a reply to it changes nothing. */
  lemma LettingGoStrandsTheOffer(provided: Handle)
    ensures EnabledRun(INIT, LETTING_GO)
    ensures var n := Run(INIT, LETTING_GO);
            && Holds(n, Asked(0, 1)) && HasRequired(n, 0, 1, 1) && 1 !in n.accepted && n.pending == map[]
            && Step(n, ConnectServiceReplyMessage(1, 1, provided)) == n
  {
    RequestIsLetGo();
  }
}
