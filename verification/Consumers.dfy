/** The other side of an event update: the peer looks up the handle in its own mappings to find the shared memory it
    reads (binding_base.cpp). */
module Consumers {
  import opened Prelude
  import opened ConnectionMetadata
  import SM = SlotManager
  import opened SlotLifetime
  import B = Binding
  import BindingSafety

  /** A mapping a peer has towards this binding: the handle in messages, the key of the shared memory that came with
      the handshake, and the peer's part in it. */
  datatype PeerEntry = PeerEntry(handle: Handle, key: Key, role: Role)

  datatype WorldStep =
    | Here(step: Step)
    | PeerMaps(client: Client, entry: PeerEntry)
    | PeerUnmaps(client: Client, entry: PeerEntry)

  /** The steps of this binding, its memory and the messages. */
  function StepsOf(ws: seq<WorldStep>): seq<Step> {
    if ws == [] then [] else
      StepsOf(ws[..|ws| - 1]) + (if ws[|ws| - 1].Here? then [ws[|ws| - 1].step] else [])
  }

  function Dropped(v: seq<PeerEntry>, e: PeerEntry): seq<PeerEntry> {
    if v == [] then [] else (if v[0] == e then [] else [v[0]]) + Dropped(v[1..], e)
  }

  /** The mappings of a peer, in the order in which it made them. */
  function PeerTable(ws: seq<WorldStep>, c: Client): seq<PeerEntry> {
    if ws == [] then [] else
      var before, step := PeerTable(ws[..|ws| - 1], c), ws[|ws| - 1];
      if step.PeerMaps? && step.client == c then before + [step.entry]
      else if step.PeerUnmaps? && step.client == c then Dropped(before, step.entry)
      else before
  }

  /** get_by_remote_handle on the peer's side: the first mapping with the handle. */
  function Finds(v: seq<PeerEntry>, handle: Handle): Option<PeerEntry> {
    if v == [] then None else if v[0].handle == handle then Some(v[0]) else Finds(v[1..], handle)
  }

  /** The lookup stops at a mapping of a service the peer consumes, for which it has a server connector. */
  predicate Takes(v: seq<PeerEntry>, handle: Handle) {
    Finds(v, handle).Some? && Finds(v, handle).value.role == Consumer
  }

  function StateAt(ws: seq<WorldStep>): System {
    Run(INIT, StepsOf(ws))
  }

  /** A consuming peer maps the handle it chose once its Connect_service was answered, a providing one the handle of a
      Connect_service it was sent. A peer takes an update only if it finds a mapping; otherwise the update is lost. */
  ghost predicate StepOk(ws: seq<WorldStep>, w: WorldStep) {
    match w
    case Here(step) =>
      && Possible(StateAt(ws), step)
      && (step.Receive? ==> Finds(PeerTable(ws, step.token.client), step.token.handle).Some?)
    case PeerMaps(c, e) =>
      if e.role == Consumer then ConnectsIn(StepsOf(ws), c, e.key, e.handle)
      else B.Sent(c, e.key, e.handle) in StateAt(ws).node.sent
    case PeerUnmaps(_, _) => true
  }

  ghost predicate PossibleWorld(ws: seq<WorldStep>) {
    ws == [] || (PossibleWorld(ws[..|ws| - 1]) && StepOk(ws[..|ws| - 1], ws[|ws| - 1]))
  }

  // Every mapping of a peer carries a handle that was chosen for its key.

  lemma {:induction false} WorldRuns(ws: seq<WorldStep>)
    requires PossibleWorld(ws)
    ensures PossibleRun(INIT, StepsOf(ws))
  {
    if ws != [] {
      var before := ws[..|ws| - 1];
      WorldRuns(before);
      if ws[|ws| - 1].Here? {
        assert StepsOf(ws)[..|StepsOf(ws)| - 1] == StepsOf(before);
      } else {
        assert StepsOf(ws) == StepsOf(before);
      }
    }
  }

  lemma {:induction false} DroppedIsIn(v: seq<PeerEntry>, e: PeerEntry, x: PeerEntry)
    requires x in Dropped(v, e)
    ensures x in v
  {
    if v[0] == e || x != v[0] { DroppedIsIn(v[1..], e, x); }
  }

  lemma {:induction false} FoundIsIn(v: seq<PeerEntry>, handle: Handle)
    requires Finds(v, handle).Some?
    ensures Finds(v, handle).value in v && Finds(v, handle).value.handle == handle
  {
    if v[0].handle != handle { FoundIsIn(v[1..], handle); }
  }

  lemma ChosenStaysInWorld(ws: seq<WorldStep>, c: Client, k: Key, handle: Handle)
    requires ws != [] && Chosen(StateAt(ws[..|ws| - 1]), StepsOf(ws[..|ws| - 1]), c, k, handle)
    ensures Chosen(StateAt(ws), StepsOf(ws), c, k, handle)
  {
    var before := ws[..|ws| - 1];
    if ws[|ws| - 1].Here? {
      var step := ws[|ws| - 1].step;
      ChosenStays(StateAt(before), StepsOf(before), step, c, k, handle);
      assert StepsOf(ws)[..|StepsOf(ws)| - 1] == StepsOf(before);
    } else {
      assert StepsOf(ws) == StepsOf(before);
    }
  }

  lemma {:induction false} PeersAreTraceable(ws: seq<WorldStep>, c: Client, e: PeerEntry)
    requires PossibleWorld(ws) && e in PeerTable(ws, c)
    ensures Chosen(StateAt(ws), StepsOf(ws), c, e.key, e.handle)
  {
    var before, step := ws[..|ws| - 1], ws[|ws| - 1];
    if step == PeerMaps(c, e) {
      assert Chosen(StateAt(before), StepsOf(before), c, e.key, e.handle);
    } else {
      if step.PeerUnmaps? && step.client == c { DroppedIsIn(PeerTable(before, c), step.entry, e); }
      PeersAreTraceable(before, c, e);
    }
    ChosenStaysInWorld(ws, c, e.key, e.handle);
  }

  /** While no handle is used for two keys, the mapping a peer finds for anything it was sent is of the key for which
      it was published. */
  lemma PeersFindTheirMemory(ws: seq<WorldStep>, key: Key, slot: SM.Slot, t: Token)
    requires PossibleWorld(ws) && OneKeyPerHandle(StateAt(ws), StepsOf(ws)) && t in Out(StateAt(ws), key, slot)
    requires Finds(PeerTable(ws, t.client), t.handle).Some?
    ensures Finds(PeerTable(ws, t.client), t.handle).value.key == key
  {
    var s, steps, v := StateAt(ws), StepsOf(ws), PeerTable(ws, t.client);
    var k := Finds(v, t.handle).value.key;
    WorldRuns(ws);
    RunsAreTraceable(steps);
    FoundIsIn(v, t.handle);
    PeersAreTraceable(ws, t.client, Finds(v, t.handle).value);
    assert Chosen(s, steps, t.client, k, t.handle) && Chosen(s, steps, t.client, key, t.handle);
    SameKey(steps, t.client, k, key, t.handle);
  }

  lemma OneKeyBefore(ws: seq<WorldStep>)
    requires ws != [] && OneKeyPerHandle(StateAt(ws), StepsOf(ws))
    ensures var before := ws[..|ws| - 1]; OneKeyPerHandle(StateAt(before), StepsOf(before))
  {
    var before := ws[..|ws| - 1];
    forall c: Client, k: Key, k': Key, handle: Handle
      | ConnectsIn(StepsOf(before), c, k, handle) && Chosen(StateAt(before), StepsOf(before), c, k', handle)
      ensures k == k'
    {
      assert ConnectsIn(StepsOf(ws), c, k, handle);
      ChosenStaysInWorld(ws, c, k', handle);
    }
  }

  lemma {:induction false} OneKeyThroughout(ws: seq<WorldStep>, i: nat)
    requires PossibleWorld(ws) && OneKeyPerHandle(StateAt(ws), StepsOf(ws)) && i <= |ws|
    ensures PossibleWorld(ws[..i]) && OneKeyPerHandle(StateAt(ws[..i]), StepsOf(ws[..i]))
    decreases |ws|
  {
    if i == |ws| {
      assert ws[..i] == ws;
    } else {
      OneKeyBefore(ws);
      OneKeyThroughout(ws[..|ws| - 1], i);
      assert ws[..|ws| - 1][..i] == ws[..i];
    }
  }

  lemma {:induction false} StepPossible(ws: seq<WorldStep>, i: nat)
    requires PossibleWorld(ws) && i < |ws|
    ensures StepOk(ws[..i], ws[i])
    decreases |ws|
  {
    if i < |ws| - 1 {
      StepPossible(ws[..|ws| - 1], i);
      assert ws[..|ws| - 1][..i] == ws[..i];
    }
  }

  lemma ReceiveFindsItsMemory(ws: seq<WorldStep>, key: Key, slot: SM.Slot, t: Token)
    requires PossibleWorld(ws) && OneKeyPerHandle(StateAt(ws), StepsOf(ws)) && StepOk(ws, Here(Receive(key, slot, t)))
    ensures var found := Finds(PeerTable(ws, t.client), t.handle); found.Some? && found.value.key == key
  {
    assert Possible(StateAt(ws), Receive(key, slot, t));
    PeersFindTheirMemory(ws, key, slot, t);
  }

  lemma HeldShowsItsCopy(ws: seq<WorldStep>, key: Key, slot: SM.Slot, t: Token)
    requires PossibleWorld(ws) && OneKeyPerHandle(StateAt(ws), StepsOf(ws)) && Unforwarded(StepsOf(ws))
    requires t in Out(StateAt(ws), key, slot)
    ensures key in StateAt(ws).memory && ReadsCopy(StateAt(ws).memory[key], slot, t.copy)
  {
    WorldRuns(ws);
    SlotsAreSafe(StepsOf(ws), key, slot);
  }

  lemma {:induction false} StepsOfPrefix(ws: seq<WorldStep>, i: nat)
    requires i <= |ws|
    ensures StepsOf(ws[..i]) <= StepsOf(ws)
    decreases |ws|
  {
    if i == |ws| {
      assert ws[..i] == ws;
    } else {
      StepsOfPrefix(ws[..|ws| - 1], i);
      assert ws[..|ws| - 1][..i] == ws[..i];
    }
  }

  /** In every run in which no handle is used for two keys and no payload of a peer is sent on: a peer that takes an
      update finds the memory it was published in, and as long as it holds the payload the bytes it reads there are
      those that were published. */
  lemma ConsumersReadWhatWasPublished(ws: seq<WorldStep>, i: nat, j: nat, key: Key, slot: SM.Slot, t: Token)
    requires PossibleWorld(ws) && OneKeyPerHandle(StateAt(ws), StepsOf(ws)) && Unforwarded(StepsOf(ws))
    requires i < j <= |ws|
    requires ws[i] == Here(Receive(key, slot, t)) && t.(stage := Held) in Out(StateAt(ws[..j]), key, slot)
    ensures var found := Finds(PeerTable(ws[..i], t.client), t.handle); found.Some? && found.value.key == key
    ensures key in StateAt(ws[..j]).memory && ReadsCopy(StateAt(ws[..j]).memory[key], slot, t.copy)
  {
    var taken, now := ws[..i], ws[..j];
    StepPossible(ws, i);
    OneKeyThroughout(ws, i);
    ReceiveFindsItsMemory(taken, key, slot, t);
    OneKeyThroughout(ws, j);
    StepsOfPrefix(ws, j);
    HeldShowsItsCopy(now, key, slot, t.(stage := Held));
  }
}
