# SOME/IP gateway: a verified model

This project models two connected parts of the gateway and proves what holds over whole runs of them.

**The gateway IPC binding.** Two processes, each with a binding, exchange Request, Offer, Connect_service,
Connect_service_reply, Subscribe, Event_update and Payload_consumed messages. A binding keeps tables of connections,
service states, pending connects, mappings with an index, interested peers and shared-memory allocations. Payload bytes are
never copied: they stay in a shared-memory slot until every recipient has acknowledged.

**The SOCom connectors and their runtime.** Client and server connectors keep each other alive with shared reference tokens,
and destructors wait for the last token. The runtime pairs connectors in any order of registration and registers bridges
while other threads change the requests.

String interning, service keys, shared-memory object names and payload windows support both.

## How the model is laid out

Sequential objects are classes whose methods follow the loops and updates of the code and are proved against functions on
values; the theorems are about those functions. Properties of interleavings are stated over state machines whose steps are
the critical sections and callbacks of the code, and are proved for every run.

| file | content |
|---|---|
| `Keys.dfy`, `Paths.dfy`, `StringRegistry.dfy`, `Payloads.dfy` | keys, object names, interning, payload windows |
| `SlotManager.dfy`, `AllocationTable.dfy` | slot reference counts and guards; pending consumers per slot |
| `ConnectionMetadata.dfy`, `EventSubscriptions.dfy` | mappings and their index; aggregated subscriptions |
| `SubscriptionRuns.dfy`, `SubscriptionGaps.dfy` | the subscriptions over whole runs of the handlers, and runs that leave a gap |
| `Binding.dfy`, `BindingSafety.dfy`, `Gateway.dfy` | the handlers as steps, what all runs keep, the binding as an object |
| `SlotLifetime.dfy`, `Consumers.dfy` | distributed slot lifetime, and the peers' own lookups of what they read |
| `BindingHistory.dfy`, `ConnectHistory.dfy` | why something is in the tables: who put it in and what takes it out; waiting connects |
| `Publication.dfy` | what a publication hands out, where its bytes come from, when its slot comes back |
| `LiveRuns.dfy` | runs in which only a server that has the binding as a subscriber makes and sends payloads |
| `HandleClash.dfy`, `ConsumerClash.dfy`, `ForwardedPayload.dfy` | such runs that break it: by a handle, with the peers' lookups, and by a payload that is sent on |
| `Connectors.dfy` | clients, connections, tokens, threads and their steps |
| `ConnectorSafety.dfy`, `ConnectorSteps.dfy`, `ConnectorLives.dfy`, `ConnectorEnds.dfy` | the invariant of the connectors and its preservation |
| `ConnectorRuns.dfy`, `ConnectorTermination.dfy`, `ConnectorAssertion.dfy` | theorems on runs, end of teardown, the connect assertion |
| `ConnectorMeetings.dfy` | when client and server connector find each other, and who is told |
| `ServerEvents.dfy`, `CallbackOrder.dfy`, `MixedOrder.dfy` | per-event state of a server, and the order in which its callbacks arrive |
| `Pairing.dfy`, `Bridges.dfy` | pairing of connectors, bridge registration |

## Where the code does not keep a promise

- **Handles.** The documentation of `Remote_handle` promises a unique handle per connection. A mapping made for a
  Connect_service carries the peer's handle and a mapping made for a reply carries this side's own, so one client can have two
  mappings with the same remote handle for different keys. An acknowledgement is then counted for the wrong key.
  `HandleClash.ClashingHandlesFreeASlotInUse` is such a run: a slot that is still read is allocated and overwritten. Every
  payload in it is made and sent by an available server that has the binding as a subscriber (`LiveRuns.LiveRun`).
  `ConsumerClash.PeersOverwriteASlotInUse` is the same with the mappings of the peers in the picture; in it the second peer
  stops providing a service and its Offer_service that says so cannot be sent. While that peer still has both mappings the
  update is lost instead (`ConsumerClash.ClashingHandleLosesTheUpdate`). `SlotLifetime.AcknowledgeKeepsLifetimeIff` says
  exactly which acknowledgements are harmless.
- **Payloads that are sent on.** A service for which the binding has a client connector, made for a peer's request, and a server
  connector, made for another peer's reply, is paired with itself. An update received for it is then sent on with the slot number
  of the sender's memory and stored in this binding's allocation table. `ForwardedPayload.ForwardedPayloadIsMisread` is a run
  after which a client reads other bytes than those sent on to it, `SlotLifetime.ForwardIsReadRightlyIff` the exact condition, and
  `AllocationTable.ForeignEntryLosesTheNextSlot` what becomes of the next own payload.
- **Slot lifetime and zero copy** hold in all other runs. `SlotLifetime.StepKeepsInvIff` and `SlotLifetime.RunsKeepInvIff` prove
  the invariant behind them to hold exactly when no new mapping takes over a handle in use for another key and no payload is sent
  on to harm. `SlotLifetime.SlotsAreSafe` and `Consumers.ConsumersReadWhatWasPublished` prove both for all runs in which no handle
  is used for two keys and no payload of a peer is sent on; the latter is granted while no service has both connectors
  (`SlotLifetime.ForwardsOnlyWhenLooped`).
- **Replies.** A Connect_service whose send failed stays pending, so a reply to it is accepted although nothing was sent, and
  again after the retry. `BindingSafety.UnsentIsAcceptedTwice` shows the second mapping this makes, and
  `BindingSafety.ReplyKeepsHandshakeIff` says exactly which replies keep the handshake.
- **Waiting connects.** A peer that lets go of its own request for a service makes the binding forget the Connect_service it has
  sent to that peer for the same service: the offer stays marked as asked, the reply is dropped, and nothing is sent again
  (`ConnectHistory.LettingGoStrandsTheOffer`). `ConnectHistory.SentConnectWaitsIff` proves over every run that this, and a peer
  that ends its own use of the service, are the only ways in which a sent and unanswered Connect_service stops waiting.
- **The connect assertion.** `server_connector_impl.cpp:235` asserts that the server has no client yet. It fails when a
  connector that is being destroyed has a connect in flight, made by the thread that enables the server, while a second one
  connects.
  `ConnectorAssertion.AConnectInFlightFailsTheAssertion` is such a run, `ConnectorAssertion.AssertionFailsIff` the exact
  state in which it happens, and `ConnectorAssertion.OrderlyRunsNeverAbort` excludes it for callers who create a connector only
  after the destructor of the one before has returned.
- **Interning.** The overload for moved strings compares C strings. `StringRegistry.OwnedInsertIsRightIff` gives the exact
  condition, `StringRegistry.UnterminatedLiteralBreaksInterning` an entry that breaks it.
- **Object names.** Data and counterpart names collide exactly for service names that start with the counterpart marker
  (`Paths.FamiliesCollideExactlyOnMarkedNames`, for example `Paths.MarkedNameCollides`).
- **Subscriptions of the binding.** Clearing the subscribers of a service, and changing them while it has no client connector,
  can leave the connector's view behind the stored subscribers. `EventSubscriptions.ClearKeepsIff` and
  `EventSubscriptions.WithoutConnectorKeepsIff` give the exact conditions on the state before the call, and
  `SubscriptionRuns.ViewsAgreeIff` proves over every run of the handlers that the two views agree all along exactly when no step
  meets them. `SubscriptionGaps.WithdrawnOfferLeavesAGap` and `SubscriptionGaps.RemovedConnectorLeavesAGap` are runs that do.
- **Subscriptions of a server.** Callbacks are made after the lock is released, so calls that overlap can report
  unsubscribed before subscribed. `CallbackOrder.CallbacksFollowDecisionsIff` proves that over an enabled period no order can be
  wrong exactly when at most one thread at a time owes a change of the event; `MixedOrder.CallbacksAreNeverMixedIff` is the exact
  condition for all callbacks about an event. disable() forgets subscribers silently, and a later subscription is reported a
  second time (`ServerEvents.ChangesAlternateIff`).
- **update_event.** `server_connector.hpp:187` documents that it clears the update requesters. The code keeps them:
  `ServerEvents.RequesterIsStoredIff` says who is stored after any run, `ServerEvents.UpdateAnswersNobody` exactly when a request
  after an update makes its callback, and `ServerEvents.SecondRequestIsSilent` is a run in which it makes none.

## Model

| member | source | states |
|---|---|---|
| `Keys.AnswersLast` | score/gateway_ipc_binding/impl/key.hpp:49-59 | every key handed out is still the key of its pair after any further requests |
| `Keys.KeysAreAStableInjection` | score/gateway_ipc_binding/impl/key.hpp:49-59 | over every sequence of requests two answers are equal exactly when the pairs are |
| `Keys.KeyTable.constructor` | score/gateway_ipc_binding/impl/key.hpp:49-59 | starts without keys |
| `Keys.KeyTable.GetKey` | score/gateway_ipc_binding/impl/key.hpp:49-59 | returns the known key or the next free one, and stays valid |
| `Keys.KeyTable.Find` | score/gateway_ipc_binding/impl/key.hpp:85-96 | the nested search inverts the lookup: it finds the one pair with the key, and nothing exactly when there is none |
| `Paths.DropLeadingSlashesIsTheLongestCut` | score/gateway_ipc_binding/impl/gateway_ipc_binding.cpp:64-71 | exactly the leading slashes are cut |
| `Paths.FlattenShape` | score/gateway_ipc_binding/impl/gateway_ipc_binding.cpp:64-71 | a flattened name has no slash and keeps every other character in place |
| `Paths.DecimalRoundTrip` | score/gateway_ipc_binding/impl/gateway_ipc_binding.cpp:73-80 | the decimal text of an id reads back as the id |
| `Paths.PathRoundTrip` | score/gateway_ipc_binding/impl/gateway_ipc_binding.cpp:73-80 | splitting a path at its last underscore gives back the flattened name and the id |
| `Paths.PathsAreFaithful` | score/gateway_ipc_binding/impl/gateway_ipc_binding.cpp:73-92 | for a fixed prefix paths are equal exactly when flattened names and ids are |
| `Paths.OnlySlashIsLeading` | score/gateway_ipc_binding/impl/gateway_ipc_binding.cpp:73-92 | a path has its only slash in front, and making it fails exactly when it is too long |
| `Paths.FamiliesCollideExactlyOnMarkedNames` | score/gateway_ipc_binding/impl/gateway_ipc_binding.cpp:84-92 | a data and a counterpart path are equal exactly for names that carry the counterpart marker |
| `Paths.MarkedNameCollides` | score/gateway_ipc_binding/impl/gateway_ipc_binding.cpp:84-92 | two names whose data and counterpart paths are the same text |
| `StringRegistry.OwnedInsertIsRightIff` | score/socom/impl/string_registry.cpp:48-63 | the insert of a moved string answers with its content exactly when no entry matches it as a C string only |
| `StringRegistry.CleanHasNoFalseMatch` | score/socom/impl/string_registry.cpp:48-63 | terminated entries without embedded NUL never match wrongly |
| `StringRegistry.UnterminatedLiteralBreaksInterning` | score/socom/impl/string_registry.cpp:48-63 | an entry that is not terminated at its length gives a wrong answer |
| `StringRegistry.StepInserts` | score/socom/impl/string_registry.cpp:21-63 | on clean entries and inputs each of the three inserts answers with the content it was given and leaves clean entries |
| `StringRegistry.RunsStayClean` | score/socom/impl/string_registry.cpp:21-63 | along every run of the three inserts from an empty registry, with terminated literals and texts without NUL, contents stay unique and entries clean |
| `StringRegistry.InterningIsFaithful` | score/socom/registry_string_view.hpp:127-143 | in every such run two returned views have equal pointer and length exactly when the inserted texts are equal |
| `StringRegistry.Interner.constructor` | score/socom/impl/string_registry.cpp:21-63 | starts empty |
| `StringRegistry.Interner.InsertLiteral` | score/socom/impl/string_registry.cpp:21-29 | returns the view of the content, the stored one if there is one |
| `StringRegistry.Interner.InsertText` | score/socom/impl/string_registry.cpp:31-46 | the same with an owned copy when the content is new |
| `StringRegistry.Interner.InsertOwned` | score/socom/impl/string_registry.cpp:48-63 | the same, searching with a comparison of C strings |
| `Payloads.ShrinkingKeepsAPrefix` | score/socom/payload.hpp:73-99 | after any number of shrinks the header is unchanged and the data is the prefix that the smallest accepted size leaves |
| `Payloads.LeastIsLeast` | score/socom/payload.hpp:90-99 | that size is the least of the sizes asked for and the original size |
| `Payloads.Payload.constructor` | score/socom/payload.hpp:46-52 | shows the header after the lead bytes and the rest as data |
| `Payloads.Payload.MoveFrom` | score/socom/payload.hpp:57-57 | move construction takes over window and callback, and leaves the other without callback |
| `Payloads.Payload.Data` | score/socom/payload.hpp:73-75 | shows the data of the window |
| `Payloads.Payload.Shrink` | score/socom/payload.hpp:90-99 | refuses exactly a larger size, otherwise keeps the header and a prefix of the data |
| `Payloads.Payload.Assign` | score/socom/payload.hpp:59-69 | gives up the own memory first, takes over the other's window and callback; onto itself it does nothing |
| `Payloads.UseConserves` | score/socom/payload.hpp:43-69 | default, plain and move construction, move assignment and destruction keep the account of every callback |
| `Payloads.EachCallbackIsMadeOnce` | score/socom/payload.hpp:43-69 | over any use of any number of payloads each callback is made or still held exactly as often as it was given |
| `Payloads.CallbacksGoWithTheirPayload` | score/socom/payload.hpp:43-69 | a moved payload takes its callback along and leaves none behind, and all other payloads keep theirs |
| `Payloads.CallbackIsMadeIff` | score/socom/payload.hpp:43-69 | a callback is made exactly when the payload that holds it is destroyed or assigned to |
| `SlotManager.FirstFree` | score/gateway_ipc_binding/impl/shared_memory_slot_manager.cpp:55-67 | finds the lowest slot without references, and none exactly when all are held |
| `SlotManager.StepConserves` | score/gateway_ipc_binding/impl/shared_memory_slot_manager.cpp:312-394 | allocate, share, move, reset, destroy and release keep count equal to live guards plus loose references |
| `SlotManager.GuardsHoldAsTold` | score/gateway_ipc_binding/impl/shared_memory_slot_manager.cpp:312-394 | which guard holds which slot of which allocation after each operation: sharing copies, moving hands over, letting go leaves nothing, all others keep theirs |
| `SlotManager.LooseReferencesChangeAsTold` | score/gateway_ipc_binding/impl/shared_memory_slot_manager.cpp:69-101 | references outside guards: one more for a released guard or an added consumer, one less when given back |
| `SlotManager.ReferenceCountsAreConserved` | score/gateway_ipc_binding/impl/shared_memory_slot_manager.cpp:44-101 | in every reachable pool each count is the number of live guards plus loose references |
| `SlotManager.AllocationTakesTheLowestFree` | score/gateway_ipc_binding/impl/shared_memory_slot_manager.cpp:55-67 | allocation fails exactly when every slot is held, otherwise takes the lowest slot nobody holds |
| `SlotManager.GuardsOwnDisjointRanges` | score/gateway_ipc_binding/impl/shared_memory_slot_manager.cpp:127-139 | guards of different allocations own disjoint byte ranges inside the region |
| `SlotManager.WriteIsLocal` | score/gateway_ipc_binding/impl/shared_memory_slot_manager.cpp:127-139 | writing a slot changes the bytes of no other slot |
| `SlotManager.Manager.constructor` | score/gateway_ipc_binding/impl/shared_memory_slot_manager.cpp:44-49 | all counts are zero |
| `SlotManager.Manager.AllocateSlot` | score/gateway_ipc_binding/impl/shared_memory_slot_manager.cpp:55-67 | the search loop allocates as specified |
| `SlotManager.Manager.AddConsumerTo` | score/gateway_ipc_binding/impl/shared_memory_slot_manager.cpp:69-83 | one more reference, or the error for a bad or free slot |
| `SlotManager.Manager.Release` | score/gateway_ipc_binding/impl/shared_memory_slot_manager.cpp:85-101 | one reference less, or the error for a bad or free slot |
| `SlotManager.Manager.GetMemory` | score/gateway_ipc_binding/impl/shared_memory_slot_manager.cpp:127-139 | the byte range of an allocated slot, or the error |
| `SlotManager.Guard.constructor` | score/gateway_ipc_binding/impl/shared_memory_slot_manager.cpp:314-316 | the guard holds the slot |
| `SlotManager.Guard.MoveFrom` | score/gateway_ipc_binding/impl/shared_memory_slot_manager.cpp:318-321 | takes over the slot and leaves the other empty |
| `SlotManager.Guard.Assign` | score/gateway_ipc_binding/impl/shared_memory_slot_manager.cpp:323-337 | releases the own slot first, then takes over the other's; onto itself it does nothing |
| `SlotManager.Guard.Clear` | score/gateway_ipc_binding/impl/shared_memory_slot_manager.cpp:374-379 | gives the reference back once |
| `SlotManager.Guard.ShareSlot` | score/gateway_ipc_binding/impl/shared_memory_slot_manager.cpp:341-355 | a second guard with one more reference |
| `SlotManager.Guard.Detach` | score/gateway_ipc_binding/impl/shared_memory_slot_manager.cpp:381-389 | hands out the slot without giving the reference back |
| `AllocationTable.FreshSlotIsUnoccupied` | score/gateway_ipc_binding/impl/shared_memory_managers.hpp:82-97 | a freshly allocated slot never meets an occupied entry |
| `AllocationTable.InsertAgrees` | score/gateway_ipc_binding/impl/shared_memory_managers.hpp:82-97 | after an insert an entry holds a payload exactly when its pending count is positive, and its slot is then referenced |
| `AllocationTable.ConsumeAgrees` | score/gateway_ipc_binding/impl/shared_memory_managers.hpp:99-121 | the same after an acknowledgement |
| `AllocationTable.AbandonAgrees` | score/gateway_ipc_binding/impl/shared_memory_slot_manager.cpp:374-379 | the same after a payload is dropped unpublished |
| `AllocationTable.InsertForeignAgreesIff` | score/gateway_ipc_binding/impl/shared_memory_managers.hpp:82-97 | storing a payload of a peer keeps this exactly when nobody receives it or a payload of this binding is in its place |
| `AllocationTable.ForeignEntryLosesTheNextSlot` | score/gateway_ipc_binding/impl/shared_memory_managers.hpp:82-97 | where a payload of a peer is stored, the next own payload with that slot number is dropped while its recipients are counted, and its slot is allocated again |
| `AllocationTable.Managers.constructor` | score/gateway_ipc_binding/impl/shared_memory_managers.hpp:82-121 | no allocations |
| `AllocationTable.Managers.InsertAllocation` | score/gateway_ipc_binding/impl/shared_memory_managers.hpp:82-97 | stores the payload and adds the recipients, or drops the payload when there are none |
| `AllocationTable.Managers.Destroy` | score/gateway_ipc_binding/impl/shared_memory_slot_manager.cpp:374-379 | destroying a payload releases the slot if it is one of this binding's memory |
| `AllocationTable.Managers.PayloadConsumed` | score/gateway_ipc_binding/impl/shared_memory_managers.hpp:99-121 | one consumer less; the last one frees the slot; unknown slots change nothing |
| `ConnectionMetadata.ReceivesIsOwns` | score/gateway_ipc_binding/impl/connection_metadata.hpp:40-53 | with one entry per client and key, the entries visited are exactly the entries of the key |
| `ConnectionMetadata.SearchesFindTheFirst` | score/gateway_ipc_binding/impl/connection_metadata.hpp:63-87 | both handle searches stop at the matching entry that was added first |
| `ConnectionMetadata.Connections.constructor` | score/gateway_ipc_binding/impl/connection_metadata.hpp:187-188 | empty, index in agreement |
| `ConnectionMetadata.Connections.ForEachClient` | score/gateway_ipc_binding/impl/connection_metadata.hpp:40-53 | visits exactly the clients owning an entry with the key, once each, with the latest entry |
| `ConnectionMetadata.Connections.GetByRemoteHandle` | score/gateway_ipc_binding/impl/connection_metadata.hpp:63-74 | the first entry of the client with the remote handle |
| `ConnectionMetadata.Connections.GetByLocalHandle` | score/gateway_ipc_binding/impl/connection_metadata.hpp:76-87 | the first entry of the client with the local handle |
| `ConnectionMetadata.Connections.AddMapping` | score/gateway_ipc_binding/impl/connection_metadata.hpp:55-61 | appends the entry and keeps index and vectors in agreement |
| `ConnectionMetadata.Connections.Remove` | score/gateway_ipc_binding/impl/connection_metadata.hpp:90-93 | removes the client, index in agreement, no empty row left |
| `ConnectionMetadata.Connections.RemoveMappingForClientAndKey` | score/gateway_ipc_binding/impl/connection_metadata.hpp:95-109 | removes the entries of client and key, index in agreement |
| `ConnectionMetadata.Connections.RemoveMappingOf` | score/gateway_ipc_binding/impl/connection_metadata.hpp:112-128 | removes the entries with the remote handle, index in agreement |
| `ConnectionMetadata.Connections.RemoveAllOf` | score/gateway_ipc_binding/impl/connection_metadata.hpp:131-145 | removes the entries of the key for all clients, index in agreement |
| `ConnectionMetadata.Connections.RemoveClientFromKeyIndices` | score/gateway_ipc_binding/impl/connection_metadata.hpp:163-172 | takes the client out of every row and erases rows that become empty |
| `ConnectionMetadata.Connections.RebuildClientKeyIndices` | score/gateway_ipc_binding/impl/connection_metadata.hpp:174-185 | the rows of the client name its last entry per key, those of others are untouched |
| `EventSubscriptions.AfterRefinesEffect` | score/gateway_ipc_binding/impl/service_state.hpp:113-153 | the table without empty sets is a plain set of subscriptions |
| `EventSubscriptions.StepKeepsConsistent` | score/gateway_ipc_binding/impl/service_state.hpp:331-384 | each step keeps the issued calls in step with the subscriber sets |
| `EventSubscriptions.AggregationRefinesSets` | score/gateway_ipc_binding/impl/service_state.hpp:331-384 | over every run calls per event alternate, the last is subscribe exactly when somebody is subscribed, and no empty set is stored |
| `EventSubscriptions.SubscribersAreHistory` | score/gateway_ipc_binding/impl/service_state.hpp:113-153 | after any run an endpoint is subscribed to an event exactly when it was subscribed at some time and neither it, its connection nor its client was taken out since |
| `EventSubscriptions.CrossesIsEdge` | score/gateway_ipc_binding/impl/service_state.hpp:331-384 | which event gains its first or loses its last subscriber, and so which call is due, read off the state before the operation |
| `EventSubscriptions.WithoutConnectorKeepsIff` | score/gateway_ipc_binding/impl/service_state.hpp:331-365 | without a client connector an operation keeps this exactly when, in the state before it, no event is about to gain its first or lose its last subscriber |
| `EventSubscriptions.ClearKeepsIff` | score/gateway_ipc_binding/impl/service_state.hpp:386-391 | clearing keeps this exactly when nobody was subscribed |
| `EventSubscriptions.ServiceEvents.UpdateEventSubscription` | score/gateway_ipc_binding/impl/service_state.hpp:331-365 | the subscriber set and the calls after subscribe or unsubscribe |
| `EventSubscriptions.ServiceEvents.RemoveEventSubscriptions` | score/gateway_ipc_binding/impl/service_state.hpp:113-135 | the nested erase loops drop one client everywhere and unsubscribe the events that become empty |
| `EventSubscriptions.ServiceEvents.RemoveEventSubscription` | score/gateway_ipc_binding/impl/service_state.hpp:137-153 | the same for one endpoint |
| `SubscriptionRuns.StepChangesSubs` | score/gateway_ipc_binding/impl/binding_base.cpp:386-399 | every handler changes the subscribers of a service by its operation on them and by the silent clearing, and in no other way |
| `SubscriptionRuns.RunsStoreNoEmptySet` | score/gateway_ipc_binding/impl/service_state.hpp:113-153 | no run stores an empty subscriber set |
| `SubscriptionRuns.IssuedIsEdgeIff` | score/gateway_ipc_binding/impl/service_state.hpp:260-282 | the calls a step makes are the whole change of an event exactly when the step leaves nothing unannounced, a condition on the state before it |
| `SubscriptionRuns.ViewsAgreeIff` | score/gateway_ipc_binding/impl/service_state.hpp:331-391 | over every run of the handlers the connector's view of an event agrees with the stored subscribers all along exactly when no step leaves it unannounced |
| `SubscriptionGaps.WithdrawnOfferLeavesAGap` | score/gateway_ipc_binding/impl/service_state.hpp:386-391 | a run in which a withdrawn offer empties the subscribers and the connector stays subscribed |
| `SubscriptionGaps.RemovedConnectorLeavesAGap` | score/gateway_ipc_binding/impl/binding_base.cpp:464-480 | a run in which one client removes the connector and the subscription of another is stored without a call |
| `BindingSafety.ClientsAreAlwaysConnected` | score/gateway_ipc_binding/impl/binding_base.cpp:277-285 | in every reachable state each client in offers, subscriptions, interested peers, mappings or pending connects is connected |
| `BindingSafety.RemovedClientIsForgotten` | score/gateway_ipc_binding/impl/binding_base.cpp:84-89 | after remove_client no table names the client |
| `BindingHistory.StepChangesAsListed` | score/gateway_ipc_binding/impl/binding_base.cpp:186-539 | every handler puts in and takes out of the tables of connections, interests, offers, requests, connectors, waiting connects, mappings and subscriptions exactly what is listed per table, and leaves everything else |
| `BindingHistory.TablesAreHistory` | score/gateway_ipc_binding/impl/binding_base.cpp:186-539 | in every run the tables hold exactly what some message put in and no message took out since |
| `BindingHistory.SendingSweeps` | score/gateway_ipc_binding/impl/service_state.hpp:70-106 | a step that sends gives exactly the due offers their id, an old one or a fresh one, makes them wait, and marks them as asked when the send succeeds |
| `ConnectHistory.RemovedPeerLeavesOthers` | score/gateway_ipc_binding/impl/binding_base.cpp:680-701 | removing a peer takes nothing from the others, except that the last offer of a service takes its server connector and subscriptions along |
| `ConnectHistory.RemovedPeerLeavesEntries` | score/gateway_ipc_binding/impl/binding_base.cpp:680-701 | the mappings and offers of the others are the very same |
| `ConnectHistory.MappingsKeepTheirOrder` | score/gateway_ipc_binding/impl/connection_metadata.hpp:89-186 | every handler keeps the mappings it does not take out in their order and puts a new one at the end |
| `ConnectHistory.LocalHandlesAreUnique` | score/gateway_ipc_binding/impl/binding_base.cpp:482-487 | in every run a handle this side gave to a connection names that connection and no other |
| `ConnectHistory.IdIsOldOrFresh` | score/gateway_ipc_binding/impl/service_state.hpp:85-88 | an offer keeps its id, and a new id was never used before |
| `ConnectHistory.SentConnectWaitsIff` | score/gateway_ipc_binding/impl/binding_base.cpp:230-243 | in every run a sent and unanswered Connect_service for a standing offer still waits, so that its reply is taken, exactly when its peer neither lost interest in the service nor ended its own use of it since |
| `ConnectHistory.LettingGoStrandsTheOffer` | score/gateway_ipc_binding/impl/binding_base.cpp:230-243 | a run in which a peer lets go of its own request and the reply to the waiting Connect_service is dropped |
| `BindingSafety.HandshakeAlwaysHolds` | score/gateway_ipc_binding/impl/binding_base.cpp:503-539 | in every reachable state a pending connect belongs to an offer with that id, ids are distinct and never reused, and a client has one consumer-side mapping per key |
| `BindingSafety.SendOneKeepsHandshake` | score/gateway_ipc_binding/impl/service_state.hpp:73-111 | a sent Connect_service keeps the handshake invariant |
| `BindingSafety.ReplyKeepsHandshake` | score/gateway_ipc_binding/impl/binding_base.cpp:503-539 | a reply keeps the handshake invariant |
| `BindingSafety.ReplyKeepsHandshakeIff` | score/gateway_ipc_binding/impl/binding_base.cpp:503-539 | for every reply whatever: the handshake invariant is kept exactly when the reply is refused or its Connect_service was sent |
| `BindingSafety.UnsentIsAcceptedTwice` | score/gateway_ipc_binding/impl/binding_base.cpp:508-537 | a reply to a Connect_service whose send failed is accepted, and again after the retry, and two mappings are left |
| `BindingSafety.FailedSendIsUnsent` | score/gateway_ipc_binding/impl/binding_base.cpp:664-677 | a run that reaches such a Connect_service |
| `BindingSafety.ReplyAddsTheOnlyEntry` | score/gateway_ipc_binding/impl/binding_base.cpp:503-539 | an accepted reply appends its mapping to those of the client, and it is the only consumer-side one of its client and key |
| `BindingSafety.RepliesAreAcceptedOnce` | score/gateway_ipc_binding/impl/binding_base.cpp:508-519 | once an id was accepted no later reply for it changes anything |
| `BindingSafety.NothingIsLeftDue` | score/gateway_ipc_binding/impl/binding_base.cpp:362-383 | while sends succeed, no key that is requested and offered waits for its Connect_service |
| `BindingSafety.OfferAndRequestCommute` | score/gateway_ipc_binding/impl/binding_base.cpp:621-648 | whichever came first, exactly one Connect_service was sent for the offer |
| `BindingSafety.NothingIsSentEarly` | score/gateway_ipc_binding/impl/service_state.hpp:73-111 | none is sent before the key is requested and the offer is there |
| `Gateway.GatewayIpcBinding.constructor` | score/gateway_ipc_binding/impl/binding_base.cpp:78-82 | starts with empty tables |
| `Gateway.GatewayIpcBinding.OnReceiveMessage` | score/gateway_ipc_binding/impl/binding_base.cpp:91-195 | every message from an added client takes the step it stands for, with all offers visited, and keeps referential integrity and the handshake invariant |
| `Gateway.GatewayIpcBinding.ClearPending` | score/gateway_ipc_binding/impl/pending_connects.hpp:34-43 | the erase loop leaves exactly the entries that do not match |
| `Gateway.GatewayIpcBinding.RemoveEventSubscriptions` | score/gateway_ipc_binding/impl/service_state.hpp:367-372 | drops the client from the subscribers of every service |
| `Gateway.GatewayIpcBinding.RemoveOffers` | score/gateway_ipc_binding/impl/service_state.hpp:260-281 | drops the client's offers; the last offer takes connector and subscriptions with it |
| `Gateway.GatewayIpcBinding.LoseInterest` | score/gateway_ipc_binding/impl/binding_base.cpp:685-693 | drops the client from the interested peers and leaves no empty set |
| `Gateway.GatewayIpcBinding.SendOne` | score/gateway_ipc_binding/impl/service_state.hpp:82-108 | an offer not yet sent gets its id, becomes pending, and counts as sent when the send succeeds |
| `Gateway.GatewayIpcBinding.SendConnect` | score/gateway_ipc_binding/impl/binding_base.cpp:664-677 | visits every offer of a requested key once, in some order |
| `Gateway.GatewayIpcBinding.AddClient` | score/gateway_ipc_binding/impl/binding_base.cpp:78-82 | takes the model's step for a new client and keeps both invariants |
| `Gateway.GatewayIpcBinding.RemoveClient` | score/gateway_ipc_binding/impl/binding_base.cpp:84-89 | takes the model's step for a removed client and keeps both invariants |
| `Gateway.GatewayIpcBinding.RemoveClientState` | score/gateway_ipc_binding/impl/binding_base.cpp:680-700 | erases the client from every table by the source's loops |
| `Gateway.GatewayIpcBinding.HandleConnectReply` | score/gateway_ipc_binding/impl/binding_base.cpp:213-226 | takes the model's step; every service is visited once |
| `Gateway.GatewayIpcBinding.HandleRequestService` | score/gateway_ipc_binding/impl/binding_base.cpp:228-360 | takes the model's step for a Request message |
| `Gateway.GatewayIpcBinding.HandleOfferService` | score/gateway_ipc_binding/impl/binding_base.cpp:362-383 | takes the model's step for an Offer message |
| `Gateway.GatewayIpcBinding.HandleSubscribeEvent` | score/gateway_ipc_binding/impl/binding_base.cpp:385-399 | takes the model's step for a Subscribe message |
| `Gateway.GatewayIpcBinding.HandleConnectService` | score/gateway_ipc_binding/impl/binding_base.cpp:458-501 | takes the model's step for a Connect_service message |
| `Gateway.GatewayIpcBinding.HandleConnectServiceReply` | score/gateway_ipc_binding/impl/binding_base.cpp:503-539 | takes the model's step for a Connect_service_reply message |
| `Gateway.GatewayIpcBinding.ServerConnectorEnabled` | score/gateway_ipc_binding/impl/service_state.hpp:215-222 | takes the model's step for a server connector that has been enabled and keeps both invariants |
| `Gateway.GatewayIpcBinding.ServiceStateChange` | score/gateway_ipc_binding/impl/binding_base.cpp:300-329 | takes the model's step for the service state callback and keeps both invariants |
| `Gateway.GatewayIpcBinding.SendRequestService` | score/gateway_ipc_binding/impl/binding_base.cpp:621-648 | takes the model's step for a local request or its withdrawal and keeps both invariants |
| `SlotLifetime.StepKeepsInvIff` | score/gateway_ipc_binding/impl/binding_base.cpp:271-298 | every step keeps pending counts above what is outstanding and every recipient reading what was published, except exactly a mapping that takes over a handle in use for another key and a payload sent on to harm |
| `SlotLifetime.RunsKeepInvIff` | score/gateway_ipc_binding/impl/binding_base.cpp:271-298 | over every run this holds all along exactly when no step is one of these |
| `SlotLifetime.ForwardIsReadRightlyIff` | score/gateway_ipc_binding/impl/binding_base.cpp:271-298 | the recipients of a payload that is sent on read it rightly exactly when there are none, or the memory shows the same bytes under the sender's slot number |
| `SlotLifetime.ForwardKeepsInvIff` | score/gateway_ipc_binding/impl/binding_base.cpp:271-298 | sending on keeps the invariant exactly when nobody receives it or the slot holds the same bytes, published by this binding |
| `SlotLifetime.ForwardsOnlyWhenLooped` | score/socom/impl/runtime_impl.cpp:525-550 | no payload of a peer is sent on in a run in which no service has both a client and a server connector of the binding |
| `SlotLifetime.PublishEffect` | score/gateway_ipc_binding/impl/binding_base.cpp:277-297 | after publishing, the outstanding updates of the slot are those sent with success, and the pending count is their number |
| `Publication.PublishedTokenIsRight` | score/gateway_ipc_binding/impl/binding_base.cpp:271-298 | each update carries as many bytes as the payload was shrunk to, those at the front of the slot, under the handle of its client's latest mapping |
| `Publication.ReachedIffOwner` | score/gateway_ipc_binding/impl/binding_base.cpp:277-297 | exactly the clients that own a mapping of the service and can be sent to get an update |
| `Publication.ReachedOnce` | score/gateway_ipc_binding/impl/binding_base.cpp:277-297 | nobody gets two |
| `Publication.WhatIsSentWasWritten` | score/gateway_ipc_binding/impl/binding_base.cpp:271-298 | in every careful run what is sent is what was last written into the slot, cut to the size in use |
| `Publication.OnlyWritesChangeBytes` | score/gateway_ipc_binding/impl/shared_memory_slot_manager.cpp:127-139 | only a write to a slot changes its bytes |
| `Publication.MemoryIsFresh` | score/gateway_ipc_binding/impl/shared_memory_slot_manager.cpp:44-53 | a new memory has the slots and the size asked for, and all slots are free |
| `Publication.PartsMoveOn` | score/gateway_ipc_binding/impl/binding_base.cpp:420-445 | a recipient's part moves from its way to the peer into its hands and on its way back, and changes in no other way |
| `Publication.RunsBalance` | score/gateway_ipc_binding/impl/shared_memory_managers.hpp:82-121 | in every careful run the pending count of a slot is exactly what is in flight, held and on its way back, plus what was lost or acknowledged without a mapping |
| `Publication.SlotComesBackIff` | score/gateway_ipc_binding/impl/shared_memory_managers.hpp:99-121 | in every careful run a slot is free again exactly when nobody writes it, nothing of it is out, and nothing of it was lost |
| `SlotLifetime.SlotsOutliveTheirReaders` | score/gateway_ipc_binding/impl/binding_base.cpp:420-456 | over every run each pending count covers updates in flight, held payloads and acknowledgements in flight, so the next slot allocated has no reader |
| `SlotLifetime.ZeroCopyRefinesCopying` | score/gateway_ipc_binding/impl/shared_memory_slot_manager.cpp:164-176 | until a payload is destroyed it shows the bytes that were published |
| `SlotLifetime.SlotsAreSafe` | score/gateway_ipc_binding/impl/binding_base.cpp:447-456 | both hold in every run in which no handle is used for two keys and no payload of a peer is sent on |
| `Consumers.PeersFindTheirMemory` | score/gateway_ipc_binding/impl/binding_base.cpp:404-438 | while no handle is used for two keys, the mapping a peer finds for anything it was sent names the memory it was published in |
| `Consumers.ConsumersReadWhatWasPublished` | score/gateway_ipc_binding/impl/binding_base.cpp:401-445 | in every run of which both is true, with the peers' mappings coming and going, a peer that takes an update finds its memory and reads there what was published until it destroys the payload |
| `LiveRuns.SubscribersAreStoredByLiveServers` | score/socom/impl/server_connector_impl.cpp:117-155 | in every run a server has the binding's subscriber stored only while it is available and the client connector is in place |
| `LiveRuns.LiveRunsArePossible` | score/socom/impl/server_connector_impl.cpp:117-155 | runs in which only such servers make and send payloads are possible runs |
| `ForwardedPayload.ForwardedPayloadIsMisread` | score/gateway_ipc_binding/impl/binding_base.cpp:271-298 | a run in which only servers with a subscriber make and send payloads and every handle stands for one key, after which a client reads other bytes than those of the payload sent on to it |
| `ConsumerClash.ClashingHandleLosesTheUpdate` | score/gateway_ipc_binding/impl/binding_base.cpp:401-418 | a run in which only servers with a subscriber make and send payloads, after which a peer's lookup for an update stops at a mapping of a service it provides itself, so that it does not take the update |
| `ConsumerClash.PeersOverwriteASlotInUse` | score/gateway_ipc_binding/impl/binding_base.cpp:401-456 | a run in which only servers with a subscriber make and send payloads, every update is taken through a mapping of a consumed service, and a slot that a peer still reads is overwritten |
| `SlotLifetime.AcknowledgeKeepsLifetimeIff` | score/gateway_ipc_binding/impl/binding_base.cpp:447-456 | an acknowledgement keeps lifetime exactly when it finds no mapping, the right key, or a slot with no consumer or one to spare |
| `HandleClash.ClashingHandlesFreeASlotInUse` | score/gateway_ipc_binding/impl/binding_base.cpp:482-487 | a run in which only servers with a subscriber make and send payloads and none is sent on, and two mappings of one client share a handle: a slot that is still read is freed and overwritten |
| `ConnectorSafety.ReachedIsSound` | score/socom/impl/endpoint.hpp:25-35 | under the invariant a step that is reached finds every object and token it needs |
| `ConnectorRuns.StepKeeps` | score/socom/impl/client_connector_impl.cpp:145-172 | every step of every thread keeps the invariant |
| `ConnectorRuns.NoStepLacksAToken` | score/socom/impl/endpoint.hpp:25-35 | no run uses an object that is gone or drops a token nobody holds |
| `ConnectorRuns.StateChangesAlternate` | score/socom/impl/server_connector_impl.cpp:81-115 | in every run each client connector hears available and not available in turn, starting with available |
| `ConnectorRuns.EndpointsAreToLiveClients` | score/socom/impl/client_connector_impl.cpp:38-64 | an endpoint to a client connector exists only while the connector does |
| `ConnectorRuns.EndpointsAreToALiveServer` | score/socom/impl/server_connector_impl.cpp:218-249 | an endpoint to a server exists only while the server has that connection and is not disabled |
| `ConnectorRuns.StoredPointersAreLive` | score/socom/impl/server_connector_impl.hpp:54-73 | a client pointer stored for an event points to the connection the server has |
| `ConnectorRuns.NoOwnershipCycle` | score/socom/impl/client_connector_impl.cpp:38-64 | with no call in flight, a destructor that dropped its token and endpoint finds no token left |
| `ConnectorMeetings.MeetingConnects` | score/socom/impl/client_connector_impl.cpp:145-195 | in every run, once its callback has returned and the server is not being disabled, a living client has a server and was last told available exactly when they met with compatible versions |
| `ConnectorMeetings.DisablingTellsEveryClient` | score/socom/impl/server_connector_impl.cpp:96-115 | in every run, once the server is disabled, no living client has it, and each was last told not available if it was ever told |
| `ConnectorMeetings.OnlyTheseCallBack` | score/socom/impl/client_connector_impl.cpp:111-120 | a client is called back by the thread that just gave it its server, and by disable(), and by nobody else |
| `ConnectorMeetings.OtherThreadsGoOn` | score/socom/impl/client_connector_impl.cpp:145-172 | a step of one thread leaves every other thread where it was |
| `ConnectorMeetings.CallsHoldTheOtherSide` | score/socom/impl/server_connector_impl.cpp:117-155 | a call into the server or out of it holds a token of the other side from its start on |
| `ConnectorMeetings.PointersAreHistory` | score/socom/impl/server_connector_impl.hpp:54-73 | in every run a client pointer is stored for an event exactly when a call over that connection stored it and it was neither replaced nor cleared since |
| `ConnectorTermination.FinishingReduces` | score/socom/impl/server_connector_impl.cpp:81-115 | every step that starts nothing new reduces a measure |
| `ConnectorTermination.TeardownIsBounded` | score/socom/impl/client_connector_impl.cpp:38-64 | whatever is in flight after a run is over after a bounded number of steps, in any order |
| `ConnectorTermination.TeardownIsNeverStuck` | score/socom/impl/client_connector_impl.cpp:38-64 | until then some step can be taken: neither destructors nor disable() nor the mutex they hold across remove_client block all others |
| `ConnectorTermination.SettledObjectsCanGo` | score/socom/impl/server_connector_impl.cpp:81-92 | once nothing is in flight every living client connector can be destroyed and an enabled server disabled |
| `ConnectorAssertion.AssertionFailsIff` | score/socom/impl/server_connector_impl.cpp:226-249 | a connect meets a stored client exactly when it is another connector's and the destructor of one of the two waits |
| `ConnectorAssertion.OrderlyRunsNeverAbort` | score/socom/impl/server_connector_impl.cpp:234-235 | the assertion never fails when no connector is created while an earlier one's destructor waits |
| `ConnectorAssertion.AConnectInFlightFailsTheAssertion` | score/socom/impl/server_connector_impl.cpp:234-235 | a run in which it fails: the first connector exists before the server is enabled, and is destroyed while enable() connects it |
| `ServerEvents.ChangesAlternateIff` | score/socom/impl/server_connector_impl.cpp:186-216 | subscription changes of an event alternate exactly when it is not subscribed again after disable() forgot its subscriber |
| `ServerEvents.EnabledPeriodAlternates` | score/socom/impl/server_connector_impl.cpp:286-335 | within one enabled period they always alternate, starting with subscribed, and the last says whether a subscriber is stored |
| `ServerEvents.UpdateRequestsAreSeparated` | score/socom/impl/server_connector_impl.cpp:337-362 | two update-request callbacks for an event are separated by a clearing of its requester |
| `ServerEvents.RequesterIsStoredIff` | score/socom/impl/server_connector_impl.cpp:141-173 | after any run an event has an update requester exactly when one was stored and not unsubscribed, answered on request or cleared since; a plain update clears nobody |
| `ServerEvents.SubscriberIsTheLast` | score/socom/impl/server_connector_impl.cpp:286-325 | in every run the subscriber stored for an event is the connection that subscribed last, unless it was unsubscribed or cleared since |
| `ServerEvents.RequesterIsTheFirst` | score/socom/impl/server_connector_impl.cpp:286-362 | in every run the stored update requester is the first that asked, unless one subscribed with initial value after it, and nobody once it was answered, unsubscribed or cleared |
| `ServerEvents.InitialStays` | score/socom/impl/server_connector_impl.cpp:175-184 | in every run an event is in the mode with initial value exactly when some subscription of it asked for it |
| `ServerEvents.CallbacksByHistory` | score/socom/impl/server_connector_impl.cpp:286-362 | the callbacks an operation makes, from the operations before it: subscribed if nobody was, then an update request if nobody waits; unsubscribed if somebody was |
| `ServerEvents.UpdateAnswersNobody` | score/socom/impl/server_connector_impl.cpp:141-155 | in every run a request after an update makes its callback exactly when nobody was waiting before the update |
| `ServerEvents.SecondRequestIsSilent` | score/socom/impl/server_connector_impl.cpp:141-155 | request, update, request: the second request makes no callback |
| `ServerEvents.CallbacksFollowDecisions` | score/socom/impl/server_connector_impl.cpp:286-325 | all callbacks about an event are made in the order of the decisions when calls about it do not overlap; the exact condition is `MixedOrder.CallbacksAreNeverMixedIff` |
| `CallbackOrder.AnyCallbacksAreRightIff` | score/socom/impl/server_connector_impl.cpp:199-216 | after any run of overlapping calls every order of the callbacks to come reports the changes of an event as decided exactly when those so far were right and all that are owed say the same |
| `CallbackOrder.CallbacksAreRightIff` | score/socom/impl/server_connector_impl.cpp:286-325 | within an enabled period: exactly when those so far were right and at most one thread owes a change of the event |
| `CallbackOrder.CallbacksFollowDecisionsIff` | score/socom/impl/server_connector_impl.cpp:286-325 | over a whole enabled period no order can be wrong exactly when at most one thread at a time owes a change of the event |
| `CallbackOrder.OverlapReordersCallbacks` | score/socom/impl/server_connector_impl.cpp:199-216 | whenever two threads owe a change of an event, some order of their callbacks is wrong |
| `CallbackOrder.SubscribeMeetsUnsubscribe` | score/socom/impl/server_connector_impl.cpp:199-216 | for a subscription and an unsubscription in two threads that order is unsubscribed, subscribed |
| `MixedOrder.CallbacksAreNeverMixedIff` | score/socom/impl/server_connector_impl.cpp:286-362 | all callbacks about an event, update requests included, arrive as decided in every order exactly when one thread at most owes them and they are the rest, or all that are owed and the rest are one and the same |
| `ServerEvents.RemovalClearsAll` | score/socom/impl/server_connector_impl.cpp:193-224 | removing the client leaves the table that disable() leaves |
| `ServerEvents.FarewellsReachEachSubscriber` | score/socom/impl/server_connector_impl.cpp:193-216 | and reports exactly the events that had a subscriber |
| `ServerEvents.EventTable.constructor` | score/socom/impl/server_connector_impl.cpp:37-52 | no subscriber and no requester |
| `ServerEvents.EventTable.Subscribe` | score/socom/impl/server_connector_impl.cpp:286-325 | the new table and the callbacks, or the range error |
| `ServerEvents.EventTable.Unsubscribe` | score/socom/impl/server_connector_impl.cpp:199-216 | the new table and the callback, or the range error |
| `ServerEvents.EventTable.RequestUpdate` | score/socom/impl/server_connector_impl.cpp:337-362 | the new table and the callback, or the range error |
| `ServerEvents.EventTable.TakeRequester` | score/socom/impl/server_connector_impl.cpp:157-173 | returns and clears the requester, or the range error |
| `ServerEvents.EventTable.UpdateEvent` | score/socom/impl/server_connector_impl.cpp:141-155 | returns the subscriber and changes nothing, or the range error |
| `ServerEvents.EventTable.Clear` | score/socom/impl/server_connector_impl.cpp:186-191 | forgets every subscriber and requester |
| `ServerEvents.EventTable.UnsubscribeAll` | score/socom/impl/server_connector_impl.cpp:193-197 | the loop forgets all and reports each subscriber once, in order |
| `Pairing.DatabaseHoldsTheLiving` | score/socom/impl/runtime_impl.cpp:365-398 | in every run each record holds exactly the registrations made and not yet destroyed |
| `Pairing.RecordsAreServices` | score/socom/impl/runtime_impl.hpp:115-121 | registrations share a record exactly when name, major version and instance agree, whatever the minor versions |
| `Pairing.PairingIsExact` | score/socom/impl/runtime_impl.cpp:491-550 | a call indicates a server to a client exactly when it completes the overlap of the two with a compatible minor version |
| `Pairing.EveryOverlapPairsOnce` | score/socom/impl/runtime_impl.cpp:491-550 | every overlapping pair is connected once, by the later one, and never when the client's minor version exceeds the server's |
| `Pairing.Runtime.constructor` | score/socom/impl/runtime_impl.cpp:310-324 | no records |
| `Pairing.Runtime.GetRecord` | score/socom/impl/runtime_impl.cpp:312-324 | finds the record without regard to the minor version, or makes it |
| `Pairing.Runtime.RegisterClientConnector` | score/socom/impl/runtime_impl.cpp:491-523 | refuses a duplicate, otherwise stores the client and pairs it |
| `Pairing.Runtime.RegisterServerConnector` | score/socom/impl/runtime_impl.cpp:525-550 | stores the server and pairs it |
| `Pairing.Runtime.DestroyRegistration` | score/socom/impl/runtime_impl.cpp:371-391 | resets the entry of the record |
| `Bridges.KeysOf` | score/socom/impl/runtime_impl.cpp:176-177 | lists each request of the map once |
| `Bridges.CallAll` | score/socom/impl/runtime_impl.cpp:185-191 | calls the bridge once per request of the round |
| `Bridges.Merge` | score/socom/impl/runtime_impl.cpp:196-219 | attaches the results to the requests that are still there and collects the new ones |
| `Bridges.RegisterBridge` | score/socom/impl/runtime_impl.cpp:162-227 | whatever other threads do meanwhile, the loop ends, has called the bridge once for every request ever seen, and all requests left are called |
| `Bridges.StayingRequestIsAttached` | score/socom/impl/runtime_impl.cpp:196-219 | a request that stays in the map from its round on has the bridge attached |
| `Bridges.AttachedIff` | score/socom/impl/runtime_impl.cpp:196-219 | while other threads neither attach nor detach this bridge, it is attached exactly to the requests that stayed from the round that called it for them on |
| `Bridges.AttachedIsTheAnswer` | score/socom/impl/runtime_impl.cpp:196-219 | what is attached is the bridge's answer for that request |
| `Bridges.RoundStoresTheAnswer` | score/socom/impl/runtime_impl.cpp:196-219 | a round stores the bridge's answer where it attaches it, and keeps a handle that is there |
| `Bridges.OtherBridgesAreKept` | score/socom/impl/runtime_impl.cpp:196-219 | a round leaves the requests, their owners and the handles of all other bridges as it finds them |
| `Bridges.OtherBridgesSurvive` | score/socom/impl/runtime_impl.cpp:162-227 | over the whole registration a handle of another bridge that the other threads leave alone is still there at the end |
| `Bridges.ReturningRequestIsMissed` | score/socom/impl/runtime_impl.cpp:196-219 | one that is away at the merge of its round and comes back later is not attached by the loop |

## Left out

- The gateway and SOME/IP daemons, routing, local and remote service classes, and the null serializer: configuration, calls
  into other libraries and straight-line byte stores.
- Transport: reply channels, message frames, `check_and_cast` and the client and server wrappers. A send succeeds or fails as
  an input of the step; messages carry the key that the code looks up from service and instance.
- Creation, opening and unlinking of shared memory. Both sides see one region of bytes.
- Method calls over IPC and between connectors beyond their token behaviour, credentials, hashing, logging, error texts, the
  deadlock detector and memory ordering of atomics.
- Integer widths. Handles, keys, slot reference counts and tokens are unbounded, so wrap-around of `Remote_handle`, `Key_t`
  and the 32-bit reference counts is not modelled.
- Object form of the connectors. Their properties are about interleavings, so `Connectors` is a state machine on values and does
  not capture update in place of the connector objects; the per-event vectors are modelled in place in `ServerEvents`.
- Several servers on one record. `Pairing.Runtime.RegisterServerConnector` requires that the record has none, as the code
  asserts; the check of the duplicate in the runtime compares minor versions and is not modelled.
- Assertions of `add_mapping` and of the event-update handler on the tables of one client, and the one that a server connector
  can be made for a reply (`binding_base.cpp:587`); the tables are modelled as they behave without them.
- Payloads without a slot handle. A callback that was moved from is taken to be empty.
- Payloads of a local server that come neither from `allocate_event_payload` of their service nor from an update received for it.
  The acknowledgement that destroying a payload of a peer sends back to it is not a step.
- The service counts and shared-memory metadata stored with mappings, and the bridge forwarding rules of
  `is_forward_subscription` and `get_bridge_requests`.
- Liveness of the peers. Slots whose recipients disconnect, or whose acknowledgement finds no mapping, stay pending for ever, as in
  the code; `Publication.SlotComesBackIff` says exactly which.
- BindingSafety.ReplyKeepsHandshake: assumes, as all runs do, that a reply answers a Connect_service that was sent to that client;
  `BindingSafety.ReplyKeepsHandshakeIff` shows what happens otherwise. Messages come from clients that were added.
- ConnectorTermination.TeardownIsNeverStuck: user callbacks that call back into a connector whose mutex their caller holds. The
  mutex of a client connector is modelled where it is held across remove_client; the mutexes of the server and the runtime are
  never held across a callback and are the critical sections of the steps.
- How a peer comes to its mappings. `Consumers` lets a peer map the handle it chose after its Connect_service arrived, and the
  handle of a Connect_service it was sent, and drop mappings at any time. A message of its own that cannot be sent is no step.
