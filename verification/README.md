# Dashfetchr: custody ledger, delivery lifecycle, routing

This project models the core of the Dashfetchr last-mile platform and proves what
it promises: that the custody ledger is tamper evident and stays verifiable under
concurrent writers, that no delivery moves past a checkpoint without its evidence,
and that routing picks what its strategies say. `dafny verify dfyconfig.toml`
checks all of it.

## How it is organised

| files | what they hold |
|---|---|
| `Common`, `Events`, `Encoding`, `EncodingWitness`, `Hex` | ids, custody events and the evidence policy; the uninterpreted encodings, their laws, and an environment that meets them |
| `HashChain`, `TamperEvidence` | sealing and `Verify`; what an accepted chain proves and where `Verify` points |
| `RowCodec`, `CustodyStore`, `Recording`, `LedgerService` | the Postgres row codec, both custody stores, `Record` under stale tails, the classes |
| `StateGraph`, `Deliveries`, `Repositories` | the transition graph, the `Delivery` object, the delivery and AWB stores |
| `Carriers`, `Registry`, `Dimensions`, `Strategies`, `RoutingEngine` | everything `Decide` is made of |
| `Operations`, `Services` | booking, dispatch, custody and webhook as functions of the whole state, and as objects proved equal to them |
| `Interleaving`, `InterleavedSafety`, `InterleavedEvidence`, `InterleavedTheorems` | the same services with any number of calls in flight, one store access at a time: what the stores keep, what the ledger keeps, the theorems |
| `StaleCopies`, `Attempts`, `SoleLegs` | what copies in flight can still do to a delivery, exactly; which attempt the evidence belongs to; one delivery per AWB |
| `Provenance` | under any interleaving, which step gave each listed event, word for word |
| `Sequential`, `SequentialTheorems` | the same services one call at a time; every such call is one schedule of the interleaved system |
| `Effects` | what one booking, dispatch, record or webhook leaves behind, field by field |

Objects the program mutates are classes (`MemoryRepo`, `PostgresRepo`, `Ledger`,
`Delivery`, `DeliveryRepo`, `AwbRepo`, `CarrierRegistry`, the services). Their
methods are proved equal to functions of the old state, and the theorems are about
those functions; where Go leaves the order of a map open
(`GetByCarrierExternalID`, `ListByState`, `ListByRole`) and for `DispatchPending`
and `GetByInternalAWB` the contract is a relation instead. The repositories clone on the way in and out, so the maps
hold values.

## What is taken as given

- SHA-256 is an arbitrary function from byte strings to byte strings, with no law
  at all. The tamper theorems either give their conclusion or name two different
  preimages, computed from the given histories, that hash alike.
- JSON: `LawfulJson` says that two payloads marshal to the same text exactly when
  they have the same content (raw metadata up to white space); `LawfulColumns` says
  that the typed JSONB columns give back what could be written, but for the sign of
  zeros, that `{}` and `[]` stay as they are, and that what marshals as a whole
  marshals in parts. `EncodingWitness.LawsCanBeMet` builds an environment in which
  both hold and everything marshals. A theorem asks for these laws only where the
  store is the table, and for `LawfulJson` only where it speaks of hashes.
  Strings are valid UTF-8 without NUL.
- Coordinates are never computed with: they are `float64` bit patterns
  (`Common.Float64`). Weights, dimensions, confidences, weights of a strategy and
  scores are `real`, so rounding, infinities and NaN are not modelled for them.
- Money and times are unbounded integers (nanoseconds). The clock never goes back:
  every access may take time, never negative time.
- UUIDs, clock readings, elapsed time, prices and the carriers' answers are
  parameters. A drawn UUID is new: a step that would store one that is taken does
  not happen. Go map order is an arbitrary choice.
- A carrier is a value with fixed capabilities; its estimate and shipment answers
  are functions given to the call.

## Findings

Where the code and its documentation or expectations differ, the model follows the
code.

- `docs/ARCHITECTURE.md:337-350` shows `Verify` without the genesis seed and without
  the sequence test; the code has both.
- The hash does not cover `SequenceNum`, yet a position cannot be forged: `Verify`
  compares it with the index.
- Two accepted lists with the same last hash are the same history; equal length is
  a conclusion, not a hypothesis. But nothing in a list alone shows that events were
  dropped from its end, or that its last event was replaced and rehashed.
- A row keeps the hash exactly when the event survives it (`RowCodec.Survives`):
  its metadata is empty, or the JSONB text given back is not `{}` or `null` and has
  the same compact form; and no coordinate of its location or photos is a negative
  zero. `json.Marshal` hashes -0 as `-0`, and a JSONB number has no negative zero. An
  event recorded with a location on the equator or the Greenwich meridian given as
  -0, or with the metadata `{}`, is reported as tampered with when it is read back.
- So under any interleaving a list of the table verifies exactly if no accepted append
  for it lost a sign, collisions aside (`InterleavedTheorems.TableVerifiesIff`); with
  inputs free of negative zeros it always does. The services never send metadata.
- The table rejects exactly the events sealed to an outdated tail; the in-memory store
  takes them, and under any interleaving its lists verify exactly if it took none
  (`InterleavedTheorems.MemoryVerifiesIff`). Two overlapping first records break a list.
- A stored delivery can be shipped again exactly if a copy of it that can still be
  used is pending: the stored one, one being dispatched, or one that a call in flight
  may still save (`StaleCopies.ShipsAgainIff`). Three runs from an empty system end in
  two shipments: two dispatches that overlap; a dispatch that dies between shipment
  and save, then another; a record that read the pending copy and saves it after a
  complete dispatch.
- A terminal state is left exactly if a call in flight may still save the delivery in
  another state (`StaleCopies.TerminalIsLeftIff`). A rider-assigned webhook that read
  before a cancellation and saves after it brings the cancelled leg back.
- The evidence of a state always lies in the list, but it may be that of an earlier
  attempt: a record that read the delivery when it was assigned may be saved after that
  attempt failed and the delivery was assigned again. The state is then the one that was
  read, so comparing states does not help; if no save is of a copy that another save has
  overtaken, the evidence lies after the last assignment
  (`Attempts.EvidenceOfTheAttempt`).
- A rider named by a webhook is stored even on a terminal delivery; nothing else of
  it changes.
- The rider-assigned handler's step from pending to assigned is never taken: no
  delivery has an external id while it is pending.
- Dispatch copies no parcel dimensions, so the size filter never excludes a carrier
  whose limits are not negative.
- A slot of length zero passes `CreateBooking`'s own test and is refused by
  `Schedule`. `Cancel`'s extra guard refuses nothing the graph would allow.
- Registering a version that had been switched off beforehand switches it on.

## Model

| member | source | states |
|---|---|---|
| Common.Contains | internal/core/routing/engine.go:116-123 | the loop of `hasRole` (and of `supportsPickup` and `ListByRole`) is true exactly when the wanted value is listed |
| Hex.EncodeHasNoDelimiter | internal/core/custody/ledger.go:153-156 | the hex text of a hash never holds the byte 0x1f |
| Hex.EncodeAt | internal/core/custody/ledger.go:156 | two lower-case hex digits for every byte, the high one first |
| Hex.EncodeInjective | internal/core/custody/ledger.go:156 | different digests have different hex texts |
| Hex.SplitJoin | internal/core/custody/ledger.go:152-155 | the preimage is uniquely decodable: cutting at the first 0x1f gives back prev-hash and body |
| Events.Validate | internal/core/custody/event.go:98-149 | refused as invalid exactly without type, delivery or time; else for a photo exactly if the type is one of five and there is none; else for a location exactly if the type is one of seven and there is none |
| EncodingWitness.LawsCanBeMet | internal/infra/postgres/custody_repo.go:24-64 | the laws asked of JSON and of the columns can be met with every payload marshalled |
| HashChain.Seal | internal/core/custody/ledger.go:51-62 | a sealed event is the input with the drawn id, the position and prev-hash its tail gives (0 and genesis without one), and the hash of its own content; it fails exactly when the payload does not marshal |
| HashChain.ChainPrefix | internal/core/custody/ledger.go:77-100 | every prefix of a chain is a chain |
| HashChain.ChainExtend | internal/core/custody/ledger.go:51-62 | appending to a chain gives a chain exactly when the new event passes the three tests against its head |
| HashChain.VerifyAcceptsChains | internal/core/custody/ledger.go:77-100 | `Verify` accepts exactly the lists in which every event sits at its position, points at its predecessor and hashes to its own hash |
| HashChain.VerifyStopsAt | internal/core/custody/ledger.go:82-99 | after an intact prefix the verdict is that of the first event that fails a test |
| TamperEvidence.HashCoversContent | internal/core/custody/ledger.go:118-157 | after the same prev-hash, events equal in all hashed fields hash alike, and events that differ in one of them and hash alike are a collision |
| TamperEvidence.TamperEvident | internal/core/custody/ledger.go:77-157 | two accepted lists with the same last hash agree in length and, at every position, in number, links, id, delivery, type, times to the millisecond, actor, location, photos, signature, reason and metadata up to white space, or their first divergence is a hash collision |
| TamperEvidence.AnchoredPrefix | internal/core/custody/ledger.go:77-157 | one remembered hash pins all history before it, however the list grew since, or exhibits a collision |
| TamperEvidence.PreimageIsNotGenesis | internal/core/custody/ledger.go:106-111 | a non-empty chain whose last hash is the genesis hash is a collision with the genesis label |
| TamperEvidence.ReportedIndexIsLeast | internal/core/custody/ledger.go:82-99 | a reported index is the least one whose prefix is not accepted |
| TamperEvidence.PrefixVerifies | internal/core/custody/ledger.go:82-99 | every prefix of an accepted list is accepted |
| TamperEvidence.ChangedPayloadIsTampered | internal/core/custody/ledger.go:94-96 | changing any hashed field of an event and keeping its hash gives ErrTampered at that event, or a collision; an error if it cannot be hashed |
| TamperEvidence.ResealedEventBreaksSuccessor | internal/core/custody/ledger.go:87-89 | changing any hashed field and recomputing the hash gives a prev-hash mismatch at the successor, or a collision; at the end of the list it is accepted |
| TamperEvidence.RemovalLeavesGap | internal/core/custody/ledger.go:84-86 | removing an event gives a sequence gap at its place, unless it was the last |
| RowCodec.RowRoundTrip | internal/infra/postgres/custody_repo.go:24-64 | what was written is scanned back with times cut to the microsecond, nil photos made empty, zeros without sign and metadata as the column has it; whatever can be hashed can be written |
| RowCodec.MillisecondsSurvive | internal/core/custody/ledger.go:134 | cutting to microseconds does not move the millisecond that is hashed |
| RowCodec.ContentSurvivesIff | internal/infra/postgres/custody_repo.go:49-52 | the hashed content survives the row exactly when metadata survives and no coordinate is a negative zero |
| RowCodec.HashSurvivesIff | internal/infra/postgres/custody_repo.go:117-158 | the recomputed hash is unchanged if the event survives; if it does not, an unchanged hash is a collision |
| RowCodec.StoredChainVerifiesIff | internal/infra/postgres/custody_repo.go:93-115 | a chain read back from rows verifies if every event survives, and only if each one survives or collides |
| RowCodec.StoredLinkVerifiesIff | internal/infra/postgres/custody_repo.go:117-158 | an event recorded at the end of an accepted list is accepted when read back if it survives, else reported as tampered with at its own position, or it collides |
| RowCodec.LostOnTheWay | internal/infra/postgres/custody_repo.go:154-156 | metadata `{}` and a location given as -0 do not survive: the recorded event is reported as tampered with, or collides |
| CustodyStore.ResultSetIsExact | internal/infra/postgres/custody_repo.go:94-100 | the result set is in sequence order and holds exactly the delivery's rows, each as often as the table |
| CustodyStore.LastIsLastOfList | internal/infra/postgres/custody_repo.go:74-91 | the tail is the last element of the list, in both stores |
| CustodyStore.AppendGrows | internal/infra/memory/custody_repo.go:23-35 | an accepted new event that continues its list goes to its end, in either store, and every other list stays as it was |
| CustodyStore.AppendKeepsReadable | internal/infra/postgres/custody_repo.go:24-64 | after such an append every list can still be scanned, each under its own delivery |
| CustodyStore.DuplicateIsSkipped | internal/infra/memory/custody_repo.go:23-35 | an event id that is listed already, in the delivery (memory) or anywhere (table), is skipped without an error |
| CustodyStore.RejectedIffOccupied | migrations/0001_initial.up.sql:178 | the table rejects a new event that can be written exactly when its delivery already has that sequence number |
| LedgerService.MemoryRepo.Append | internal/infra/memory/custody_repo.go:23-35 | the loop finds a duplicate id, or the list grows by the event |
| LedgerService.PostgresRepo.Append | internal/infra/postgres/custody_repo.go:24-72 | builds the row column by column and inserts it: a known event id is skipped; a column that cannot be marshalled or an occupied sequence number is an error that changes nothing |
| LedgerService.PostgresRepo.LastByDelivery | internal/infra/postgres/custody_repo.go:74-91 | scans the row with the highest sequence number |
| LedgerService.PostgresRepo.ListByDelivery | internal/infra/postgres/custody_repo.go:93-115 | scans all rows in order, or fails if one cannot be scanned |
| LedgerService.Ledger.Record | internal/core/custody/ledger.go:41-68 | validates, reads the tail, seals, hashes and appends; every error leaves the store as it was |
| LedgerService.Ledger.Verify | internal/core/custody/ledger.go:77-100 | the loop's verdict is that of the specification on the listed events |
| Recording.StaleWriter | internal/core/custody/ledger.go:41-68 | an event sealed to the tail of a prefix is taken by the table exactly when that tail is current, by the memory store always; it goes to the end of its list, whose numbers stay without gap exactly when the tail was current |
| Recording.StaleWriterChain | internal/core/custody/ledger.go:41-68 | the list stays a chain if the tail was current and the store keeps the hash, and only then, collisions aside |
| Recording.RecordExtendsOwnList | internal/core/custody/ledger.go:41-68 | an uninterleaved Record succeeds exactly when the event validates and marshals, adds that sealed event to the end of its own list and leaves every other list alone; else the error is the defect, or the failed marshalling |
| Recording.RecordExtendsOwnChain | internal/core/custody/ledger.go:41-68 | the list is a chain after an uninterleaved Record exactly if it was one and the event, if it was taken, keeps its hash, collisions aside |
| StateGraph.EdgesAre | internal/core/delivery/state.go:29-63 | the graph has exactly these twenty-one edges |
| StateGraph.GraphShape | internal/core/delivery/state.go:29-73 | a state is terminal exactly when no edge leaves it; nothing returns to pending; no self-loops |
| StateGraph.WalkLengthBound | internal/core/delivery/state.go:29-68 | with k retries at most 6k + 7 transitions |
| StateGraph.WalkLengthTight | internal/core/delivery/state.go:29-68 | for every k that bound is reached |
| StateGraph.DeliveredAttempt | internal/core/delivery/state.go:29-68 | a delivered leg's last attempt is one of exactly three routes, all through locker and pickup |
| StateGraph.CancelledAttempt | internal/core/delivery/state.go:29-68 | a cancelled leg was not picked up since it last became assigned |
| Deliveries.CancelGuardIsImplied | internal/core/delivery/delivery.go:155-163 | Cancel's guard refuses nothing the graph would allow |
| Deliveries.TraceIsWalk | internal/core/delivery/delivery.go:108-181 | whatever methods are called, the states visited follow the graph and end in the delivery's state |
| Deliveries.RunsObeyTheGraph | internal/core/delivery/delivery.go:108-181 | for every sequence of method calls: the length bound, the delivered route and no pickup before a cancellation in the last attempt |
| Deliveries.PickedUpThenCancelled | internal/core/delivery/delivery.go:155-173 | a leg picked up in an earlier attempt can end cancelled with its pickup time still set |
| Deliveries.Delivery.Transition | internal/core/delivery/delivery.go:165-181 | moves along an edge of the graph or changes nothing |
| Deliveries.Delivery.MarkPickedUp | internal/core/delivery/delivery.go:132-138 | exactly from en_route_pickup: picked_up with the pickup time |
| Deliveries.Delivery.MarkDelivered | internal/core/delivery/delivery.go:141-147 | exactly from in_transit and en_route_drop: delivered with the drop time |
| Deliveries.Delivery.MarkFailed | internal/core/delivery/delivery.go:150-152 | exactly from the five active states: failed with the reason |
| Deliveries.Delivery.AssignRider | internal/core/delivery/delivery.go:122-128 | exactly from pending and failed: assigned with the rider |
| Deliveries.Delivery.Cancel | internal/core/delivery/delivery.go:155-163 | exactly from pending, assigned and en_route_pickup: cancelled with the reason |
| Deliveries.Delivery.Schedule | internal/core/delivery/delivery.go:108-119 | sets the window exactly if it is not empty and does not start in the past |
| Repositories.SaveKeepsIndexIff | internal/infra/memory/delivery_repo.go:28-47 | a save keeps the byAWB index exact exactly when it does not move a stored delivery to another AWB |
| Repositories.ListByAWBIsExact | internal/infra/memory/delivery_repo.go:60-72 | after any run of saves that moves none, ListByAWB gives exactly the AWB's deliveries, each once, in first-save order |
| Repositories.DeliveryRepo.Save | internal/infra/memory/delivery_repo.go:28-47 | stores the clone and adds the id to its AWB's list unless it is there; nil is refused |
| Repositories.DeliveryRepo.GetByID | internal/infra/memory/delivery_repo.go:49-58 | a new object equal to the stored one, or not found |
| Repositories.DeliveryRepo.ListByAWB | internal/infra/memory/delivery_repo.go:60-72 | the stored deliveries of the AWB's id list |
| Repositories.DeliveryRepo.GetByCarrierExternalID | internal/infra/memory/delivery_repo.go:74-84 | a stored delivery with that carrier and external id, or none has them |
| Repositories.DeliveryRepo.ListByState | internal/infra/memory/delivery_repo.go:86-103 | distinct deliveries in the state, at most the limit, all of them if fewer |
| Repositories.AwbSaveKeepsAgreementIff | internal/infra/memory/awb_repo.go:28-38 | a save keeps the two maps in agreement exactly when it does not renumber an AWB its old number still leads to |
| Repositories.AwbRepo.Save | internal/infra/memory/awb_repo.go:28-38 | both maps updated; every number still leads to a stored AWB |
| Repositories.AwbRepo.GetByInternalAWB | internal/infra/memory/awb_repo.go:51-60 | in an agreeing store the AWB found bears that number and is the one GetByID gives for its id |
| Registry.RunsStayCoherent | internal/carrier/registry.go:42-86 | after any calls, failed ones included: every id has a primary, the primary is registered, adapters sit under their own id |
| Registry.GetIsPrimaryOrNothing | internal/carrier/registry.go:88-114 | Get answers with the primary of that id, exactly when the id is known and its primary is enabled; not registered exactly for an unknown id |
| Registry.RegisterGoesLive | internal/carrier/registry.go:42-68 | a registered version is enabled at once, becomes primary only for a new id, and changes no other answer |
| Registry.RegisterAddsOne | internal/carrier/registry.go:42-68 | the registered version answers with its adapter, every other version as before |
| Registry.SetPrimaryMovesGet | internal/carrier/registry.go:70-79 | making a version primary changes what Get answers for its own id only, to that version |
| Registry.SetEnabledSwitchesOne | internal/carrier/registry.go:81-86 | switching a version decides its own availability and changes no other answer; switching an enabled one off and on again restores the registry |
| Registry.ListingsHaveSameMembers | internal/carrier/registry.go:116-133 | two listings of one registry differ in order only |
| Registry.CarrierRegistry.Register | internal/carrier/registry.go:42-68 | refused for nil, an empty id or a version already taken, else the new state; stays coherent |
| Registry.CarrierRegistry.SetPrimary | internal/carrier/registry.go:70-79 | refused for an unregistered version, else the new state; stays coherent |
| Registry.CarrierRegistry.SetEnabled | internal/carrier/registry.go:81-86 | switches one version; stays coherent |
| Registry.CarrierRegistry.Get | internal/carrier/registry.go:88-100 | the primary adapter, or the error |
| Registry.CarrierRegistry.ListByRole | internal/carrier/registry.go:116-133 | each carrier at most once, and exactly those Get answers with that advertise the role |
| Dimensions.SortedIsDescendingPermutation | internal/core/routing/engine.go:140-148 | the result is descending and a permutation of the input |
| Dimensions.SortedComparisonIsRotation | internal/core/routing/engine.go:125-138 | comparing the sorted triples decides whether some of the six rotations fits on every axis |
| Dimensions.SortDesc | internal/core/routing/engine.go:140-148 | the loops over the array compute that sorted triple in place |
| Dimensions.ExceedsDims | internal/core/routing/engine.go:125-138 | false exactly when some rotation of the parcel fits |
| Strategies.BestIsFirstGreatest | internal/core/routing/strategy.go:107-121 | the loop's pick is the first of the greatest, none exactly when nothing is available |
| Strategies.SelectIsGreatest | internal/core/routing/strategy.go:35-126 | fails exactly when no candidate is available; otherwise no available one scores higher and the score is the chosen one's |
| Strategies.CheapestIsCheapest | internal/core/routing/strategy.go:35-54 | no available candidate costs less; the score is minus the cost |
| Strategies.FastestIsFastest | internal/core/routing/strategy.go:64-83 | no available candidate is faster; the score is minus the ETA |
| Strategies.ExtremesBound | internal/core/routing/strategy.go:138-165 | minimum and maximum are elements and bound all others |
| Strategies.WeightedPickIsParetoOptimal | internal/core/routing/strategy.go:97-126 | with positive weights no available candidate dominates the pick in cost, ETA and confidence |
| Strategies.WeightedPickHasGreatestSum | internal/core/routing/strategy.go:97-126 | the score is minus cost weight times the cost's place between the least and greatest available cost, minus ETA weight times that of the ETA, plus confidence weight times confidence, a term being 0 in an empty range; no available candidate exceeds it |
| Strategies.WeightedScoreBounds | internal/core/routing/strategy.go:97-172 | with confidences in 0..1 the score lies between -(cost weight + ETA weight) and the confidence weight |
| Strategies.WeightedIgnoresUnits | internal/core/routing/strategy.go:97-172 | putting all costs and all ETAs through positive affine maps changes neither pick nor score |
| Strategies.SelectIgnoresOrder | internal/core/routing/strategy.go:35-126 | the order of the candidates changes neither success nor score |
| Strategies.SelectCheapest | internal/core/routing/strategy.go:35-54 | the loop equals the specification |
| Strategies.SelectFastest | internal/core/routing/strategy.go:64-83 | the loop equals the specification |
| Strategies.FilterAvailableLoop | internal/core/routing/strategy.go:128-136 | exactly the available candidates, in order |
| Strategies.MinMaxCost | internal/core/routing/strategy.go:138-150 | the loop computes the least and the greatest cost |
| Strategies.MinMaxETA | internal/core/routing/strategy.go:152-165 | the loop computes the least and the greatest ETA |
| Strategies.SelectWeighted | internal/core/routing/strategy.go:97-126 | the loop over normalized scores equals the specification |
| Strategies.RunStrategy | internal/core/routing/strategy.go:14-16 | whichever strategy is configured, the selection is the specified one |
| RoutingEngine.Eligible | internal/core/routing/engine.go:90-114 | keeps exactly the carriers that pass the structural filter |
| RoutingEngine.DecideErrorsExactly | internal/core/routing/engine.go:40-72 | fails exactly when no carrier is eligible or none of the eligible estimates; the chosen one is listed, eligible and estimated; the candidates are the eligible carriers with their estimates |
| RoutingEngine.DecideIsOptimal | internal/core/routing/engine.go:40-81 | cheapest (fastest): least cost (ETA) among all eligible carriers with estimates; weighted: not dominated by any of them |
| RoutingEngine.DecideWeighs | internal/core/routing/engine.go:40-81 | weighted: the chosen carrier has the greatest weighted sum of all eligible carriers with estimates, and that is the score |
| RoutingEngine.DecideIgnoresOrder | internal/core/routing/engine.go:40-81 | the order the registry map yields changes neither the outcome, the error nor the score |
| RoutingEngine.FilterEligible | internal/core/routing/engine.go:90-114 | the loop keeps, in order, exactly the carriers with the role, the weight, a fitting rotation, the pickup mode and, for a locker, locker access |
| RoutingEngine.RunDecide | internal/core/routing/engine.go:40-81 | the loops and the selection equal the specified decision |
| Operations.BookingAcceptedIff | internal/app/booking/service.go:71-118 | a booking is accepted exactly for a non-empty slot not in the past and at most 50 kg |
| Operations.DispatchIgnoresSize | internal/app/dispatch/service.go:121-148 | the request has no dimensions, so size excludes a carrier only for negative limits |
| Operations.ShipsToBestOffer | internal/app/dispatch/service.go:51-69 | a shipment goes to the offer the configured strategy ranks best, among listed last-mile carriers that take the weight, pick up in that way, with locker access for a locker, and estimated; if none is created there is no offer or the best one refuses |
| Operations.WebhookEvidenceAlwaysValid | internal/app/webhook/service.go:146-167 | whatever the carrier left out, the recorded event satisfies the evidence policy |
| Services.CustodyService.ApplyTransition | internal/app/custodyapp/service.go:90-109 | each event type makes its own transition on the object, from the states `Effects.Moved` lists, or leaves it alone |
| Services.CustodyService.Record | internal/app/custodyapp/service.go:44-79 | ledger first, then the transition, then the save; the outcome and both stores are as specified |
| Services.WebhookService.HandleDomainEvent | internal/app/webhook/service.go:54-96 | acts on a delivery with the carrier's external id and returns the custody service's outcome; does nothing exactly when there is no id or no such delivery |
| Services.WebhookService.Handle | internal/app/webhook/service.go:74-95 | each event type saves, records and returns what its function says; what that is, report by report, is `Effects.WebhookDoes` |
| Services.WebhookService.OnRiderAssignedEvent | internal/app/webhook/service.go:98-126 | saves the rider, then records the assignment, even without a rider id, and returns its outcome |
| Services.WebhookService.RecordCustody | internal/app/webhook/service.go:128-168 | builds the input with placeholders where evidence is missing, records it and returns the event or the error |
| Services.DispatchService.DispatchDelivery | internal/app/dispatch/service.go:37-95 | routes, creates the shipment and assigns a pending delivery; in every failure nothing is saved |
| Services.DispatchService.Route | internal/app/dispatch/service.go:51-69 | at most one shipment is created, for the decided carrier, under the delivery's key |
| Services.DispatchService.DispatchPending | internal/app/dispatch/service.go:99-119 | tries min(limit, number pending) distinct pending deliveries (limit 20 if not positive); each is assigned to its best offer, or unchanged for a missing AWB, no offer or a refusal by the best one; no other changes; returns the number assigned, each with its one shipment |
| Services.BookingService.CreateBooking | internal/app/booking/service.go:71-155 | saves both aggregates and returns their ids, number, quote, currency and state, or saves and returns nothing; succeeds exactly for an acceptable slot and weight |
| Services.BookingService.Prepare | internal/app/booking/service.go:71-132 | builds the AWB at the locker and the pending scheduled leg, or fails |
| Services.BookingService.GetBooking | internal/app/booking/service.go:158-168 | both parts, or not found if either is missing |
| Services.OneLessPending | internal/app/dispatch/service.go:37-95 | a successful dispatch takes one delivery out of pending and adds one shipment; a failed one changes nothing |
| Effects.BookingDoes | internal/app/booking/service.go:71-155 | every field of the AWB and the leg an accepted booking stores, and of its answer |
| Effects.DispatchDoes | internal/app/dispatch/service.go:37-82 | a dispatch assigns a pending delivery to its best offer with that carrier's id and answers and ships it under its own key; else it changes nothing, because the delivery is not pending, its AWB is missing, there is no offer or the best one refuses |
| Effects.RecordedAsGiven | internal/app/custodyapp/service.go:44-63 | an accepted record ends its list with the drawn id, the next number, the time of the call and the delivery, type, actor, location, photos and reason it was given (in the table up to signs of zeros and microseconds) |
| Effects.RecordAcceptedIff | internal/app/custodyapp/service.go:44-58 | where everything marshals: accepted exactly for a stored delivery, a type, a time and the photo and location its type demands |
| Effects.TransitionIsMove | internal/app/custodyapp/service.go:90-109 | for each event type and state, the delivery that results, and which are refused |
| Effects.RecordMoves | internal/app/custodyapp/service.go:44-79 | an accepted record moves its own delivery that way, stamped with the time of the move, and no other; recorded only if the transition was refused; a refused one changes nothing |
| Effects.WebhookDoes | internal/app/webhook/service.go:54-168 | for each carrier report: the event added (type, actor, the carrier's place and photo or the placeholders, reason) or none, the delivery that results from each state, the rider, the cancellation, and nothing else; the event is added if everything marshals |
| Effects.WebhookAnswers | internal/app/webhook/service.go:74-95 | the outcome: none for a cancellation and unhandled reports, else that of the record, with the reported event; saved exactly if the state changed |
| Interleaving.TransitionCompletesTrail | internal/app/custodyapp/service.go:60-66 | recording an attested event and making its transition completes the evidence of the new state |
| Interleaving.CallStays | internal/app/custodyapp/service.go:44-79 | whatever other calls do to the stores, what a call in flight relies on stays true |
| InterleavedSafety.NextOk | internal/app/custodyapp/service.go:44-79 | every step of every service keeps the invariant of deliveries, AWBs, shipments and calls, which only grow; no encoding is involved |
| InterleavedEvidence.AppendSealed | internal/core/custody/ledger.go:47-66 | an accepted append under a possibly stale tail goes to the end of its own list; in the table its tail was current |
| InterleavedEvidence.NextEvidence | internal/app/custodyapp/service.go:44-109 | every step keeps the evidence behind every copy, stored or in flight, and every list grows at its end only |
| InterleavedEvidence.NextChain | internal/core/custody/ledger.go:47-66 | a list stays a chain unless an append was sealed to an outdated tail or loses a sign; then it is one no more, collisions aside in the second case |
| Provenance.AppendedAsGiven | internal/app/custodyapp/service.go:44-63 | under any interleaving an accepted append adds to its list exactly what the record or webhook that began the call gave, under the drawn id, stamped between that moment and now |
| Provenance.EveryEventWasGiven | internal/app/custodyapp/service.go:44-63 | under any interleaving every listed event holds the input of a record or the report of a carrier that some step of the run began with, stamped at a time since |
| InterleavedTheorems.TableIsAlwaysNumbered | internal/core/custody/ledger.go:41-68 | with any interleaving of any number of calls the lists of the table are readable and numbered 0 to n-1 |
| InterleavedTheorems.ListVerifiesIff | internal/core/custody/ledger.go:41-100 | with any interleaving and in either store a list verifies if no accepted append for it was sealed to an outdated tail or lost a sign, and only if none was stale and each lost sign collides |
| InterleavedTheorems.MemoryVerifiesIff | internal/infra/memory/custody_repo.go:23-56 | with any interleaving a list of the in-memory store verifies exactly if no accepted append for it was sealed to an outdated tail |
| InterleavedTheorems.TableVerifiesIff | internal/core/custody/ledger.go:41-100 | with any interleaving a list of the table verifies if no accepted append for it lost a sign, and only if each lost one collides |
| InterleavedTheorems.TableAlwaysVerifies | internal/core/custody/ledger.go:41-100 | with any interleaving of inputs free of negative zeros every list of the table verifies |
| InterleavedTheorems.StaleWriterCanOnlyFail | internal/core/custody/ledger.go:47-66 | in every reachable state a writer holding an outdated tail fails and changes nothing |
| InterleavedTheorems.ListsOnlyGrow | migrations/0001_initial.up.sql:185-200 | an earlier custody list is a prefix of every later one, in both stores and under any interleaving; what Verify rejected once it rejects forever |
| InterleavedTheorems.EvidenceBehindEveryState | internal/app/custodyapp/service.go:44-109 | any copy of a delivery in state delivered, stored or in flight, has arrival, pickup and delivery events in this order, each with photo and location; earlier states the matching beginnings |
| InterleavedTheorems.ActualTimesAreConsistent | internal/core/delivery/delivery.go:132-147 | delivered exactly when the drop time is set; picked up or later implies the pickup time; pickup is not after drop, across retries and interleavings |
| InterleavedTheorems.StoresAlwaysCoherent | internal/app/booking/service.go:134-139 | at every moment, also between the two saves of a booking, the indexes are exact and every stored delivery's AWB exists |
| SoleLegs.ListByAWBIsTheOneLeg | internal/app/booking/service.go:134-139 | in every reachable state ListByAWB gives exactly the one delivery of that AWB |
| InterleavedTheorems.OneKeyPerDelivery | internal/app/booking/service.go:121 | shipments share an idempotency key exactly when they are for the same delivery |
| InterleavedTheorems.WebhookNeverFindsPending | internal/app/webhook/service.go:98-108 | no delivery a webhook finds is pending |
| InterleavedTheorems.FreshStepFollowsGraph | internal/core/delivery/state.go:29-68 | a step whose save is not stale moves every stored state along one edge at most |
| InterleavedTheorems.TerminalIsFinalWithoutStaleSaves | internal/core/delivery/state.go:70-73 | without stale saves a terminal state is final under any interleaving |
| StaleCopies.ShipsAgainIff | internal/app/dispatch/service.go:37-82 | from a reachable state some continuation ships a stored delivery again exactly if a copy of it that can still be used is pending: stored, being dispatched, or one a call may still save |
| StaleCopies.TerminalIsLeftIff | internal/core/delivery/state.go:65-73 | from a reachable state some continuation leaves a terminal state exactly if a call in flight may still save the delivery in another state |
| StaleCopies.Realize | internal/app/custodyapp/service.go:44-79 | whatever state a call in flight may save a delivery in, some continuation stores it |
| StaleCopies.ExecConfined | internal/app/custodyapp/service.go:44-79 | a delivery confined, stored and in flight, to a set of states the graph does not leave stays there in every continuation |
| StaleCopies.Booked | internal/app/booking/service.go:71-139 | an accepted booking in an empty system leaves one pending delivery, nothing shipped and no call in flight |
| StaleCopies.OverlappingDispatchesShipTwice | internal/app/dispatch/service.go:37-82 | from an empty system: two dispatches that both read the pending delivery ship it twice |
| StaleCopies.DiedDispatchShipsTwice | internal/app/dispatch/service.go:63-82 | from an empty system: a dispatch that dies between shipment and save, and then another, ship twice without overlap |
| StaleCopies.StaleRecordShipsTwice | internal/app/custodyapp/service.go:44-70 | from an empty system: a record that read the pending copy saves it after a complete dispatch, and the delivery is shipped again |
| StaleCopies.OverlappingRecordsBreakMemory | internal/infra/memory/custody_repo.go:23-35 | from an empty system: two records that both read the empty list are both taken by the in-memory store, and Verify reports a sequence gap at 1 |
| StaleCopies.StaleSaveRevivesCancelled | internal/app/webhook/service.go:98-113 | from an empty system: a rider webhook that read before a cancellation and saves after it makes the cancelled delivery assigned |
| Attempts.NextAttempt | internal/app/custodyapp/service.go:44-79 | a step whose save is not of an overtaken copy keeps, for the stored delivery and every copy not overtaken, the evidence since it last became assigned |
| Attempts.EvidenceOfTheAttempt | internal/app/custodyapp/service.go:44-109 | with any interleaving without saves of overtaken copies, the evidence of the stored state lies after the last time the delivery became assigned |
| Attempts.StaleSaveBorrowsEvidence | internal/app/custodyapp/service.go:60-70 | from an empty system: a save that finds the very state it read, one attempt later, leaves the delivery in a state without evidence since it became assigned |
| Sequential.EveryCallIsASchedule | internal/app/custodyapp/service.go:44-79 | every service call run alone is one schedule of the interleaved system |
| SequentialTheorems.RecordEffect | internal/app/custodyapp/service.go:44-79 | a refused event changes nothing; a recorded one stays recorded even if its transition is refused; deliveries move along one edge at most, terminal ones not at all |
| SequentialTheorems.RecordLedger | internal/app/custodyapp/service.go:44-63 | an accepted record adds one event to its own list, a refused one nothing; no other list moves; numbers stay without gap |
| SequentialTheorems.DispatchEffect | internal/app/dispatch/service.go:37-82 | one pending delivery becomes assigned with one shipment and no other delivery changes, or nothing happens |
| SequentialTheorems.PerformOk | internal/app/custodyapp/service.go:44-79 | every call keeps the stores coherent, ships for no delivery twice and only makes them grow |
| SequentialTheorems.LedgersVerifyAndGrow | internal/core/custody/ledger.go:41-73 | calls run one at a time: each earlier list is a prefix of the later; lists verify always in memory, in the table if no input has a negative zero |
| SequentialTheorems.BookingIsFound | internal/app/booking/service.go:134-152 | a booked delivery is found by id and alone under its AWB, the AWB by id and number; state, pickup at the locker, slot and key are as booked |
| SequentialTheorems.AtMostOneShipment | internal/app/dispatch/service.go:37-119 | over a whole run each delivery gets at most one shipment |
| SequentialTheorems.TerminalIsFinal | internal/core/delivery/state.go:65-73 | whatever is called after a terminal state, nothing of the delivery changes but the rider |
| SequentialTheorems.HistoryIsWalk | internal/core/delivery/state.go:29-68 | the stored states of a delivery over a run start at pending and follow the graph |
| SequentialTheorems.ServicesObeyTheGraph | internal/core/delivery/state.go:29-68 | the length bound, the delivered route and the cancelled route hold of everything the services do |
| SequentialTheorems.ReplayedRecord | internal/app/custodyapp/service.go:60-70 | replaying an accepted custody event at once changes no delivery |
| SequentialTheorems.ReplayedRecordLedger | internal/app/custodyapp/service.go:60-70 | the list takes the replay as exactly one more event, or refuses it, and verifies exactly if it did before, when nothing is lost |
| SequentialTheorems.ReplayedWebhook | internal/app/webhook/service.go:74-168 | replaying a webhook at once, whose custody event was accepted, changes no delivery |
| SequentialTheorems.ReplayedWebhookLedger | internal/app/webhook/service.go:74-168 | the list grows by exactly the accepted replay of its custody event, by nothing if there is none, and verifies exactly if it did before, when nothing is lost |
| SequentialTheorems.EvidenceOfTheLastAttempt | internal/app/custodyapp/service.go:44-109 | calls run one at a time: the evidence of the stored state lies after the last time the delivery became assigned |

## Left out

- HTTP server, handlers, middleware, auth, configuration, `cmd/*`, logging and the event bus: plumbing.
- The routing-decision log and the published rider-assigned event of a dispatch: their errors are ignored and nothing reads them back here.
- The Bolt adapter, its signature check and `ParseWebhook`; `Process` and its loop, which hands the parsed events to `HandleDomainEvent` one by one.
- Generation of UUIDs and AWB numbers: they are parameters assumed not to have been drawn before.
- Pricing and the haversine distance: the quote is a number handed in.
- `CreatedAt`, `UpdatedAt`, charged price and delivery metadata; the carrier time of an event is in the codec and the hash, but no service sets it.
- The AWB state graph beyond created to at_locker, and the AWB's fields no service reads; an AWB is a value, so `Transition` and `AttachExternal` on it are functions.
- The Postgres delivery, AWB and routing repositories; the foreign key of `custody_events`; store errors other than a rejected append, a row that cannot be scanned and, in the interleaved system, a call that ends at any access.
- `VerifyAll` of the in-memory custody store and `All` of the registry: nothing in the services uses them. `GetVersion` is a function only.
- 64-bit overflow, in particular of the negated cost and ETA that the first two strategies report as score.
- `reasoning` texts and currencies: no decision depends on them.
- Delivery states and location types outside the constants the code declares.
- Geofencing, zone containment, fallback to another carrier and awaiting_confirmation: documented, not in the code.
