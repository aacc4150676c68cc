# Verified model of the mobile NDN node

The repository is a Named Data Networking forwarder for phones (crates/ndn-mobile) and the FFI layer an app drives it
with (crates/ndn-boltffi). This project models the parts of it that carry state, concurrency or wire arithmetic, and
proves what they keep over every run.

| Files | What they model |
|---|---|
| `RelayProtocol`, `RelaySafety`, `RelayResults`, `RelayDemand`, `RelayStore`, `RelayRuntime`, `ContentStream`, `RdrObject` | the producer of record for a streamed file: Interest handlers, the demand-paced relay, one-shot re-fetches and the keyless leaf that streams under credit |
| `NdntsCodec` | the BLE fragmenter, the reassembler and the TLV parser that finds the end of a packet |
| `OfferBoard`, `Json`, `OrderedMap`, `Utf8` | the offer board, its manifest ring, and the hand-written JSON printer with a parser that inverts it |
| `RemoteSigner` | signing calls over one connection, recognised by Interest name only |
| `BulkRouting` | peer routes, strategies and bulk pins of the node, with suspend and resume |
| `InfraSocket`, `DottedQuad` | the one Wi-Fi-bound socket of the same-access-point path, and the text test that guards it |
| `PeerTable`, `PeerDataset` | the lazily expiring table of nearby peers and the JSON dataset served from it |
| `Tunnel` | the VPN datapath: credit-gated uplink, in-order link, downlink |
| `Basics` | shared datatypes and sequence lemmas |

`dafny verify dfyconfig.toml` checks the whole project.

## How the models are built

A concurrent component is a step relation: a `State`, an `Event` for each atomic action of each actor and for each thing
that can go wrong, `Enabled` (or `CanHappen`) and `Next`. `Runs(s, es, t)` says that the interleaving `es` leads from
`s` to `t`. An invariant is kept by every step, and the results quantify over every run. In the relay the steps are as
fine as the code's own: raising the front and notifying are two steps, and so are the pacing check and the wait.

Where the source changes fields in place there is also a class with those fields and methods with the source's control
flow. Each method is proved to perform a run of the step relation, or to bring about the state that a specification
function gives, so what is proved about runs and functions holds of the methods. `RelayRuntime.RelayNode` goes furthest:
every await of the handler closure and of the relay loop is a call after which the other actors may have taken any steps.

"Eventually" is made finite. A natural-number measure of remaining work shrinks with each step the relay's actors take by
themselves, so each run that is left alone comes to rest, and "is answered" means "has been answered in every state where
no actor can move".

## What turned out not to hold

These are properties one might expect. For each there is a run or a family of inputs where it fails, and the exact
condition under which it holds.

- The relay's lead over demand is not bounded by the lookahead when a signature fails or a Data is lost on the seam: the
  loop goes on without raising `produced`, so it reads past its bound. Over every run the excess is at most one segment
  for each one lost or unsigned (`RelayResults.LeadWithinSkips`), one is enough to exceed the bound
  (`RelayResults.LeadOverrunsAfterSignFailure`), and the bound can be exceeded at all if and only if the file has at least
  two segments more than the lookahead (`RelayResults.LeadOverrunsExactly`).
- The pacing sum `front + lookahead` is a machine word. A sleeping relay is ahead of demand if and only if the sum does
  not wrap (`RelayResults.SleepingRelayIsPaced`). Demands are not compared with the file, and one for segment `k` stops
  the fetches beside it if and only if `k + lookahead` wraps and what it wraps to is below the last segment
  (`RelayDemand.WrappingDemandExactly`). On such a `k` the relay stalls before the end of the file
  (`RelayResults.WrappingDemandStalls`) and stays so until a higher demand comes
  (`RelayResults.StalledUntilHigherDemand`).
- A segment lost behind the last committed one never comes back, because resubscribing does not rewind the leaf and a
  re-fetch needs `produced` to be beyond it (`RelayDemand.GoneForever`, `RelayDemand.TailLoss`,
  `RelayDemand.DemandServedExactly`).
- `ndnts_frame` exceeds `max_payload` when that is below 2 (`NdntsCodec.FramesFitExactly`), and an unfragmented packet
  whose first octet is at least 0x80 is taken for a fragment (`NdntsCodec.PacketRoundTripExactly`).
- `tlv_packet_end` adds in machine words; when the announced size wraps, what it cuts off is not an element, and a
  header alone is then cut (`NdntsCodec.EndIsElementExactly`, `NdntsCodec.WrappedSizeCutsTheHeader`).
- The key name derived from a certificate name is right exactly when the identity has no component that reads `KEY`
  (`RemoteSigner.KeyNameExactly`).
- A second bulk attach on one prefix replaces the first pin, and detaching the second face leaves the first one up
  without pin and without measured strategy (`BulkRouting.BulkIsPinnedExactly`,
  `BulkRouting.SecondAttachStrandsTheFirst`). Suspending removes bulk faces and leaves their pins
  (`BulkRouting.SuspendKillsPinsExactly`); a pinned face is there if and only if it was attached since the last
  suspension (`BulkRouting.PinnedIsLiveExactly`).
- A beacon's attach may go out on an address that is no longer ours: it is current if and only if the last change of
  address between its look and its attach, if any, restored the address read (`InfraSocket.AttachIsCurrentExactly`).
- A peer can be attached and not be reserved, so that it can be raised twice. One attach leaves its peer reserved if and
  only if nothing was cleared since its reservation (`InfraSocket.AttachStaysReservedExactly`); over whole runs the
  reserved peers are exactly those with an attach and its reservation both after the last clear
  (`InfraSocket.ReservedExactly`), and a clear leaves at most one attached peer free
  (`InfraSocket.AtMostOneAttachedButFree`). `InfraSocket.StaleAddressStillAttaches` is a run where both happen at once.
- A snapshot whose clock reading was overtaken by another one's may miss a peer that is fresh to it, exactly when the
  other found the peer stale (`PeerTable.SnapshotExactly`, `PeerTable.OvertakenSnapshotMisses`). Which faces,
  label and address a listed peer is shown with depends on when earlier snapshots were taken, unless the peer was never
  silent for 30 s (`PeerTable.NeverForgottenExactly`).

## Model

| member | source | states |
|---|---|---|
| `ContentStream.CreditConservation` | crates/ndn-boltffi/src/offer.rs:348-401 | in every interleaving of subscriptions, sends and failures the granted credit equals permits available plus permits forgotten, and the leaf has sent segments 0..n-1, each once and in order, n bounded by credit and by the file |
| `ContentStream.CreditIsSpent` | crates/ndn-boltffi/src/offer.rs:358-377 | with the seam up no credit is withheld: a streamer that cannot move has sent as many segments as credit and file allow |
| `ContentStream.FailureEndsStream` | crates/ndn-boltffi/src/offer.rs:365-373 | after a failed send nothing is sent any more, whatever is granted, and the permit is not given back |
| `ContentStream.LeafStreamer.AddPermits` | crates/ndn-boltffi/src/offer.rs:388-392 | a subscription adds its credit, at least one permit, and nothing else changes |
| `ContentStream.GrantedStreamCompletes` | crates/ndn-boltffi/src/offer.rs:358-377 | with the seam up and a grant before each send, as many wake-ups as there are segments send all of them |
| `ContentStream.LeafStreamer.Stream` | crates/ndn-boltffi/src/offer.rs:358-377 | the streamer loop, under any schedule of grants and failures, performs a run of the step relation, keeps the conservation law, and ends in the state the schedule determines: one segment for each wake-up that finds a permit |
| `RdrObject.ChunksFlatten` | crates/ndn-boltffi/src/offer.rs:318-323 | cutting a file into segments loses nothing: the segments concatenate to the file |
| `RdrObject.ChunksFull` | crates/ndn-boltffi/src/offer.rs:318-323 | every segment but the last is full, and the last is empty only for an empty file |
| `RelaySafety.InvStep` | crates/ndn-mobile/src/object_relay.rs:158-360 | every step of every actor, fault and consumer keeps content, order, learned prefix, absence of lost wakeups and the handlers' progress |
| `RelaySafety.InvReachable` | crates/ndn-mobile/src/object_relay.rs:158-360 | so do all reachable states |
| `RelaySafety.NoLostWakeupStep` | crates/ndn-mobile/src/object_relay.rs:185-186 | a relay that sleeps with no notification stored and no handler between raising and notifying is rightly paused, whatever step comes next |
| `RelaySafety.LearnedStep` | crates/ndn-mobile/src/object_relay.rs:315-324 | a positive `produced` implies that the leaf's prefix has been learned, and it is the leaf's |
| `RelaySafety.StepMonotone` | crates/ndn-mobile/src/object_relay.rs:185-189 | `front` and `produced` never decrease and the relay inputs are never put back |
| `RelayResults.SleepingRelayIsPaced` | crates/ndn-mobile/src/object_relay.rs:290-300 | no lost wakeup, over every run and for any demands: a relay blocked in the pacing wait with no permit and no pending notify has segments left, and it is beyond the current front plus the lookahead if and only if that sum fits a machine word |
| `RelayResults.WrappingDemandStalls` | crates/ndn-mobile/src/object_relay.rs:183-186 | for every demand whose pacing sum wraps to below the last segment there is a run, with nothing else demanded and nothing going wrong, to a relay stalled before the end of the file |
| `RelayResults.StalledUntilHigherDemand` | crates/ndn-mobile/src/object_relay.rs:293-300 | a relay so stalled commits nothing, and no consumer gets a segment it has not passed, until a higher demand comes, whatever else happens; after the greatest segment number that is for good |
| `RelayResults.SingleWriter` | crates/ndn-mobile/src/object_relay.rs:143-189 | at most one relay is ever started per object, whatever the handlers' interleaving, and one was started exactly when the relay is no longer idle |
| `RelayResults.CountersGrow` | crates/ndn-mobile/src/object_relay.rs:345 | both counters only grow over any run |
| `RelayResults.BoundedLead` | crates/ndn-mobile/src/object_relay.rs:290-345 | without losses and signing failures at most the requested lookahead, at least one, of committed segments lie beyond demand, whatever the file size, with any resubscriptions, evictions and re-fetch failures |
| `RelayResults.LeadWithinSkips` | crates/ndn-mobile/src/object_relay.rs:290-345 | over every run, with any faults, the committed segments lie at most the requested lookahead (at least one), one, and one more for each segment lost or unsigned beyond demand |
| `RelayResults.LeadOverrunsExactly` | crates/ndn-mobile/src/object_relay.rs:290-345 | some run exceeds the lookahead if and only if the file has at least two segments more than the lookahead |
| `RelayResults.LeadOverrunsAfterSignFailure` | crates/ndn-mobile/src/object_relay.rs:328-335 | on every such file a run with a single failed signature ends one segment past the bound |
| `RelayResults.ContentIsTheLeafs` | crates/ndn-mobile/src/object_relay.rs:209-345 | over every run with eviction, loss, resubscription and re-fetch, what is cached, published or answered under public segment k is the leaf's segment k |
| `RelayResults.FetchReassembles` | crates/ndn-mobile/src/object_relay.rs:209-345 | any complete fetch, of answers of any age, reassembles to the leaf's file |
| `RelayDemand.WorkShrinks` | crates/ndn-mobile/src/object_relay.rs:158-360 | every step an actor takes by itself uses up a natural-number measure of remaining work |
| `RelayDemand.InternalRunsEnd` | crates/ndn-mobile/src/object_relay.rs:158-360 | left alone, handlers, re-fetches, relay and leaf stop after at most that many steps, however scheduled |
| `RelayDemand.QuietMeansServed` | crates/ndn-mobile/src/object_relay.rs:290-300 | when no actor can move no tracked demand is left over, so the relay is not paused for ever before a demanded segment, unless a demand was made whose pacing sum wraps to below the last segment |
| `RelayDemand.NoDemandDropped` | crates/ndn-mobile/src/object_relay.rs:175-200 | a demand for a segment of the file is answered with the leaf's content by the time the actors rest, over every run that does not lose this very segment: subscriptions may fail and be renewed, other segments may be lost, unsigned, evicted or given up, and anything may be demanded whose pacing sum does not wrap to below the last segment |
| `RelayDemand.FetchCompletes` | crates/ndn-mobile/src/object_relay.rs:158-360 | if each segment of the file is demanded at some time in a run that does not lose it, then at rest there are answers for all of them, and they concatenate to the file |
| `RelayDemand.HarmlessFetchCompletes` | crates/ndn-mobile/src/object_relay.rs:158-360 | in particular in every run in which each segment is demanded and nothing happens but demands that fit, evictions, echoes and subscription errors |
| `RelayDemand.WrappingDemandExactly` | crates/ndn-mobile/src/object_relay.rs:183-300 | for every segment number: all demands for the file are answered in all runs with demands for that number beside them and nothing else going wrong, if and only if its pacing sum does not wrap or wraps to no less than the last segment |
| `RelayDemand.AvailableDemandAnswered` | crates/ndn-mobile/src/object_relay.rs:190-200 | after arbitrary faults, a demand for a segment the relay has passed, or will still receive, is answered in every schedule that spares that segment, with subscription errors and faults of other segments meanwhile |
| `RelayDemand.DemandServedExactly` | crates/ndn-mobile/src/object_relay.rs:190-200 | after arbitrary faults and demands that do not stall the relay, an uncached demand is answered in every schedule if and only if the segment is below `produced`, still to come, or being re-fetched |
| `RelayDemand.UnavailableDemandStarves` | crates/ndn-mobile/src/object_relay.rs:190-200 | otherwise there is a schedule in which all actors come to rest and the demand is still unanswered |
| `RelayDemand.GoneForever` | crates/ndn-mobile/src/object_relay.rs:277-289 | a segment lost behind the last committed one is never answered again, whatever happens |
| `RelayDemand.TailLoss` | crates/ndn-mobile/src/object_relay.rs:277-289 | on every file, a run with a single Data lost on the seam reaches such a state, with a demand left over |
| `RelayStore.PublishedIsServed` | crates/ndn-mobile/src/object_relay.rs:209-345 | over every run a Data that the relay or a re-fetch has published is in the content store until it is evicted, and an Interest for it adds exactly that Data to the answers and changes nothing else |
| `RelayStore.SentIsPublished` | crates/ndn-mobile/src/object_relay.rs:303-345 | over every run each segment the leaf has sent is published, still on the seam or in hand, or was lost or left unsigned; those below `produced` are published or skipped |
| `RelayStore.PassedIsServed` | crates/ndn-mobile/src/object_relay.rs:290-345 | the lookahead serves: over every run, an Interest for a segment that the relay has passed, that was neither lost nor left unsigned and was not evicted is answered from the store with the leaf's content, at once |
| `RelayStore.AnswersAreAskedFor` | crates/ndn-mobile/src/object_relay.rs:158-360 | over every run there are at most as many answers for a segment as Interests for it, and one fewer while one is pending |
| `RelayStore.ExpiredIsNotAnswered` | crates/ndn-mobile/src/object_relay.rs:158-360 | after a consumer gave up there are at most as many answers for the segment as new Interests |
| `RelayStore.ErrorRenewsSubscription` | crates/ndn-mobile/src/object_relay.rs:277-289 | after a subscription error the relay receives nothing before it has subscribed anew and granted the leaf a new credit |
| `RelayStore.RenewedExactly` | crates/ndn-mobile/src/object_relay.rs:268-304 | over every run, a relay that waits with nothing on the seam expresses its subscription again exactly when 64 Data have arrived under it |
| `RelayStore.FailedRefetchIsOver` | crates/ndn-mobile/src/object_relay.rs:216-231 | a re-fetch that failed never answers, caches or publishes anything |
| `RelayRuntime.RelayNode.ServeMiss` | crates/ndn-mobile/src/object_relay.rs:175-200 | the handler closure, interrupted anywhere, performs the handler's steps in order and keeps the invariant |
| `RelayRuntime.RelayNode.CompareWithProduced` | crates/ndn-mobile/src/object_relay.rs:195 | the comparison that decides on a re-fetch is the handler's step of the relation |
| `RelayRuntime.RelayNode.SpawnRefetch` | crates/ndn-mobile/src/object_relay.rs:196-199 | a re-fetch starts only with a learned prefix |
| `RelayRuntime.RelayNode.Await` | crates/ndn-mobile/src/object_relay.rs:296-304 | between two steps of an actor the others may take any steps; an actor awaits only after a step of its own or when it has none to take, so the relay never sleeps over a stored notification, a segment or used-up credit |
| `RelayRuntime.RelayNode.RunRelay` | crates/ndn-mobile/src/object_relay.rs:249-360 | the relay loop with its nested loops performs a run of the step relation under every schedule and keeps the invariant |
| `RelayRuntime.RelayNode.TrySubscribe` | crates/ndn-mobile/src/object_relay.rs:273-289 | one attempt: subscribed exactly when it succeeds, stopped when cancelled, and otherwise ready to try again after the sleep |
| `RelayRuntime.RelayNode.WaitForDemand` | crates/ndn-mobile/src/object_relay.rs:290-300 | the pacing loop leaves for the receive, is cancelled, or the schedule ends while it waits |
| `RelayRuntime.RelayNode.Receive` | crates/ndn-mobile/src/object_relay.rs:301-306 | the receive yields a segment, asks for a new subscription, or is cancelled |
| `RelayRuntime.RelayNode.ReceiveOnce` | crates/ndn-mobile/src/object_relay.rs:301-359 | one turn of the receive: cancellation stops the relay, an error leads to a new subscription, and otherwise the oldest segment is taken or a used-up subscription renewed |
| `RelayRuntime.RelayNode.Republish` | crates/ndn-mobile/src/object_relay.rs:315-345 | learns the prefix and signs; then caches, publishes and counts the segment, or skips it exactly when the signature fails |
| `NdntsCodec.StrictPrefixIncomplete` | crates/ndn-boltffi/src/codec.rs:160-165 | no strict prefix of a TLV element looks complete |
| `NdntsCodec.EndIsElementExactly` | crates/ndn-boltffi/src/codec.rs:160-165 | what is cut off is exactly one element if and only if the announced size did not wrap |
| `NdntsCodec.WrappedSizeCutsTheHeader` | crates/ndn-boltffi/src/codec.rs:160-165 | for every type and every length that makes the size wrap, the bare header is taken for a complete packet and what is cut off is no element |
| `NdntsCodec.VarnumberRoundTrip` | crates/ndn-boltffi/src/codec.rs:142-158 | the number parser inverts the variable-size encoding of the NDN Packet Format Specification, whatever follows the number |
| `NdntsCodec.LongFormIsRead` | crates/ndn-boltffi/src/codec.rs:142-158 | two-, four- and eight-octet forms are read for every number, the shortest form or not |
| `NdntsCodec.EncodedElement` | crates/ndn-boltffi/src/codec.rs:160-165 | every encoded element is recognised with its exact size, whatever follows it |
| `NdntsCodec.NdntsFrame` | crates/ndn-boltffi/src/codec.rs:47-73 | a packet that fits is sent as it is; otherwise the fragments' headers count modulo 128 and mark the first, all frames but the last are exactly as long as the payload size (two octets at least), none is empty, and the payloads concatenate to the packet |
| `NdntsCodec.FramesFitExactly` | crates/ndn-boltffi/src/codec.rs:47-73 | the frames respect the payload size if and only if it is at least 2 or the packet fits whole |
| `NdntsCodec.NdntsReassembler.Feed` | crates/ndn-boltffi/src/codec.rs:108-127 | the new state and the packet returned, and byte conservation since the last start fragment |
| `NdntsCodec.NdntsReassembler.Reset` | crates/ndn-boltffi/src/codec.rs:129-133 | the reassembler is idle again |
| `NdntsCodec.BytesConservedAlways` | crates/ndn-boltffi/src/codec.rs:108-127 | over every sequence of fragments, packets cut off plus buffer equal the payloads since the last start fragment, each packet is one element unless a size wraps, and an inactive reassembler has an empty buffer |
| `NdntsCodec.Resynchronises` | crates/ndn-boltffi/src/codec.rs:108-127 | from any state, the fragments of a packet give nothing until the last and exactly the packet then, leaving the reassembler idle |
| `NdntsCodec.PacketRoundTripExactly` | crates/ndn-boltffi/src/codec.rs:47-127 | one packet survives framing and reassembly if and only if it is fragmented or its first octet is below 0x80 |
| `NdntsCodec.StreamRoundTrip` | crates/ndn-boltffi/src/codec.rs:47-127 | any sequence of packets with first octet below 0x80 comes out unchanged, for any payload size, with the reassembler idle after each |
| `Json.ReadableExactly` | crates/ndn-boltffi/src/offer.rs:475-489 | a string is read back unchanged if and only if it has no control character other than newline, return and tab; each of those has become one space and all else is as it was |
| `Json.StringRoundTrip` | crates/ndn-boltffi/src/offer.rs:475-489 | a printed string parses back to the original with those characters blanked, whatever follows it |
| `Json.ValueRoundTrip` | crates/ndn-boltffi/src/offer.rs:450-472 | every printed JSON value parses back completely |
| `Json.Printer.PushJsonStr` | crates/ndn-boltffi/src/offer.rs:475-489 | the printing loop appends the quoted form of the string |
| `OrderedMap.InsertUpdates` | crates/ndn-boltffi/src/offer.rs:270-279 | inserting keeps key order and is an update of the map |
| `OrderedMap.RemoveUpdates` | crates/ndn-boltffi/src/offer.rs:407 | removing keeps key order and takes one key out |
| `Utf8.RoundTrip` | crates/ndn-boltffi/src/offer.rs:442 | decoding the octets of a string gives the string back |
| `Utf8.SameOrder` | crates/ndn-boltffi/src/offer.rs:77 | the map's order of strings is that of their octets |
| `OfferBoard.OffersJson` | crates/ndn-boltffi/src/offer.rs:450-472 | the printing loops produce one JSON value, in which a reader that looks members up by name finds the node and every offer |
| `OfferBoard.OffersRoundTrip` | crates/ndn-boltffi/src/offer.rs:450-472 | for every node and list of offers, looking up `node`, `offers`, `file_id`, `display_name`, `mime`, `size` and `name` in the parsed text gives them back in key order, with their sizes and readable strings |
| `OfferBoard.ManifestAgrees` | crates/ndn-boltffi/src/offer.rs:268-281 | after any adds, replacements and removals the offers are the plain map's in key order, the ring holds the last one to six builds newest first, and its head is built from the current offers |
| `OfferBoard.BuildKeptExactly` | crates/ndn-boltffi/src/offer.rs:423-429 | a build is in the ring if and only if fewer than six rebuilds followed it |
| `OfferBoard.MetadataServed` | crates/ndn-boltffi/src/offer.rs:147-166 | metadata is answered by the newest version |
| `OfferBoard.SegmentServed` | crates/ndn-boltffi/src/offer.rs:147-166 | a segment request is answered by the version it names while that is kept, and by none afterwards |
| `OfferBoard.AnsweredExactly` | crates/ndn-boltffi/src/offer.rs:147-166 | the board answers metadata requests for the manifest and requests for segments of its last six builds, and nothing else |
| `OfferBoard.ManifestSegments` | crates/ndn-boltffi/src/offer.rs:432-446 | a manifest is cut into segments of 8192 octets, of which only the last may be shorter |
| `OfferBoard.SnapshotSegment` | crates/ndn-boltffi/src/offer.rs:147-166 | a segment of a version learned earlier is that version's own segment after at most five rebuilds, and otherwise nothing |
| `OfferBoard.SnapshotIsolation` | crates/ndn-boltffi/src/offer.rs:49-53 | whatever changes overlap a fetch, a complete fetch is the manifest of the offers at the metadata read, and a reader finds exactly those offers in it |
| `OfferBoard.SnapshotComplete` | crates/ndn-boltffi/src/offer.rs:49-53 | a fetch that overlaps at most five rebuilds can be completed |
| `OfferBoard.ObjectNamesDiffer` | crates/ndn-boltffi/src/offer.rs:198 | different file ids are served under different object names |
| `OfferBoard.OfferBoard.AddOffer` | crates/ndn-boltffi/src/offer.rs:187-283 | an add or replace returns the name `/<identity>/file/<id>`, lists the offer under it and rebuilds the manifest; an empty id is refused and changes nothing |
| `OfferBoard.OfferBoard.RemoveOffer` | crates/ndn-boltffi/src/offer.rs:405-412 | a removal returns whether there was such an offer, and rebuilds only then |
| `OfferBoard.OfferBoard.RebuildManifest` | crates/ndn-boltffi/src/offer.rs:423-429 | a new build in front, truncated to six |
| `OfferBoard.OfferBoard.ServeManifest` | crates/ndn-boltffi/src/offer.rs:147-166 | the serve loop gives the first answer, newest first |
| `OfferBoard.OfferBoard.ListOffers` | crates/ndn-boltffi/src/offer.rs:416-419 | the node's own listing reads the same |
| `RemoteSigner.OkIsOwnApprovedSignature` | crates/ndn-boltffi/src/remote_signer_client.rs:113-185 | with any number of calls and any reordering, duplication, caching, loss or misdelivery, a call that returns Ok holds a signature over its own region, and the responder approved exactly its request |
| `RemoteSigner.OnlyAskedIsApproved` | crates/ndn-boltffi/src/identity_core.rs:679-726 | whatever was approved had been asked for by some call |
| `RemoteSigner.NeverApprovedNeverOk` | crates/ndn-boltffi/src/identity_core.rs:689-722 | a request the responder never approves never returns Ok |
| `RemoteSigner.CallsKept` | crates/ndn-boltffi/src/remote_signer_client.rs:113-185 | a finished call keeps its result |
| `RemoteSigner.OutcomeExactly` | crates/ndn-boltffi/src/remote_signer_client.rs:140-185 | over every run a call waits exactly until a Data is handed to it or its time runs out, and returns Ok with a signature if and only if that first was a Data under its request's name that approves with that signature |
| `RemoteSigner.ServedIsReplied` | crates/ndn-boltffi/src/identity_core.rs:689-722 | whatever happens between decision and response, the task replies under the request's name: a signature by the identity of the decision exactly after an approval with an identity that can sign, and a denial otherwise |
| `RemoteSigner.ServedCallExactly` | crates/ndn-boltffi/src/identity_core.rs:689-722 | over every run, when a waiting call's request is served, its task responds and the reply arrives, the call returns Ok if and only if it was approved with an identity loaded that could sign, and then with a signature over its region by the identity loaded last before the decision |
| `RemoteSigner.WaitingCallCanSucceed` | crates/ndn-boltffi/src/identity_core.rs:679-726 | whenever an identity is loaded, every waiting call can still end in Ok with that identity's signature over its region |
| `RemoteSigner.CallsAreNumbered` | crates/ndn-boltffi/src/remote_signer_client.rs:113-119 | over every run each call carries its own region and the number its place among its client's calls gives it |
| `RemoteSigner.NamesCollideExactly` | crates/ndn-boltffi/src/remote_signer_client.rs:116-139 | over every run two calls of one client share an Interest name if and only if they sign the same region a multiple of 2^64 of its calls apart |
| `RemoteSigner.RemoteSignerClient.Begin` | crates/ndn-boltffi/src/remote_signer_client.rs:113-139 | a call takes the next number, wrapping at 2^64, and is named after it |
| `RemoteSigner.RemoteSignerClient.Finish` | crates/ndn-boltffi/src/remote_signer_client.rs:140-185 | Ok with a signature if and only if the reply came, under the expected name, and approves with that signature; an error otherwise |
| `RemoteSigner.KeyNameFromCert` | crates/ndn-boltffi/src/remote_signer_client.rs:90-97 | the name is cut after the component behind the first marker, or kept whole without one |
| `RemoteSigner.KeyNameExactly` | crates/ndn-boltffi/src/remote_signer_client.rs:88-97 | the result is the certificate's key name if and only if the identity has no component that reads KEY |
| `BulkRouting.MeasuredExactlyPinned` | crates/ndn-mobile/src/engine.rs:277-283 | over every run of beacons, attaches, detaches, suspends and resumes, a peer's prefix has the measured strategy exactly when it is pinned, and then to a bulk face |
| `BulkRouting.PinnedIsLiveExactly` | crates/ndn-mobile/src/engine.rs:1156-1206 | over every run with any suspensions and resumptions, a pinned face is present and a nexthop of its prefix if and only if it was attached after the last suspension |
| `BulkRouting.PinnedFacesAreLive` | crates/ndn-mobile/src/engine.rs:1478-1490 | in particular, until a suspension every pinned face is present and a nexthop of its prefix |
| `BulkRouting.SuspendKillsPinsExactly` | crates/ndn-mobile/src/engine.rs:1156-1161 | after a suspension that holds if and only if nothing is pinned |
| `BulkRouting.BeaconKeepsPins` | crates/ndn-mobile/src/engine.rs:1260-1308 | a beacon changes no pin and no pinned strategy, and touches one nexthop of its own prefix only |
| `BulkRouting.DetachIsLocal` | crates/ndn-mobile/src/engine.rs:1553-1575 | a detach removes its face's nexthops and pins, reverts exactly the prefixes pinned to it, and keeps every other nexthop with its cost |
| `BulkRouting.DetachUndoesAttach` | crates/ndn-mobile/src/engine.rs:1447-1575 | attach and detach with anything in between but a second attach on that prefix: the faces, routes and pins are those of the same run in which the attach was refused, and the prefix is back on fan-out |
| `BulkRouting.ResumeRestoresRoutes` | crates/ndn-mobile/src/engine.rs:1168-1206 | a nexthop through a configured face is usable again with its cost once the face is rebuilt under its id |
| `BulkRouting.RedialRestoresRoutes` | crates/ndn-mobile/src/engine.rs:1168-1206 | a configured face that dies keeps its routes, and they work again once it is redialled |
| `BulkRouting.BulkIsPinnedExactly` | crates/ndn-mobile/src/engine.rs:1478-1490 | a step keeps "the bulk face that serves a prefix is its pinned one" if and only if it does not attach a second one there |
| `BulkRouting.SecondAttachStrandsTheFirst` | crates/ndn-mobile/src/engine.rs:1490 | after two attaches on a prefix and the loss of the second face, the first is up without pin and without measured strategy |
| `BulkRouting.MobileEngine.NotePeerRoute` | crates/ndn-mobile/src/engine.rs:1260-1308 | by the name of the face the beacon was heard on: the radio's face becomes a nexthop of the prefix at that radio's cost beside those it had, an unpinned prefix fans out and a pinned one stays measured; nothing else changes, and nothing at all when the face is absent or unknown |
| `BulkRouting.MobileEngine.AttachUdpBulkFace` | crates/ndn-mobile/src/engine.rs:1447-1519 | an id is used up either way; on success the face is up, a nexthop at the kind's cost beside those the prefix had, measured and pinned, and no other prefix is touched |
| `BulkRouting.MobileEngine.AttachWifiAware` | crates/ndn-mobile/src/engine.rs:1616-1641 | under the id it had or a new one the face is up, and the default route goes over it at cost 0 with fan-out |
| `BulkRouting.MobileEngine.AttachBle` | crates/ndn-mobile/src/engine.rs:1653-1670 | the same for the BLE face |
| `BulkRouting.MobileEngine.AttachGroup` | crates/ndn-mobile/src/engine.rs:1533-1546 | the same for a one-to-many face, always under a new id, which is used up either way |
| `BulkRouting.MobileEngine.DetachNdpFace` | crates/ndn-mobile/src/engine.rs:1553-1577 | the face, its nexthops and its pins go, exactly the prefixes pinned to it are fanned out again, and all else stays |
| `BulkRouting.MobileEngine.SuspendNetworkFaces` | crates/ndn-mobile/src/engine.rs:1156-1161 | exactly the configured, radio, bulk and one-to-many faces go, with the routes of those that take theirs along; no pin or strategy changes |
| `BulkRouting.MobileEngine.ResumeNetworkFaces` | crates/ndn-mobile/src/engine.rs:1168-1206 | exactly the configured faces that answer and both radios are back under their ids; no route, strategy or pin changes |
| `DottedQuad.ParseExactly` | crates/ndn-boltffi/src/engine.rs:1305-1307 | an unbracketed peer address is accepted if and only if it is the canonical text of an IPv4 address, and then as that address |
| `DottedQuad.BracketedIsNoNeighbour` | crates/ndn-boltffi/src/engine.rs:1278-1285 | bracketed IPv6 text never passes the test against an IPv4 address |
| `DottedQuad.SameSubnetNumerically` | crates/ndn-boltffi/src/engine.rs:1278-1285 | on canonical addresses the string test holds if and only if the upper 24 bits agree |
| `DottedQuad.SameSubnetExactly` | crates/ndn-boltffi/src/engine.rs:1278-1285 | against a canonical address it holds if and only if the other text is the same network, a dot, and anything without a dot |
| `InfraSocket.EverySocketHasOneOwner` | crates/ndn-boltffi/src/engine.rs:481-493 | in every interleaving of address changes, hand-offs and beacons, each supplied socket is in exactly one of held, in hand, adopted and closed, and is adopted at most once |
| `InfraSocket.ReservedExactly` | crates/ndn-boltffi/src/engine.rs:1308-1327 | between beacons, over every interleaving, a peer is reserved if and only if one of its attaches and the reservation before it both came after the last clear |
| `InfraSocket.AttachedButFreeExactly` | crates/ndn-boltffi/src/engine.rs:1308-1327 | a peer attached since the last clear is not reserved if and only if that clear fell between a reservation of it and its attach, and no later attach of it was undisturbed |
| `InfraSocket.AtMostOneAttachedButFree` | crates/ndn-boltffi/src/engine.rs:1308-1327 | at most one peer is in that position |
| `InfraSocket.ReservedMeansAttached` | crates/ndn-boltffi/src/engine.rs:1308-1327 | a reserved peer was attached after the last clear, unless its beacon is under way |
| `InfraSocket.OnlySameSubnetIsAttached` | crates/ndn-boltffi/src/engine.rs:1299-1307 | every attach goes to an address that passed the test against the own address the beacon read, whatever its text; if that is an IPv4 address, so is the peer's, and the upper 24 bits agree |
| `InfraSocket.ParsePeerExactly` | crates/ndn-boltffi/src/engine.rs:1305-1307 | a peer's address is accepted if and only if its text is that of an IPv4 address, or bracketed and well-formed |
| `InfraSocket.AttachIsCurrentExactly` | crates/ndn-boltffi/src/engine.rs:1299-1318 | whatever overlaps a beacon, the address compared is our address at the attach if and only if the last change of address in between, if any, restored it |
| `InfraSocket.AttachStaysReservedExactly` | crates/ndn-boltffi/src/engine.rs:1308-1318 | whatever overlaps a beacon, its peer is reserved after the attach if and only if nothing was cleared since the reservation |
| `InfraSocket.StaleAddressStillAttaches` | crates/ndn-boltffi/src/engine.rs:1299-1327 | for any neighbours there is a run in which the address changes in between, the attach goes through and the peer is not reserved |
| `InfraSocket.AttachedSinceExactly` | crates/ndn-boltffi/src/engine.rs:1308-1310 | being attached since the last clear, read off the log |
| `InfraSocket.BeaconEffect` | crates/ndn-boltffi/src/engine.rs:1292-1328 | an uninterrupted beacon hands the held socket to the peer and reserves it, closes the socket, or changes nothing |
| `InfraSocket.NdnEngine.SetInfraAddr` | crates/ndn-boltffi/src/engine.rs:467-474 | an empty address clears, an unchanged one does nothing, and a change forgets the reservations |
| `InfraSocket.NdnEngine.SetInfraSocket` | crates/ndn-boltffi/src/engine.rs:481-493 | a replaced unused socket is closed, the new one held, the reservations forgotten |
| `InfraSocket.NdnEngine.MaybeAttachInfraTunnel` | crates/ndn-boltffi/src/engine.rs:1292-1328 | exactly when the bulk path is raised, with which socket and towards which address; between calls the reserved peers are exactly those attached since the last clear, so none is raised twice |
| `PeerTable.SnapshotExactly` | crates/ndn-boltffi/src/discovery.rs:84-120 | whatever the notes and the earlier snapshots, in any order of clock readings, an id is listed if and only if it is not empty, not our own, its latest note is under 30 s old and no snapshot since found it older; it shows that note's signal strength and age |
| `PeerTable.OvertakenSnapshotMisses` | crates/ndn-boltffi/src/discovery.rs:117-120 | after a note and a snapshot read 30 s after it, a snapshot with an earlier reading misses the peer although its note is fresh |
| `PeerTable.OrderedSnapshotExactly` | crates/ndn-boltffi/src/discovery.rs:84-120 | when snapshot times do not run backwards the latest note alone decides |
| `PeerTable.TableIsSummary` | crates/ndn-boltffi/src/discovery.rs:84-120 | over every log the table is the summary of the notes since the last snapshot that found the peer stale |
| `PeerTable.FacesAreThoseHeard` | crates/ndn-boltffi/src/discovery.rs:106-108 | the faces of a summary are in order and are exactly the non-empty ones its notes name |
| `PeerTable.SteadyPeerKeepsEverything` | crates/ndn-boltffi/src/discovery.rs:96-113 | on a monotone clock a peer never silent for 30 s is shown with all its faces and its latest label and address |
| `PeerTable.NeverForgottenExactly` | crates/ndn-boltffi/src/discovery.rs:117-120 | what is shown is independent of earlier snapshots if and only if there was no such silence |
| `PeerDataset.DatasetRoundTrip` | crates/ndn-boltffi/src/discovery.rs:117-152 | looking up `self`, `peers`, `id`, `label`, `faces`, `rssi`, `age_ms` and `infra` in the served JSON gives back the node and the rows printed |
| `PeerDataset.DiscoveryState.NotePeer` | crates/ndn-boltffi/src/discovery.rs:84-114 | a note updates one entry, and none for an empty or our own id |
| `PeerDataset.DiscoveryState.DropStale` | crates/ndn-boltffi/src/discovery.rs:120 | exactly the entries older than 30 s go |
| `PeerDataset.DiscoveryState.SnapshotJson` | crates/ndn-boltffi/src/discovery.rs:117-152 | a reader of the text finds one row for each peer that the log says is fresh and not found stale since, with the latest note's signal strength, the whole milliseconds since, and the label, address and faces of the notes kept |
| `Tunnel.PublishedInOrderUnderCredit` | crates/ndn-mobile/src/tun.rs:153-191 | what is published is a prefix of what was injected, named 0, 1, 2, ... without repetition, and never exceeds the data counts of the subscriptions, one for each without parameters |
| `Tunnel.PermitsFollowPackets` | crates/ndn-mobile/src/tun.rs:161-171 | no permit is taken without a packet in hand |
| `Tunnel.CreditIsSpent` | crates/ndn-mobile/src/tun.rs:136-171 | a streamer that cannot move has published as much as credit and packets allow |
| `Tunnel.EndedStreamIsSilent` | crates/ndn-mobile/src/tun.rs:153-191 | after a Data that the face does not take, or a cancellation, nothing is published and no packet taken in any more, and no permit given back |
| `Tunnel.DeliveredInOrder` | crates/ndn-mobile/src/tun.rs:193-232 | over an in-order link what is handed out or ready is what came out of the link, which is a prefix of what was injected, without the empty packets unless these are carried |
| `Tunnel.Endpoint.Inject` | crates/ndn-mobile/src/tun.rs:89-91 | an injected packet goes to the end of the queue; the call waits while the queue is full and fails once the streamer has ended |
| `Tunnel.Endpoint.AddPermits` | crates/ndn-mobile/src/tun.rs:136-148 | a subscription adds the data count it carries, or one permit when it carries none |
| `Tunnel.CreditedQueueDrains` | crates/ndn-mobile/src/tun.rs:153-191 | with the face up and credit in time, two awaits for each packet publish everything queued in order |
| `Tunnel.Endpoint.Stream` | crates/ndn-mobile/src/tun.rs:153-191 | the streamer loop, waiting for packets and for permits while others inject and grant, performs a run of the step relation, keeps credit and packet conservation, and ends, by failure or cancellation, in the state the schedule determines |
| `Tunnel.Endpoint.Pump` | crates/ndn-mobile/src/tun.rs:215-231 | the downlink loop delivers until the link is empty or the queue is full |
| `Tunnel.Endpoint.TakeNext` | crates/ndn-mobile/src/tun.rs:95-97 | the oldest delivered packet; without one the call waits, and is told the end once the downlink has ended |
| `Tunnel.Endpoint.StopDownlink` | crates/ndn-mobile/src/tun.rs:206-227 | ending the downlink leaves what was delivered |

## Left out

- Cryptography, certificates and policies: signing is a free constructor, the approval of a request and the digest in an
  Interest name are abstract, and the digest is injective and belongs to the parameters it comes with.
- Prepared objects, consumers, subscriptions, the PIT and the content store: `PreparedObject`, `Consumer` and the
  forwarder are not part of this model. An object answers metadata and its own segments; a cache may evict anything; a
  fetch returns Data under the name it asked for.
- The relay between cache insert, publish and the store to `produced`: one step. Atomics are sequentially consistent,
  and a content-store miss and the start of its handler are one step.
- The relay's skip of Data whose name has no segment number: the leaf sends none.
- Re-fetches queueing on one consumer: they run independently here, which allows more interleavings, not fewer.
- Leaf permits beyond a machine word, and segment numbers beyond one, are not reached by an object that fits.
- Arithmetic overflow panics of debug builds: `front + lookahead` and the TLV sizes wrap as in release builds.
- `PreparedObject` versions: two builds of a manifest are assumed to have distinct versions where a result says so.
- The JSON parser knows no white space, no `\u` escapes, no fractions and no literals; the UTF-8 decoder does not refuse
  overlong forms. None of these is ever printed.
- `RelayDemand.NoDemandDropped`: for runs whose demands fit, and so are `RelayDemand.AvailableDemandAnswered`,
  `RelayDemand.DemandServedExactly`, `RelayDemand.QuietMeansServed` and `RelayDemand.FetchCompletes`; a demand that does
  not fit is one that drops others, by `RelayDemand.WrappingDemandExactly`.
- Data of a re-fetch that also satisfy the relay's standing subscription: any segment already passed may arrive again
  whenever the relay waits for the stream, which is more often than the forwarder would do it.
- The parser for bracketed IPv6 text: whether such a peer address is well-formed is an input. It cannot pass the subnet
  test against an IPv4 address (`DottedQuad.BracketedIsNoNeighbour`).
- The text form of a name: a function of the name.
- Bulk faces that die without a detach, keepalives, and the supervisor's back-off: a face coming or going is an event.
- `parse_ip_flow`: it feeds a trace line only.
- Resubscription gaps of the tunnel: what is published while no subscription is pending is outside the in-order link.
- Whether an empty packet is carried as empty content or as none: both are covered by a parameter.
- The FFI surface, enrolment, BLE and Wi-Fi Aware adapters, serial, TCP and WebSocket dialing: delegation and plumbing.
