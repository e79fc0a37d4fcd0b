# Clipbus: a verified model of the X11 clipboard engine

Clipbus lets a program own the X11 CLIPBOARD selection and ask other owners for its contents. Its core, `src/x11.rs`, is
a single-threaded engine: a table of pending requests of six kinds, a table of published targets, a request counter and
a clock. Host commands, X events and deadline sweeps drive it, and it plays both ends of the INCR protocol of the
Inter-Client Communication Conventions Manual (sections 2.2, 2.4 and 2.7.2). `src/clipboard.rs` is the handle through
which host threads start the engine's worker, send it commands and stop it.

## How the model is built

- `Protocol.dfy`: machine integers, GetProperty (section 9 of the X Window System Protocol), the INCR header's encoding
  and the names of the properties that our own requests use.
- `Requests.dfy`: how one pending entry reacts to one stimulus; `React` is the whole machine of a request. `Engine.dfy`:
  the engine on values, its runs, and the theorem that a run is the product of the lives of its requests.
- `X11State.dfy`: the engine as the program has it, a class whose methods update the two tables in place, with the
  event loop on top. Every method is proved against `Engine.dfy`, so what is proved of runs holds of the object.
- `Traces.dfy`, `RequestLaws.dfy`, `Conservation.dfy`, `Streams.dfy`, `Transfers.dfy`, `Lifetimes.dfy`: laws of single
  requests. `EngineLaws.dfy` and `Routing.dfy`: laws of whole runs, partly those of single requests lifted.
- The engine seen from its three sides, each law in the terms of that side and not of the engine's entries:
  `Callbacks.dfy` is what the host is told (when it may write, what becomes of a write, which error, which result),
  `Wire.dfy` what a requestor and the server get (subscription, addresses, sizes, how a conversation ends), and
  `Answers.dfy` which events reach which request and what is read for it. `Listings.dfy` is about names of targets.
- `Loopback.dfy` adds the X server: property slots, the event queue and the selection's owner. `SelfTransfer*.dfy`
  treats one transfer from the program to itself on its own; `LoopbackLaws.dfy` and `LoopbackTheorems.dfy` show that the
  whole world, with any other activity in between, refines it, and draw the end-to-end conclusions; `LoopbackOrigin.dfy`
  shows how such a transfer comes about in a world that starts from nothing, and joins the parts into one run;
  `LoopbackLoss.dfy` is a run from nothing in which data is lost. `Ownership.dfy` follows the selection's owner through
  such runs.
- `LoopbackSession.dfy` puts the engine as an object next to that server, and proves its event loop, with events and
  properties taken from the server, to be such a run of the world.
- `Clipboard.dfy`: the handle, as a class with one method per critical section, and all interleavings of those.

What the source leaves to its environment is a parameter: the order in which a hash map is walked (`choice`, `listing`,
the order of a sweep), the server's answers (`route`, `owner`, `slot`), the host's answer to a callback (`verdict`) and
the passing of time. Every theorem holds for all of them. Atoms are numbers, interned by an injective function. Deadlines
are set from the clock's reading at the step; 64-bit saturation and the 32-bit limits of the protocol are explicit.

## Findings

These are facts of the code, kept as they are in the model, that shape what can be stated. Where they make a property
fail, a lemma gives an input that shows it, and another the exact condition under which the property holds.

- A stream's limit is looked at before its end. A chunk over the limit, even one that comes after the end was accepted,
  discards the chunk that is still queued (src/x11.rs:907-921): `Streams.LateChunkLosesAcceptedOne`, for any chunk size
  above 1; with a chunk size of 1 it cannot happen (`Streams.ByteChunksAreNotLost`). `Streams.StreamDelivery`: what was
  accepted has all been sent if and only if no event lost the queued chunk, and a loss costs that chunk and no other.
- Ids are fresh only until the counter saturates (src/x11.rs:1413-1417): `EngineLaws.LastIdIsReused` shows a request
  that takes the place of another, and `EngineLaws.OpenedAsHandedOut` counts how often each id is handed out. The laws of
  runs hold for every id that is handed out at most once: all below 2^64-1, and that one for its first use.
- A refusal without a property fails some request that waits for its target, not necessarily the one refused
  (src/x11.rs:136-149): `Routing.RefusalGoesAstray`. It is sure to fail the right one if and only if no other request
  waits on that target: `Routing.RefusalIsSureIffAlone`. In the same way a deletion can reach either of two transfers to
  one property, as when a requestor asks again before its first transfer is over (src/x11.rs:622-660):
  `Routing.DeletionGoesAstray`; it is sure to reach the right one if and only if it is the only one on that property:
  `Routing.DeletionIsSureIffAlone`.
- A deadline writes the terminator over a chunk that has not been read (src/x11.rs:1011-1017), and the receiver then
  reports Ok for less than was given: `LoopbackLoss.ErrandLosesData`, a run of the world from its start in which it
  reports Ok for nothing, and `LoopbackLoss.TimeoutLosesData`, from any state in which the host was just asked. A result
  that is Ok is whole if and only if no move cut the transfer, where a cut is a sender's deadline over an unread chunk, a
  sender that goes with bytes unsent, or a queued chunk thrown away: `LoopbackTheorems.OkIsWholeUnlessCut`.
- A command for an entry of the wrong kind removes the entry without an answer (src/x11.rs:730-737, 807-816, 865-882,
  942-955); so do a clear, the loss of ownership, and a failure at the server while a request is started. A request that
  is gone was never answered if and only if one of these met it while it owed an answer:
  `Conservation.UnansweredIffStranded`.
- A stream whose header announced more than the receiver's limit is refused, whatever its real length:
  `LoopbackTheorems.AnnouncedTooBigIsRefused`.
- A stream survives a sweep if and only if it was renewed less than a timeout ago: by its start, a deletion, a write that
  was taken, or an end, but not by a write that was rejected or that aborts it: `Lifetimes.StreamLivesByRenewal`. Since
  each further end is a renewal (src/x11.rs:979-980), a host that ends a stream again and again keeps it alive without
  bound while the requestor does nothing: `Lifetimes.EndsKeepStreamAlive`.
- The repository's README.md says that the host writes a chunk when it is told that the stream is ready. The code also
  takes one chunk before that and queues it; the model follows the code.

## Model

| member | source | states |
|---|---|---|
| Protocol.HeaderRoundTrip | src/x11.rs:1104-1113 | A size written as an INCR header is read back as that size |
| Protocol.PropertyNamesDistinct | src/x11.rs:1419-1421 | Two requests of ours never get the same property name, whatever their kinds and ids |
| Engine.EngineIsProductOfRequests | src/x11.rs:321-373 | In every run, each id's entry and outputs are those of the life that the run's stimuli for it give it; no step touches another request |
| X11.X11State.constructor | src/x11.rs:297-306 | A new engine has empty tables and counts from 1 |
| X11.X11State.AllocateRequestId | src/x11.rs:1413-1417 | Hands out the counter and moves it on, stopping at the largest id |
| X11.X11State.EventLoop | src/x11.rs:322-336 | The loop is a possible run, made of whole turns, each with all its commands, then all its events, one by one, then the sweep after which nothing is overdue; at the first Stop the commands before it, and a clear that leaves both tables empty |
| X11.X11State.DrainCommands | src/x11.rs:338-373 | Handles the commands before the first Stop, in order, as a possible run, and leaves those after it |
| X11.X11State.PublishTargets | src/x11.rs:375-399 | Replaces the published table by the offers, the last one for a name winning and a limit of 0 meaning the default, and takes ownership |
| X11.X11State.RequestExternalTargets | src/x11.rs:401-453 | Starts a listing: nobody owns the selection, we do, another does, or the server fails; each with its entry, callback, request and reply |
| X11.X11State.RequestExternalTargetData | src/x11.rs:455-513 | The same for data, with no short cut when we own the selection |
| X11.X11State.ClearSelection | src/x11.rs:515-527 | Empties both tables without replies and gives up ownership if it is ours |
| X11.X11State.HandleEvent | src/x11.rs:529-543 | Every event is a possible input of the engine and does what that input does |
| X11.X11State.HandleSelectionClear | src/x11.rs:535-540 | Empties both tables and tells the host |
| X11.X11State.HandleSelectionRequest | src/x11.rs:545-585 | Refuses, answers itself, or opens an entry and asks the host, whose refusal closes it again |
| X11.X11State.HandleSelectionNotify | src/x11.rs:587-620 | Removes at most one matching entry, if there is any, and fails it or reads its property |
| X11.X11State.HandlePropertyNotify | src/x11.rs:622-660 | A new value on our window reaches one receiver, a deletion one sender, if there is any |
| X11.X11State.CompleteRequest | src/x11.rs:724-758 | Refusal, data at once or start of a buffered transfer; another kind of entry is dropped; no other entry changes |
| X11.X11State.BeginOwnerIncrRequest | src/x11.rs:760-800 | Selects deletions, writes the header, notifies, and leaves the transfer at offset 0 |
| X11.X11State.BeginRequestStream | src/x11.rs:802-862 | Starts a stream, refuses an estimate over the limit, or drops an entry of another kind |
| X11.X11State.WriteRequestStream | src/x11.rs:864-939 | Sends, queues, rejects or aborts, in the source's order of conditions |
| X11.X11State.EndRequestStream | src/x11.rs:941-982 | Records the end, drops the queued chunk if the status is not Ok, and advances |
| X11.X11State.ExpirePending | src/x11.rs:984-1027 | Removes and fails exactly the entries whose deadline has passed, in any order; the others stay unchanged |
| X11.X11State.CompleteExternalTargets | src/x11.rs:1029-1054 | Reads and deletes the property and reports the names, passing over atoms that the server does not name |
| X11.X11State.CompleteExternalData | src/x11.rs:1056-1095 | Reports the data, its being too big, or starts assembling after an INCR header |
| X11.X11State.BeginExternalIncrRead | src/x11.rs:1097-1139 | Reads the header, deletes it to start the transfer, and refuses an announced size over the limit |
| X11.X11State.ReadExternalIncrChunk | src/x11.rs:1141-1186 | Ends at an empty property, fails on a chunk over the limit, appends any other |
| X11.X11State.AdvanceOwnerIncrRequest | src/x11.rs:1188-1198 | A deletion advances a buffered or a streaming sender and no other entry |
| X11.X11State.SendNextOwnerIncrChunk | src/x11.rs:1316-1353 | Writes the next slice, or the terminator when none is left, and then removes the entry |
| X11.X11State.MarkOwnerStreamReady | src/x11.rs:1200-1231 | Makes the stream ready, renews its deadline and advances it |
| X11.X11State.AdvanceOwnerStream | src/x11.rs:1233-1259 | Queued chunk first, then the end, then a call for more |
| X11.X11State.WriteOwnerStreamChunk | src/x11.rs:1261-1285 | Writes the chunk, counts it with saturation and renews the deadline |
| X11.X11State.AbortOwnerStream | src/x11.rs:1306-1314 | Drops the queued chunk, records a failed end and advances |
| RequestLaws.ConversationConforms | src/x11.rs:545-585 | At every moment of a request's life, what its requestor was sent is nothing, a refusal, data and a notification, or header, notification, non-empty chunks and at most one empty terminator, which comes last |
| EngineLaws.EveryConversationConforms | src/x11.rs:545-585 | The same for every id in every run, over all interleavings with other requests |
| Wire.EndedUnlessDropped | src/x11.rs:724-1353 | A request that is gone was refused, given its data at once, or sent a terminator, if and only if no clear and no misdirected command took it away; if one did before the host completed it, it was sent nothing, and if later, no terminator |
| Wire.HeadersAreSubscribed | src/x11.rs:760-862 | In every life, each INCR header comes after a selection of the property events of its requestor, and whatever waits for deletions has made one |
| Wire.EveryHeaderIsSubscribed | src/x11.rs:760-862 | The same for every id in every run |
| Wire.RepliesAreAddressed | src/x11.rs:1383-1411 | Everything that a requestor is sent goes to its window and to the property that it named, or to that of the target if it named none, and echoes selection, target and time of its request |
| Wire.ChunkIsLargest | src/x11.rs:1446-1455 | A chunk is as large as the server takes in one request, but at most 256 KiB, and at least a byte |
| Wire.EveryWriteFits | src/x11.rs:1441-1455 | No data that is ever written for a request is larger than the server takes in one request |
| Wire.CompletionIsJudged | src/x11.rs:724-800 | A completion sends data if and only if it is Ok and inside the offer's limit; at once if and only if small enough for the program's option and for one request, else announced and kept whole for chunks |
| Callbacks.ReadyIsCalled | src/x11.rs:1200-1285 | In every regular life: a stream is ready if and only if the host was called for a chunk and none was written since; every call bears the offered name and the size of a chunk |
| Callbacks.EveryStreamCalls | src/x11.rs:1200-1285 | The same for every id in every run |
| Callbacks.OnlyDeletionsCall | src/x11.rs:1233-1259 | A deletion that finds nothing queued and no end calls the host, once; nothing else ever does |
| Callbacks.WriteIsJudged | src/x11.rs:864-939 | What becomes of a write follows from the host's own history, calls and taken, sent and ended chunks: taken without an error, or else exactly one error, NotFound, InvalidArgument or Pending |
| Callbacks.EveryWriteIsJudged | src/x11.rs:864-939 | The same for every id in every run |
| Callbacks.ErrorsAreReported | src/x11.rs:574-1027 | Exactly these errors are reported, each once: a declined offer's verdict, commands without an entry, estimates over the limit, rejected writes, failed ends, timeouts |
| Callbacks.HostIsAskedOnce | src/x11.rs:558-573 | The host is asked for an offer's data once, with the offer's name and limit, and for nothing else |
| Callbacks.ResultsAreGiven | src/x11.rs:401-1186 | Which result a request of ours gets and when: NotFound without an owner, Unsupported on a refusal, an announced size or a value that does not fit, Timeout at its deadline, else Ok with the value |
| Callbacks.RejectedIfStranded | src/x11.rs:401-513 | A call for targets or data fails with PlatformError if and only if nothing will ever answer it, and else returns the new id |
| Conservation.UnansweredIffStranded | src/x11.rs:724-758 | At most one answer; an entry still there is unanswered if and only if it owes one; a request that is gone was never answered if and only if it is stranded |
| EngineLaws.EveryRequestAnsweredOnce | src/x11.rs:401-543 | The same, both directions, for every id in every run, and nothing for ids not handed out |
| Streams.StreamKeepsHistory | src/x11.rs:898-938 | Chunks passed on and queued are the accepted ones, except for the last one if it was lost; between steps a ready stream has nothing queued; chunk sizes and both byte counts stay in bounds |
| Streams.StreamDelivery | src/x11.rs:1217-1314 | The count is the saturated sum of what was emitted; emitted and queued bytes never exceed a limit below 2^64-1; a stream that is gone has emitted everything accepted if and only if it lost no chunk, and else all but that chunk |
| Streams.LateChunkLosesAcceptedOne | src/x11.rs:907-921 | A chunk that was accepted before an Ok end is lost to a late chunk over the limit |
| Streams.DrainBound | src/x11.rs:907-982 | Once an end is queued nothing more is accepted, and the terminator is written after at most one deletion, two if a chunk is queued, over any interleaving of host writes and ends |
| Streams.EndWhenReady | src/x11.rs:1233-1259 | An end or abort that finds the stream ready writes the terminator at once |
| Transfers.BufferedSenderSendsPrefix | src/x11.rs:1329-1352 | At every moment the chunks written concatenate to the data up to the offset, which never passes the data's end |
| Transfers.ChunkCountIsCeiling | src/x11.rs:1446-1455 | The number of chunks is the length divided by the chunk size, rounded up |
| Transfers.BufferedSenderProgress | src/x11.rs:1316-1353 | As many deletions as chunks are left send all data, and exactly the next one sends the terminator and ends the transfer |
| Transfers.ReceiveChunk | src/x11.rs:1141-1186 | A chunk is taken if and only if it fits the rest of the limit and one read, exact fit included |
| Transfers.ReceiverHoldsConcatenation | src/x11.rs:1097-1186 | The receiver holds the concatenation as long as it fits, and fails without data at the first chunk that does not |
| Transfers.ReceiverRefinesConcatenation | src/x11.rs:1141-1186 | Chunks and a terminator give Ok with the concatenation if and only if it fits, and Unsupported otherwise |
| Transfers.ReceiverStaysInLimit | src/x11.rs:1056-1186 | Whatever an owner writes and when: assembled data is the concatenation of the chunks taken and never exceeds the limit asked for, nor does a result, which holds data only with Ok |
| EngineLaws.EveryReceiverStaysInLimit | src/x11.rs:1056-1186 | The same for every id in every run |
| Lifetimes.TwoSweepsSuffice | src/x11.rs:984-1027 | A request that never streams does not survive a sweep a timeout after its start and another a timeout later |
| EngineLaws.NothingOutlivesTwoSweeps | src/x11.rs:984-1027 | The same in every run |
| Lifetimes.StreamLivesByRenewal | src/x11.rs:864-1285 | A stream survives a sweep if and only if a start, a deletion, an end or an accepted write renewed it less than a timeout ago |
| EngineLaws.SweptStreamsAreRecent | src/x11.rs:984-1027 | In every run, right after a sweep every stream has been renewed less than a timeout ago |
| Lifetimes.EndsKeepStreamAlive | src/x11.rs:974-981 | Any number of ends leaves an unready stream in place, last renewed by the last of them |
| EngineLaws.IdsCountUp | src/x11.rs:1413-1417 | After n allocations the counter is at min(n+1, 2^64-1), and no pending id is above n |
| EngineLaws.NewIdIsFree | src/x11.rs:1413-1417 | Before saturation a new id is not in the pending table |
| EngineLaws.LastIdIsReused | src/x11.rs:455-513 | At saturation a new request replaces a pending one |
| EngineLaws.FailedStartAndLastId | src/x11.rs:427-512 | At saturation, a request that fails to start removes the pending one of the same id if and only if its conversion failed |
| EngineLaws.OpenedAsHandedOut | src/x11.rs:1413-1417 | An id is opened as often as the counter hands it out: once, but the last id again and again |
| EngineLaws.RunsAreRegular | src/x11.rs:136-155 | In every run each id that is handed out at most once is only reached by stimuli that match its entry |
| Routing.PendingPropertiesDistinct | src/x11.rs:427-436 | In every run the properties that our requests wait on are pairwise distinct |
| Routing.RoutingIgnoresTableOrder | src/x11.rs:587-660 | A notification with a property, a new value, or a deletion while senders are apart has the same effect in whatever order the table is walked, and leaves all other entries alone |
| Routing.RefusalSettlesOne | src/x11.rs:591-604 | A refusal without a property settles one request that waits for its target, if there is one |
| Routing.RefusalIsSureIffAlone | src/x11.rs:136-149 | Every order of the table leads a refusal to the request refused if and only if no other waits on its target |
| Routing.RefusalGoesAstray | src/x11.rs:591-604 | Two requests for one target: a refusal can fail the first and leave the second waiting |
| Routing.DeletionIsSureIffAlone | src/x11.rs:622-660 | Every order of the table leads a deletion to a given transfer if and only if no other entry waits for deletions of that property |
| Routing.DeletionGoesAstray | src/x11.rs:622-660 | A requestor that asks twice has two streams on one property: a deletion can reach either, with different effects |
| Answers.ConversionsAreMade | src/x11.rs:427-500 | The owner is asked to convert exactly what the host asked for, into the property that bears the request's kind and id |
| Answers.EventsFindTheirRequest | src/x11.rs:136-155 | A notification matches exactly the request whose conversion it answers, with its property or none; a new value exactly an assembling request's property on our window; a deletion exactly a sender's property on its requestor's window |
| Answers.WhatIsReadIsRemoved | src/x11.rs:1029-1186 | After an answer or a chunk has been read, however that comes out, its property is gone from the server, and no other |
| Answers.ReadsAreBounded | src/x11.rs:1029-1186 | A read asks for what is left of the limit, rounded up to four bytes and cut at the longest read |
| Answers.RequestsAreMet | src/x11.rs:545-722 | What each SelectionRequest gets: a refusal, the listing, the time stamp 0, an empty property, or the host's attention |
| Listings.OwnersAnswerIsListed | src/x11.rs:1029-1054 | Any atoms that another owner answers with are reported as their names, by position, without those that have none, up to the 4096th |
| Listings.OddAnswerListsNothing | src/x11.rs:1036-1049 | An answer of another type or format, or none, is reported as an empty list |
| Listings.OwnTableIsListed | src/x11.rs:417-426 | While we own the selection, a listing is each name offered last, once |
| Listings.ListingComesBack | src/x11.rs:672-689 | What a requestor of TARGETS is sent reads back as the special targets' names and then each name offered last, once |
| Ownership.ClearGivesUpOurs | src/x11.rs:515-527 | A clear leaves the selection without an owner if it was ours, and with its owner if not, and empties both tables |
| Ownership.OwnerInPlay | src/x11.rs:375-527 | In every run of the world the selection belongs to whom the last publication, clear or other client gave it; nothing else touches it |
| Ownership.EveryLossIsToldOnce | src/x11.rs:535-540 | In every run of the world, each loss of the selection is told to the host once or its event is still queued |
| Routing.PublishedIsLastOffers | src/x11.rs:375-391 | Each published entry is keyed by its own atom and has the last limit offered for its name |
| Routing.PublishedInRuns | src/x11.rs:375-391 | In every run the published table is what was offered last and not cleared or lost since |
| Routing.AdvertisedIsServed | src/x11.rs:545-560 | In every run the atoms listed for TARGETS are exactly those whose requests are not refused on lookup |
| SelfTransferSafety.SafeKept | src/x11.rs:1141-1353 | Every move of a self transfer, timeouts and misdirected commands included, keeps the token in one place and results prefixes of what was sent |
| SelfTransferSupply.SupplyKept | src/x11.rs:864-982 | What was sent and is queued is a prefix of what the host gave, and all of it while nothing was dropped |
| SelfTransferExact.ExactKept | src/x11.rs:1056-1186 | While nothing is dropped, the receiver ends with everything given or with a refusal that a limit justifies |
| SelfTransferCuts.CutKept | src/x11.rs:864-1186 | Every move keeps the tally: a result that may still come, or has come, with Ok is whole, or short once a move has cut the transfer |
| SelfTransferProgress.ArrivalsAreProgress | src/x11.rs:1316-1353 | Once the host has given everything, buffered or streamed, some event is on its way until the result is there, and each arrival lowers a bound on those left |
| LoopbackLaws.MoveShadowed | src/x11.rs:587-660 | Every move of the world is one move of the transfer on its own, and keeps other requests off its property |
| LoopbackTheorems.WorldRefinesTransfer | src/x11.rs:321-373 | Every run of the world refines a run of the transfer, which stays safe and well supplied |
| LoopbackTheorems.TokenIsInOnePlace | src/x11.rs:1200-1285 | While both ends live, exactly one holds: unread header with notification under way, unread chunk with its event under way, no property with its event under way, no property and the host's turn |
| LoopbackTheorems.OnlyTimeoutOverwrites | src/x11.rs:1011-1017 | While both ends live, unread data is overwritten if and only if the sender's deadline passes |
| LoopbackTheorems.ReceivedIsPrefixOfGiven | src/x11.rs:1141-1186 | In every run there is at most one result, and data with Ok is a prefix, at a chunk boundary, of what the host gave |
| LoopbackTheorems.OkIsWholeUnlessCut | src/x11.rs:984-1186 | In every run, whatever interferes: a result with Ok is everything the host gave if and only if no move cut the transfer |
| LoopbackTheorems.SmoothTransferIsExact | src/x11.rs:864-1186 | When nothing interferes, inline, buffered or streamed: the result is Ok with everything given, the sender having finished, if and only if announced size and data are inside the limit, and Unsupported otherwise |
| LoopbackTheorems.AnnouncedTooBigIsRefused | src/x11.rs:1114-1120 | A header above the limit ends the transfer with Unsupported when it is read |
| LoopbackTheorems.EndedTransferDelivers | src/x11.rs:1056-1353 | From the moment everything is given the result comes within the arrivals left then, and is there when no event about the transfer is queued |
| LoopbackTheorems.EndedStreamDelivers | src/x11.rs:1233-1304 | A stream whose end is recorded needs at most six more arrivals |
| LoopbackTheorems.SelfRequestDeliversData | src/x11.rs:724-800 | A request for our own data, completed at any later time with any payload, over every interleaving in which nothing interferes: Ok with exactly the payload if and only if it fits the requester's limit, else Unsupported without data, within a number of arrivals fixed by the length |
| LoopbackOrigin.RequestComesBack | src/x11.rs:455-513 | Asking for data that we own queues a request to ourselves |
| LoopbackOrigin.RequestStaysQueued | src/x11.rs:455-513 | Any other move, the passing of time included, leaves that request alone as long as the asker waits and the id of the serving entry is not handed out |
| LoopbackOrigin.DeliveredRequestIsHanded | src/x11.rs:545-585 | Its delivery, with its target on offer, asks the host and gives the state from which the theorems about transfers start |
| LoopbackOrigin.PlayRunsEngine | src/x11.rs:321-373 | Every run of the world is a possible run of the engine, so that the laws of runs hold in it |
| LoopbackOrigin.UntouchedFromOrigin | src/x11.rs:1419-1421 | In every run from the start, nothing has to do with the property of a request that has not been made |
| LoopbackOrigin.ErrandReachesHost | src/x11.rs:455-585 | From the start of the world: anything, then asking for our own data, any moves that neither end the waiting nor deliver, and the delivery lead to the host's being asked |
| LoopbackOrigin.ErrandDeliversData | src/x11.rs:455-1353 | The whole errand from the start of the world to the result, with any moves between its steps: exactly the payload if it fits the limit that the program asked with, or the default if that was 0, and else Unsupported |
| LoopbackOrigin.ShortErrandReachesHost | src/x11.rs:375-585 | Publishing, asking and delivering is such an errand, for every target that is not special |
| LoopbackLoss.TimeoutLosesData | src/x11.rs:1011-1017 | From every state in which the host was just asked and nothing is queued, for any payload that goes in chunks and fits the limits: eight moves in which the sender times out over the unread first chunk, before the receiver does, and the receiver reports Ok with nothing |
| LoopbackLoss.ErrandLosesData | src/x11.rs:375-1186 | The same from the start of the world: publishing, asking, delivering, and those moves |
| LoopbackSession.Session.Do | src/x11.rs:338-373 | A command whose round trips the server answers, with what the engine says carried out, is one move of the world |
| LoopbackSession.Session.Deliver | src/x11.rs:529-543 | Handling the event at the head of the server's queue, with the property that the server holds, is one move of the world |
| LoopbackSession.Session.TakeTurn | src/x11.rs:322-336 | A turn of the event loop against the server is a possible play of the world: all its commands, then each event that is polled and whatever others do, then the sweep; or, if there is a Stop, the commands before it |
| LoopbackSession.Session.EventLoop | src/x11.rs:322-336 | So is the whole loop, turn after turn, and nothing else; at a Stop a clear follows, both tables are empty, and the selection is not ours |
| LoopbackSession.ErrandInSession | src/x11.rs:455-1353 | An errand that the loop has played, while nothing interfered, has given exactly the payload if it fits the limit that the program asked with, or the default if that was 0, and else Unsupported |
| Clipboard.Handle.Start | src/clipboard.rs:270-297 | Adds a runtime with an empty channel unless there is one or the thread cannot be made |
| Clipboard.Handle.Send | src/clipboard.rs:380-393 | Appends to the current channel, or NotStarted, or PlatformError if the worker has gone |
| Clipboard.Handle.Take | src/clipboard.rs:299-306 | Takes the runtime out of the handle, so that no later send can reach it |
| Clipboard.Handle.AskToStop | src/clipboard.rs:307-310 | Sends Stop outside the lock; a worker that has gone is not asked |
| Clipboard.Handle.Join | src/clipboard.rs:311-316 | PlatformError if and only if the worker panicked |
| Clipboard.StatusesSayWhy | src/clipboard.rs:270-393 | What start, send and join return follows from the calls before them: AlreadyStarted while a worker is held, NotStarted while none is, PlatformError if it cannot be made, has broken off, or, for a join, panicked |
| Clipboard.EveryRunKeepsInv | src/clipboard.rs:270-317 | In every interleaving each channel holds, in lock order, the commands whose send returned Ok for it, and then at most a Stop |
| Clipboard.StopIsLast | src/clipboard.rs:299-317 | A Stop is the last command that ever enters a channel, and only after the runtime was taken |
| Clipboard.ReceivedInLockOrder | src/clipboard.rs:380-393 | A worker receives accepted commands in lock order, each once, and nothing else but a Stop |
| Clipboard.NothingAcceptedIsLost | src/clipboard.rs:299-317 | When a stop is about to return and the worker did not fail, it has received every accepted command and the Stop |
| Clipboard.EngineGetsAllAccepted | src/x11.rs:338-373 | Then the event loop, in whatever turns, has brought exactly the accepted commands to the engine |
| Clipboard.StopTakesWhatIsQueued | src/clipboard.rs:299-317 | Once asked to stop, a worker that does not fail ends after exactly the commands queued then, whatever other threads do |

## Left out

- Connection errors in the middle of a step: a connection error ends the source's event loop, so a run of the model is
  what happened before it. Failures while a request of ours is being started, after which the engine goes on, are modelled.
- Connecting, window creation and naming, XFixes events, `targets_changed` (src/x11.rs:195-308, 662-670).
- The C interface, option defaults, string conversion, panics in callbacks and absent callbacks (src/abi.rs,
  src/clipboard.rs:55-204); the model assumes what the defaults guarantee, that `max_inline_bytes` and the timeout are
  at least 1, and an offered name is never refused for its characters.
- The fake backend (src/x11.rs:164-193), texts of error messages, atom names that are not UTF-8.
- Time inside one step: all deadlines set in a step are counted from one reading of the clock. Sleeps and the
  five-second wait for a reply are not modelled. `usize` is taken to have 64 bits, and atoms are not bounded.
- At most one live worker at a time: the source does not guarantee it, since the lock is free again before the join.
  Poisoning of the lock, which needs a panic while it is held, and dropping the handle without a stop.
- That the published table agrees with the server's idea of the owner: a SelectionClear may be late.
- Windows of other clients: the server model keeps the properties of our window only.
- LoopbackTheorems.ReceivedIsPrefixOfGiven: `CivilRun` excludes other clients that send events about the transfer's
  property, ids that run out, and payloads longer than 2^64-1 bytes; everything else may interfere.
- LoopbackTheorems.SmoothTransferIsExact: `SmoothRun` excludes timeouts, clears, misdirected commands, misrouted refusals,
  failed ends and writes over the limit. Some of these do no harm; what exactly makes an Ok result fall short is
  `LoopbackTheorems.OkIsWholeUnlessCut`, which excludes none of them. As for every theorem about self transfers, the
  target is not the atom INCR itself, which the receiver would take for a header.
- LoopbackOrigin.ErrandDeliversData: the same two assumptions, and that the asker's waiting is not ended, by a timeout, a
  clear, a misdirected command or a misrouted refusal, before its request is delivered.
- EngineLaws.EveryRequestAnsweredOnce: not for the id 2^64-1 after its second use, when two requests share it.
- EngineLaws.EveryConversationConforms: not for the id 2^64-1 after its second use, for the same reason.
- EngineLaws.EveryReceiverStaysInLimit: not for the id 2^64-1 after its second use, for the same reason.
