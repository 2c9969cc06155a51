# A verified model of the proxy relay

The relay carries many TCP streams of one browser page over an unreliable carrier: HTTPS requests or
WebSockets, multiplexed or one lane per stream. This project models the relay's session engine
(`internal/session/session.go`), its manager (`internal/session/manager.go`), the frame codec
(`internal/frame/frame.go`), the queues of the page's bridge (the JavaScript in
`internal/bridge/page.go`) and the scanner that keeps credentials out of forwarded requests
(`internal/server/secrets.go`), and proves what they promise over every run.

`dafny verify dfyconfig.toml` checks everything.

## How it is built

| Files | What they hold |
|---|---|
| `Frame` | the codec, as the program's loops and as a recursive specification |
| `SecretScanner` | percent decoding and the window scan |
| `RateLimit`, `Tallies`, `Manager` | token buckets, counters, and the manager as a class |
| `Charges`, `Budget` | the budget, split by class of charge; the relay-wide ledger |
| `DownQueue`, `Tombstones`, `Lane` | the coalescing queue, the ring of closed ids, one carrier lane |
| `LaneRuns` | all runs of one lane's downlink: competing polls, network, client |
| `SessionState` | the session as a state machine, one function per critical section |
| `RelaySession` | the session as a class whose methods update it in place, each proved to be its function |
| `SessionInv`, `SessionSteps`, `Application`, `Validation`, `SessionRuns` | the session's invariant, over all runs; validation against application |
| `LaneLink`, `Credits`, `DownlinkRuns` | every session's lanes go through the runs of `LaneRuns`; downlink and credit theorems for whole sessions |
| `Acceptance`, `Closing` | which batches are accepted; how the end of a stream is reported |
| `EvictedTombstone`, `ForgottenLane` | runs in which the program dereferences nil, loses a body, applies one twice |
| `LaneRegister`, `Sockets` | how lanes enter and leave the register; one socket at a time |
| `Isolation`, `Uplink`, `Flow`, `Headroom` | lane isolation, exactly-once uplink, byte streams and windows, room for control frames |
| `ManagerCalls`, `Relay` | the calls a section makes to the manager; many sessions, their backends and the relay-wide ledger, call by call |
| `Bridge`, `BridgeQueues`, `Delivery` | packing, the page's queues as a class, and delivery from page to relay |
| `Journey` | page, uplink, batches and the backend's writer in one run |

A critical section under a mutex is one atomic step. `ProcessUp`, which leaves the lock to parse, is two;
`Poll` and `PollLane` are one for each time they hold the lock, and receiving from the `notify` channel is
a step of its own. Runs are arbitrary interleavings of these steps, with requests and replies that the
network delays, repeats and loses. Answers of the manager (is the charge granted, is there a ticket) are
arbitrary inputs of a session's step, which records its calls. In `Relay` the sections of different
sessions interleave call by call, every answer is that of the ledger, the ceilings and the rate limiter at
that moment, and a section ends only if the answers it was given are the ones it went by. Channels of
capacity one are booleans, poll identities are numbers never used twice, SHA-256 is injective, time is a
parameter, tokens of the rate limiter are reals.

A multiplexed session's own downlink and uplink fields and a `carrierLane` have the same layout in the
program, and their code is written out twice; here both are lanes, and the twins are one function.

## What the proofs found

- Validation and application disagree in one case. `validateBatchLocked` looks up tombstones as they were
  before the batch (`internal/session/session.go:737`), `applyBatchLocked` as they are when it comes to the
  frame (`internal/session/session.go:830`). A multiplexed batch that closes or is refused enough streams
  to push a tombstone out of the ring, and then carries late DATA, WINDOW or CLOSE for that id, passes validation
  and dereferences a nil stream. `EvictedTombstone.EvictedTombstoneIsReached` is a run of two requests that
  does, with a ring of one; `Validation.ValidatedBatch` says exactly which batches do, and
  `Validation.SurelyRetained` that no lane body can, nor any body that leaves room in the ring. Everything
  else is proved of all runs up to such a panic, after which the session's lock stays held.
- On HTTPS lanes the uplink is exactly once only as long as the relay remembers the lane. When as many
  streams as the ring holds have been closed after the lane's own, the lane leaves the register
  (`internal/session/session.go:1339`). From then on a late body is acknowledged without being applied
  (`internal/session/session.go:359`, as `PROTOCOL.md:308` allows), which the page takes for delivered, and a copy
  of the opening body that the network has delayed registers a new lane and is applied again, with a new
  backend (`internal/session/session.go:378`). `ForgottenLane.LateBodyIsLost` and
  `ForgottenLane.FirstBodyIsAppliedTwice` are such runs from a new session on;
  `Uplink.UplinkExactlyOnce` says that exactly these two kinds of requests break it (a late copy of a
  body already committed does no harm), and `Uplink.RememberedLane` that none comes while fewer streams
  have been closed.
- `nextWrite`, `backendDrained` and `backendWriteFinished` look a stream up by its id alone
  (`internal/session/session.go:908`). If an id is opened again, its tombstone having left the ring, while the
  writer of its earlier stream still runs, that writer takes the new stream's bytes:
  `Flow.OtherWriterTakes`. What is proved of a stream's bytes is proved with its own writer alone.
- A percent sign in front of a credential, with or without a hex digit after it, can hide it from the
  scanner, if the credential begins with hex digits: `SecretScanner.DanglingEscapeHidesSecret`.
  `SecretScanner.EmbeddedSecretMissed` says exactly when a credential is missed.
- A body whose refused OPEN cannot be answered has been applied in part when the session is closed for it.
  In between the lock is free, but a retry of that body fails validation: `Journey.TornBodyIsRejected`.
- Both budget panics (`internal/session/session.go:1390`, `internal/session/manager.go:502`) and both
  accounting panics (`internal/session/manager.go:442` and `internal/session/manager.go:459`) are
  unreachable.
- On lanes, `ErrConcurrent` cannot occur: nothing sees `upActive` set.

## Model

| member | source | states |
|---|---|---|
| `Frames.EncodeFrame` | internal/frame/frame.go:43-55 | the buffer filled in place is the header (type, 24-bit id, 32-bit length, big-endian) and the payload; an id over 24 bits is the panic |
| `Frames.ParseAll` | internal/frame/frame.go:57-89 | the loop returns what the recursive specification of a batch does: empty batch, incomplete frame, oversized payload and too many frames are told apart as in the source |
| `Frames.CodecRoundTrip` | internal/frame/frame.go:43-89 | a body parses to a list of frames if and only if it is their concatenated encodings, there are 1 to 4096 of them, and each payload is within the limit |
| `Frames.FailsExactly` | internal/frame/frame.go:57-89 | which error a body gets, and when: an empty body; otherwise, after whole frames within the limit, a 4097th frame, a length over the limit, or a body that ends inside a frame |
| `Frames.ClientShapes` | internal/frame/frame.go:123-147 | the frames accepted from a client are exactly an OPEN or CLOSE without payload, DATA with some, a WINDOW of a positive amount, each on a stream, and a PONG of at most 64 bytes on none |
| `Frames.ParseConcat` | internal/frame/frame.go:57-89 | parsing two bodies side by side is parsing them one after the other, within the frame limit |
| `Frames.WindowRoundTrip` | internal/frame/frame.go:106-121 | a nonzero 32-bit WINDOW amount survives encoding and decoding |
| `SecretScanner.DecodeEscapes` | internal/server/secrets.go:70-90 | one left-to-right pass decodes well-formed escapes and keeps malformed ones |
| `SecretScanner.ContainsSecret` | internal/server/secrets.go:70-111 | true if and only if some 43-byte window of base64url characters of the decoded text is accepted by a classifier |
| `SecretScanner.DecodedEscaped` | internal/server/secrets.go:70-90 | decoding undoes every spelling: a text without percent signs comes back whichever of its characters are escaped, with digits of either case |
| `SecretScanner.DigitIsRead` | internal/server/secrets.go:75-83 | each of the sixteen digits, in either case, stands for its place in the table |
| `SecretScanner.HexDigits` | internal/server/secrets.go:75-83 | the digits of an escape are exactly the characters of the two tables |
| `SecretScanner.Base64Table` | internal/server/secrets.go:108-111 | the characters of a credential are exactly those of the base64url alphabet |
| `SecretScanner.EscapedSecretFound` | internal/server/secrets.go:70-111 | a credential is found in every spelling, whatever surrounds it, unless its first characters complete an escape before it |
| `SecretScanner.MalformedIsKept` | internal/server/secrets.go:75-90 | a percent sign that no two hex digits follow is kept and what follows it decoded on its own |
| `SecretScanner.DecodedConcat` | internal/server/secrets.go:70-90 | decoding distributes over concatenation exactly when the second text does not complete an escape the first breaks off in |
| `SecretScanner.EmbeddedSecretFound` | internal/server/secrets.go:70-111 | a credential is found however its characters are escaped and whatever surrounds it, unless its first characters complete an escape before it |
| `SecretScanner.EmbeddedSecretMissed` | internal/server/secrets.go:70-111 | a credential is missed if and only if its first characters complete an escape before it and no window of the text decoded around that escape is a credential |
| `SecretScanner.DanglingEscapeHidesSecret` | internal/server/secrets.go:70-111 | the exception is real: after a percent sign a credential that begins with two hex digits goes unseen; after a percent sign and a hex digit one that begins with a hex digit is seen if and only if the decoded character and the rest are again a credential |
| `RateLimit.CoupledBuckets.AllowProfile` | internal/session/manager.go:552-601 | the in-place buckets after a request are those of the specification, with its answer |
| `RateLimit.AllowDebits` | internal/session/manager.go:552-601 | an admission takes one token from the relay-wide and from the profile bucket, a refusal by either takes none and changes nothing; a request is admitted exactly when both hold one |
| `RateLimit.LevelRises` | internal/session/manager.go:583-601 | over time a bucket gains its rate times the time passed, up to its burst and no further; a bucket never asked is full |
| `RateLimit.AdmittedExactly` | internal/session/manager.go:552-601 | in every run a request is admitted if and only if, for neither of its two buckets, any stretch of the run ending with it would hold more admissions than burst plus rate times the time of the stretch |
| `RateLimit.AdmissionsBounded` | internal/session/manager.go:552-601 | in every stretch of every run, admissions are at most burst plus rate times elapsed time, for the relay-wide bucket and for each profile |
| `RateLimit.LazyRefillIsEager` | internal/session/manager.go:552-601 | not refilling on a refusal gives the same answers as always refilling |
| `Managers.Manager.constructor` | internal/session/manager.go:101-124 | nothing is counted and the invariant holds |
| `Managers.Manager.ChangePendingBudget` | internal/session/manager.go:469-506 | a release, or a charge within the ceiling of its class, changes the ledger by exactly its amounts, any other charge changes nothing; the panic is the ledger below zero, and no charge of one class or release of part of a session's share gets there: then the ledger stays the sum of the shares |
| `Managers.Manager.AcquireStream` | internal/session/manager.go:405-434 | a ticket is granted exactly when the manager is open, fewer tickets and fewer dialing tickets than each ceiling are out, in all and of the profile, and both buckets admit it; then it is counted everywhere and the buckets are debited, otherwise nothing changes |
| `Managers.Manager.BackendDialFinished` | internal/session/manager.go:436-453 | a dialing ticket stops dialing and is uncounted; the panic is a counter at zero, which no ticket still dialing meets |
| `Managers.Manager.StreamFinished` | internal/session/manager.go:455-467 | a ticket is given back and uncounted everywhere; the panic is a counter at zero, which no ticket given out meets |
| `Managers.DialsWithinStreams` | internal/session/manager.go:405-467 | dials in flight never exceed live streams, and each total is the sum of the per-profile counters |
| `Managers.Manager.RemoveBootstrap` | internal/session/manager.go:508-523 | the bootstrap goes, and its address is uncounted if it was unused |
| `Managers.Manager.RemoveExpired` | internal/session/manager.go:631-636 | exactly the bootstraps whose time is over go |
| `Managers.Manager.EvictOldestUnused` | internal/session/manager.go:525-540 | an unused bootstrap that expires no later than any other unused one goes; it fails only if all are used |
| `Managers.Manager.IssueBootstrap` | internal/session/manager.go:143-183 | refused exactly when an address is at its limit, every bootstrap is in use at the global limit, or the rate is exceeded; an issued bootstrap is added to the unexpired ones, the oldest unused one making room for it exactly when there is none; a refusal only drops expired ones; the rate is debited unless the address was full |
| `Managers.Manager.Create` | internal/session/manager.go:185-273 | missing, expired, replayed with the same body, replayed with another body, refused and created are told apart as in the source; a session is created exactly when the sessions in the register are fewer than each ceiling, in all, of the profile and of the address, and both buckets admit it; it is counted and bound to the one bootstrap, which gave no session before |
| `Managers.Manager.SessionFinished` | internal/session/manager.go:368-403 | the session and its bootstrap are gone, and uncounted |
| `Budget.LedgerCallKeepsBalance` | internal/session/manager.go:469-506 | any charge of one class, or release of part of what a session holds, keeps the ledger equal to the sum of the shares and its data below the ceiling; the panic is unreachable |
| `Budget.GlobalControlHeadroom` | internal/session/manager.go:474-499 | relay-wide, a control charge is refused only if the control frames held and this one exceed one control reserve for every session the configuration allows |
| `Budget.GlobalDataHeadroom` | internal/session/manager.go:474-499 | relay-wide, a charge for data is refused only if it and what is pending leave less than one control reserve for every session the configuration allows |
| `Budget.DataHeadroom` | internal/session/session.go:1212-1265 | a session refuses a charge for downlink data only if it and what is pending leave less than the reserves for control frames and for one uplink body |
| `Budget.AdmissionKeepsPartition` | internal/session/session.go:1246-1265 | what the session admits keeps each class within its own ceiling and the sum of all classes within the session's limit |
| `DownQueue.PushKeepsInv` | internal/session/session.go:1035-1155 | the index map has exactly the streams with a WINDOW frame queued and points to the last one of each, also when a merge would overflow 32 bits and a second frame is begun |
| `DownQueue.PushRefinesAppend` | internal/session/session.go:1035-1155 | to every stream the coalescing queue is a plain list: same DATA bytes in order, same place of its CLOSE, same total credit |
| `DownQueue.PushCharges` | internal/session/session.go:1035-1155 | what is reserved for a frame is what the queue then holds more, kind by kind |
| `DownQueue.BatchIsPrefix` | internal/session/session.go:1267-1329 | a batch is a nonempty body that parses to exactly the frames taken off the queue, charged exactly their cost, over the batch limit only if it is one frame; the renumbered index map is again right |
| `DownQueue.BatchIsMaximal` | internal/session/session.go:1267-1329 | a batch takes all it can: what is left behind is nothing, or a frame too many, or a frame that would have taken the batch over its limit |
| `Tombstones.RingRefinesFifo` | internal/session/session.go:1331-1355 | the ring is a first-in first-out list of distinct ids; the set is exactly its elements, and the id evicted is the oldest |
| `Tombstones.RingHoldsLastArrivals` | internal/session/session.go:1331-1355 | after any run it holds exactly the last arrivals up to its capacity, in order |
| `LaneRuns.DownlinkExactlyOnce` | internal/session/session.go:446-691 | over every run of a lane: the client holds precisely the batches up to its cursor, every nonempty reply is the batch its cursor names, and at most the last batch is missing until the lane is dropped |
| `LaneRuns.DownlinkComplete` | internal/session/session.go:446-691 | what the client holds and what the lane still keeps are, to every stream, all that was queued: DATA bytes, place of CLOSE, credit |
| `LaneRuns.ClientIsServed` | internal/session/session.go:446-518 | whatever the lane has been through, a client that asks with its own cursor is answered: with the unacknowledged batch if it lacks it, and otherwise it owns the lane, and gets what is queued at once |
| `LaneRuns.DeadlineAnswers` | internal/session/session.go:533-547 | at its deadline a poll answers, with what is queued if the lane is its own, else with nothing |
| `LaneRuns.QueueStaysCompact` | internal/session/session.go:1035-1155 | merging never falls behind: in every run, no two neighbours in the queue are DATA of one stream that one frame could carry, and no two successive grants of a stream fit into one |
| `LaneRuns.NoLostWakeup` | internal/session/session.go:480-556 | a parked owner with frames pending, or with its lane over, has the token waiting, or some woken poll is about to run |
| `LaneRuns.WakeupIsUsed` | internal/session/session.go:480-556 | and it is used: the token is there, or some woken poll passes it on, takes the batch or reports the end |
| `LaneRuns.CleanClose` | internal/session/session.go:608-645 | a poll reports the lane as over only with nothing queued or unacknowledged; unless the lane was dropped, the client then has everything ever queued |
| `LaneLink.SectionIsLaneEvents` | internal/session/session.go:1035-1155 | every section of a session other than a lane's own polls, and other than one that queues DATA or WINDOW there, takes that lane through events of its runs, of which only a CLOSE is queued |
| `LaneLink.FeedingIsPush` | internal/session/session.go:939-1018 | DATA read from a backend and the WINDOW for bytes a backend has taken are queued on the stream's lane, as that one frame |
| `LaneLink.PollSectionIsEvent` | internal/session/session.go:446-691 | each section of a poll is the matching event of the lane's run |
| `DownlinkRuns.SessionDownlinkExactlyOnce` | internal/session/session.go:446-691 | in every run of every session, each lane's client holds exactly the first batches, once and in order; the cursor counts the batches formed; at most the last is missing and then it can be replayed |
| `DownlinkRuns.SessionDownlinkIntegrity` | internal/session/session.go:1006-1018 | the bytes the client has of a stream are the first bytes read from its backend and queued; until the lane is dropped, the rest is what the lane still holds |
| `DownlinkRuns.SessionNeverLosesWakeup` | internal/session/session.go:480-556 | no poll of any session's lane sleeps through frames or an end meant for it; the end is read off the fields: the session closed, the lane no longer registered as this object, or its stream gone and remembered as closed |
| `DownlinkRuns.WokenAnswers` | internal/session/session.go:608-645 | what a woken poll answers, by the fields of the session: the batch, the end of the session, the end of the lane; it waits again exactly when no frame is pending and none of the ends has come |
| `DownlinkRuns.EnterAnswers` | internal/session/session.go:558-645 | the same of the first section of a poll |
| `DownlinkRuns.PollBegins` | internal/session/session.go:558-606 | how any poll begins, in every run, by the batches formed so far: behind the last one it takes the lane over, with the last one's cursor it gets that batch again while the lane has it, with any other it fails; it is turned away from a closed session and from a lane that is gone |
| `DownlinkRuns.RegisteredLaneStarts` | internal/session/session.go:361-381 | a lane registered by an OPEN is such a run from its first section on |
| `DownlinkRuns.AcquiredLaneStarts` | internal/session/session.go:192-218 | so is a lane registered by a WebSocket |
| `DownlinkRuns.NewSessionsLaneStarts` | internal/session/session.go:147-176 | and a multiplexed session's own lane, and lane 0 of HTTPS lanes |
| `RelaySession.Session.constructor` | internal/session/session.go:147-176 | an empty session, with lane 0 for HTTPS lanes |
| `RelaySession.Session.QueueFrameLocked` | internal/session/session.go:1035-1155 | the frame is refused, merged, extended or appended as the specification says, with its charge |
| `RelaySession.Session.ReleaseLaneLocked` | internal/session/session.go:1357-1373 | the lane is emptied and its charges given back, in the program's loop over its frames |
| `RelaySession.Session.RememberClosedLocked` | internal/session/session.go:1331-1355 | the ring remembers the id; the evicted id's lane is released and unregistered; the id's own lane is signalled |
| `RelaySession.Session.CloseLocked` | internal/session/session.go:1415-1451 | every lane and stream is dropped and the whole budget given back |
| `RelaySession.Session.ValidateBatchLocked` | internal/session/session.go:720-785 | the loop accepts exactly the batches the specification does |
| `RelaySession.Session.BackendWriteReservationLocked` | internal/session/session.go:787-812 | the loop computes the specified reservation |
| `RelaySession.Session.AppendBackendWriteLocked` | internal/session/session.go:886-906 | the write is queued or coalesced, at the cost returned |
| `RelaySession.Session.ApplyBatchLocked` | internal/session/session.go:814-884 | the loop does what applying frame by frame does, stopping where the source stops or panics |
| `RelaySession.Session.CommitBatchLocked` | internal/session/session.go:296-318 | validate, reserve, apply and commit; a refused batch leaves no trace |
| `RelaySession.Session.ProcessUpBegin` | internal/session/session.go:248-284 | first section of `ProcessUp` |
| `RelaySession.Session.ProcessUpFinish` | internal/session/session.go:290-335 | second section of `ProcessUp` |
| `RelaySession.Session.ProcessUpLane` | internal/session/session.go:337-444 | the whole of `ProcessUpLane`, with late frames for a lane that is gone |
| `RelaySession.Session.Close` | internal/session/session.go:699-703 | as `CloseLocked` |
| `RelaySession.Session.LaneProtocolFailure` | internal/session/session.go:1401-1413 | a WebSocket lane that fails is released, any other failure closes the session |
| `RelaySession.Session.AcquireWebSocketLocked` | internal/session/session.go:182-190 | one socket at a time |
| `RelaySession.Session.AcquireWebSocketLaneLocked` | internal/session/session.go:192-218 | refused for a remembered id, or beyond the lane limit; otherwise one socket at a time |
| `RelaySession.Session.ReleaseWebSocketLaneLocked` | internal/session/session.go:220-246 | the lane's stream ends and the lane goes |
| `RelaySession.Session.TakeWrite` | internal/session/session.go:908-937 | the oldest write leaves the queue and stays charged |
| `RelaySession.Session.BackendDrained` | internal/session/session.go:939-954 | guards, release, window and the WINDOW frame |
| `RelaySession.Session.BackendWriteFinished` | internal/session/session.go:956-967 | guard and release of the item |
| `RelaySession.Session.BackendDataRead` | internal/session/session.go:1006-1018 | credit is taken, and the DATA frame queued if the budget allows |
| `RelaySession.Session.BackendGone` | internal/session/session.go:1020-1033 | the stream of this backend ends, with a CLOSE; if that cannot be queued the session closes |
| `RelaySession.Session.PollFirst` | internal/session/session.go:446-518 | a poll up to its first wait: replay, wrong cursor, or acknowledge, take over and try |
| `RelaySession.Session.PollAgain` | internal/session/session.go:548-554 | after the token: batch, end of the lane, wait again, or pass the token on |
| `RelaySession.Session.PollTimesOut` | internal/session/session.go:533-547 | the deadline: a last try, then an empty reply |
| `RelaySession.Session.PollLeaves` | internal/session/session.go:520-527 | a cancelled poll resigns the lane, or passes the token on |
| `RelaySession.Session.PollGivesWay` | internal/session/session.go:528-532 | a displaced poll passes the token on |
| `SessionRuns.StepKeepsInv` | internal/session/session.go:248-1451 | every section keeps the session's invariant: exact budget in every class, windows, index maps, lanes holding only their own stream's frames, tombstones disjoint from live streams; the one panic is the nil stream of an unretained id |
| `SessionRuns.ReachableInv` | internal/session/session.go:1385-1399 | in every reachable state the budget panic has not happened, and unless a batch dereferenced nil the invariant holds |
| `SessionRuns.UpLaneKeepsInv` | internal/session/session.go:337-444 | on lanes nothing panics at all |
| `SessionSteps.RememberKeepsInv` | internal/session/session.go:1331-1373 | evicting a tombstone releases exactly what its lane still held |
| `SessionSteps.LaneReleaseKeepsInv` | internal/session/session.go:1357-1399 | giving back what a lane no longer holds keeps the budget exact in every class, and never trips the budget panic |
| `SessionSteps.DropStreamKeepsInv` | internal/session/session.go:1375-1383 | so does ending a live stream, whose writes are given back, and nothing else changes |
| `SessionSteps.CloseKeepsInv` | internal/session/session.go:1415-1451 | a closed session holds nothing and has given everything back |
| `Headroom.BudgetConserved` | internal/session/session.go:1246-1399 | over every run, cost and items pending are the sums over live streams' writes, queued frames and unacknowledged batches of all lanes; within the limits; zero once closed |
| `Headroom.ControlFramesHaveRoom` | internal/session/session.go:1160-1265 | in every reachable state a control frame is refused only if the control frames held and this one exceed the control reserve, or the session limit |
| `Headroom.UplinkHasRoom` | internal/session/session.go:1160-1265 | with no uplink write or control frame outstanding, every body within the body limit is admitted however full the downlink is, if the session limits cover both reserves |
| `Headroom.AllowanceIsExact` | internal/session/session.go:969-1018 | a read is within the allowance if and only if the session would queue it as a frame of its own at once, the manager willing; only a read that joins the frame queued last may be larger |
| `Validation.ValidatedBatch` | internal/session/session.go:720-884 | a validated batch is applied without touching a missing stream if and only if no id it refers to has left the tombstones by then, which depends on live ids, tombstones and the manager's answers alone; windows never underflow, use never exceeds the reservation, and admitted streams end with the simulated windows |
| `Validation.SurelyRetained` | internal/session/session.go:720-884 | no lane body panics, nor any body with whose OPEN and CLOSE frames the ring does not overflow |
| `Acceptance.AcceptedExactly` | internal/session/session.go:720-785 | a batch is accepted if and only if each frame is in order given what the session has live and remembered and what the batch itself has opened, closed and sent before it |
| `Validation.EvictedTombstonePanics` | internal/session/session.go:737-830 | a batch that does panic |
| `EvictedTombstone.EvictedTombstoneIsReached` | internal/session/session.go:248-335 | two requests, through both sections of `ProcessUp` each, that take a new session with a ring of one to the nil dereference, whatever its other limits |
| `Closing.OpenIsGranted` | internal/session/session.go:826-852 | an OPEN is granted exactly when the session has room for one more stream and the manager a ticket; the stream is live with both windows full, and nothing else has changed |
| `Closing.RefusedIsTold` | internal/session/session.go:833-845 | a refused OPEN is remembered and its CLOSE queued on the stream's lane, or the batch stops there |
| `Closing.BackendAppends` | internal/session/session.go:1020-1033 | when a live stream is ended by its own backend, the session is closed or exactly one CLOSE has been queued on its lane, after all its DATA |
| `Closing.SectionPushes` | internal/session/session.go:1006-1033 | over whole runs, a section pushes on a lane, as its stream sees it, exactly the DATA read from the backend or exactly the CLOSE of an ended or refused stream |
| `Closing.EndReachesClient` | internal/session/session.go:1020-1033 | over every run, once a stream has been ended by its backend or refused, what its client holds and what the lane still keeps end in its CLOSE, until the lane is dropped or the id opened again |
| `Headroom.EndIsReported` | internal/session/session.go:1020-1033 | the end of a backend does not close the session while its CLOSE fits what the control frames have left of their reserve, the manager willing |
| `Headroom.PieceIsGranted` | internal/session/session.go:939-954 | of bytes that a backend has taken, exactly as many fewer wait, exactly as many more may be sent, and the credit queued for the client of that stream grows by exactly that amount, no other stream's and no DATA changing |
| `Headroom.PieceIsReturned` | internal/session/session.go:939-954 | a piece that a backend has taken of its pending bytes is accepted whenever its WINDOW fits what the control frames have left of their reserve |
| `Headroom.QueuedExactly` | internal/session/session.go:1246-1265 | a frame is queued exactly when it merges with one queued, or the session has room for its charge and the manager grants it |
| `Isolation.LaneIsolation` | internal/session/session.go:337-444 | a lane request leaves every other stream and lane as it was, except a lane whose tombstone it pushes out of the ring |
| `Isolation.CommitSpares` | internal/session/session.go:296-318 | a batch moves its own lane's sequence number when applied, and no other |
| `Uplink.UplinkExactlyOnce` | internal/session/session.go:248-444 | over every run with delayed, repeated and lost requests: the batches committed on a lane are the first bodies the bridge sent, each once, under its own number and in order, what is acknowledged is committed and at most the last body is missing, throughout, if and only if no request comes to a lane the relay has forgotten and is either the next body and acknowledged as late, or applied though something was committed before; on a multiplexed carrier none does |
| `Uplink.RememberedLane` | internal/session/session.go:1331-1355 | on HTTPS lanes, while fewer streams than the ring holds have been closed after the lane's own, the lane is registered, its sequence number counts the committed bodies, and everything is committed exactly once |
| `LaneRegister.SectionCloses` | internal/session/session.go:337-444 | every section remembers at most one id, and the register changes only by the lane an OPEN or a WebSocket registers and the lane of the tombstone pushed out (or, on WebSocket lanes, a lane released) |
| `LaneRegister.KeptStays` | internal/session/session.go:1331-1355 | a registered lane stays so through every section until as many ids as the ring holds have been remembered after its own |
| `ForgottenLane.LateBodyIsLost` | internal/session/session.go:359-371 | a run from a new session of HTTPS lanes with a ring of one: the page has two bodies acknowledged, the relay has committed one |
| `ForgottenLane.FirstBodyIsAppliedTwice` | internal/session/session.go:337-444 | another: a body sent once is committed twice, and its stream opened again |
| `Uplink.RetriesAreAcknowledged` | internal/session/session.go:248-284 | in every run, while the relay has the lane object, a retry of the last committed body is acknowledged and changes nothing |
| `Uplink.NextIsReady` | internal/session/session.go:248-284 | the next body in sequence is always taken up, unless another request holds the uplink |
| `Uplink.MultiplexedAnswers` | internal/session/session.go:248-284 | in every run of a multiplexed session, whatever its number and body, a request is answered by what has been committed: the last body again is acknowledged, the next is taken up, or turned away while another is, everything else fails |
| `Uplink.LaneAnswers` | internal/session/session.go:337-444 | the same on a lane the relay still has, where no request is turned away and the next body is validated, charged and applied |
| `Uplink.FinishAnswers` | internal/session/session.go:290-335 | how the second section ends: gone with the session, failed by its form or by validation, turned away exactly for want of budget, or applied |
| `Uplink.MissingLaneAnswers` | internal/session/session.go:359-381 | a body for a lane the relay does not have is acknowledged and dropped exactly if it contains no OPEN, fails if it does not begin with its OPEN, and otherwise is the first of a new lane |
| `Uplink.RefusalsChangeNothing` | internal/session/session.go:248-444 | in every run, a request refused as concurrent or for backpressure leaves histories, streams, budget, queues and sequence numbers as they were, but for the lane its OPEN registered and the uplink it held (and the record that the manager was asked) |
| `Uplink.HolderIsAlone` | internal/session/session.go:248-335 | while a request is between the two sections of `ProcessUp`, nothing else commits or moves the sequence number |
| `Uplink.OthersKeepGates` | internal/session/session.go:248-444 | no section but an uplink request moves any sequence number or digest, and none but the acquisition and release of a socket changes who has one |
| `Uplink.RefusalChangesNothing` | internal/session/session.go:337-444 | the same of one lane request, in any state the invariant allows |
| `Sockets.OneSocketEver` | internal/session/session.go:182-190 | in every run a multiplexed session gives its WebSocket out once and never again |
| `Sockets.OneSocketPerLane` | internal/session/session.go:192-246 | in every run a lane that has a socket gives out no other until it is released |
| `Sockets.LaneSocket` | internal/session/session.go:192-218 | when a socket is given out for a lane, and when it is refused |
| `Sockets.FailureEnds` | internal/session/session.go:1401-1413 | a protocol failure gives up the one WebSocket lane, with its stream, and nothing else; on every other carrier it closes the session, which then holds nothing |
| `Flow.ByteStreamIntegrity` | internal/session/session.go:886-967 | in every run in which only the stream's own writer makes its writer's calls: for the live stream, bytes written, the rest of the write in flight and the queued writes are the payloads applied, in order; counters are exact; receive window and pending bytes make up the initial window |
| `Flow.WriterNeverTrips` | internal/session/session.go:908-967 | in the same runs, the writer of a live stream is given the oldest write there is, and the guards of `backendDrained` and `backendWriteFinished` never trip for the live stream's writer |
| `Flow.OtherWriterTakes` | internal/session/session.go:908-937 | the condition is needed: anyone else's call takes the oldest write away, and what is written and queued is then no longer what was applied |
| `Flow.WritesAreBatched` | internal/session/session.go:886-906 | in every such run no two successive queued writes of a stream fit into one chunk, and a write is longer than a chunk only if one frame brought it |
| `Flow.WindowAdds` | internal/session/session.go:862-872 | a WINDOW of a live stream adds its amount to the credit, saturating at the largest 32-bit number, in application and in validation |
| `Flow.RelayWithinCredit` | internal/session/session.go:854-872 | over every run, the credit left and all bytes read for a stream, queued or not, are together at most the initial window and the WINDOW amounts received, and exactly that while it fits 32 bits; what is queued is part of what was read |
| `Flow.NoOverrun` | internal/session/session.go:749-770 | a batch whose DATA for a stream fits its window, or the initial window if the batch opens it, passes the overrun check at each of its frames |
| `Credits.SectionWaits` | internal/session/session.go:787-954 | section by section, what waits for a stream's backend grows by no more than the DATA taken for the stream and shrinks at least by the WINDOW amount queued for the client |
| `DownlinkRuns.CreditIsConserved` | internal/session/session.go:939-954 | in every run of every session, bytes waiting for the backend, WINDOW credit queued or on its way to the client and credit the client has received are together at most the bytes taken from the client, coalescing or not |
| `DownlinkRuns.ReceiveWindowCoversCredit` | internal/session/session.go:749-770 | hence the receive window of a live stream covers what the client may still send, what it has sent that is not yet taken, and the WINDOW credit on its way |
| `DownlinkRuns.ClientWithinCreditFits` | internal/session/session.go:749-770 | a client within the initial window and the WINDOW amounts it has received never fails the overrun check: each DATA frame of its batch is accepted when validation comes to it |
| `Relay.LedgerIsSumOfSessions` | internal/session/manager.go:469-506 | in every run of any number of sessions, at every single call, the relay-wide ledger is the sum of what the sessions hold at that moment; between its sections a session holds exactly what it has pending, and closed sessions hold none |
| `Relay.ManagerNeverPanics` | internal/session/manager.go:436-506 | no run of any number of sessions and their backends, interleaved call by call, reaches the panic of the budget, of dials or of streams |
| `Relay.NextCallIsSound` | internal/session/manager.go:469-506 | at any point of any run, the next call of a section is a charge of one class or the release of part of what its session holds, and does not panic whatever the answer |
| `Relay.TicketsAreBackends` | internal/session/manager.go:405-467 | outstanding tickets are exactly the backends that have not ended, relay-wide and per profile, and dials in flight those that have not reported; every backend begun has a ticket or has ended, not both |
| `ManagerCalls.SectionAsks` | internal/session/session.go:248-1451 | every section changes what its session holds call by call, each a charge of one class or a release of part of what is held at that moment, and is granted a ticket for exactly the backends it begins |
| `Relay.ControlFrameIsGranted` | internal/session/manager.go:474-499 | while no session's control frames exceed its reserve, the manager grants every further one that keeps it so, whatever data the sessions hold |
| `Bridges.FrameBound` | internal/bridge/page.go:129-139 | the scan stops at the first frame that is too much, and fails on a broken frame |
| `Bridges.BoundIsFitting` | internal/bridge/page.go:129-139 | on a well-formed item it stops exactly after the frames that fit, on a frame boundary |
| `Bridges.JoinPending` | internal/bridge/page.go:140-162 | body and rest are the queue's bytes; of well-formed items the body is one the relay takes, the frames are conserved in order, and no further frame or item would have fitted |
| `Bridges.SplitFrames` | internal/bridge/page.go:117-128 | it agrees with the relay's parser frame by frame, and fails exactly on what the relay would refuse or an empty DATA frame |
| `BridgeQueues.Bridge.constructor` | internal/bridge/page.go:89-94 | nothing is queued |
| `BridgeQueues.Bridge.Reserve` | internal/bridge/page.go:106-112 | room in bytes and items, socket buffer included, relay-wide and on the lane; a failure changes nothing |
| `BridgeQueues.Bridge.Hold` | internal/bridge/page.go:413-423 | a message before there is a session is kept and counted, or the page fails |
| `BridgeQueues.Bridge.ReleaseHeld` | internal/bridge/page.go:201-219 | what was held is queued in order and counted once |
| `BridgeQueues.Bridge.QueueUp` | internal/bridge/page.go:228-231 | the item is queued and counted, or the page fails |
| `BridgeQueues.Bridge.StartUp` | internal/bridge/page.go:232-244 | the next body leaves the queue as packed and is counted until released; well-formed items give a body the relay takes |
| `BridgeQueues.Bridge.FinishUp` | internal/bridge/page.go:232-244 | what was in flight is released and the sequence number moves |
| `BridgeQueues.Bridge.SendUp` | internal/bridge/page.go:331-342 | the same for a socket, which takes the body at once |
| `BridgeQueues.Bridge.RememberLaneClosed` | internal/bridge/page.go:264-268 | the last 4096 closed ids, first in first out |
| `BridgeQueues.Bridge.EnsureLane` | internal/bridge/page.go:259-263 | the registered lane, or a new one |
| `BridgeQueues.Bridge.QueueOn` | internal/bridge/page.go:106-112 | on one lane: the item is appended to that lane's queue and counted, every other lane is as it was, or the page fails, exactly when there is no room |
| `BridgeQueues.Bridge.QueueLane` | internal/bridge/page.go:269-277 | late frames of a lane that is gone are dropped; other frames need an OPEN of an id not closed, or the page fails; everything else is appended to its lane's queue, all other lanes and earlier items as they were, or the page fails, exactly when there is no room |
| `BridgeQueues.Bridge.StartLane` | internal/bridge/page.go:278-291 | as `StartUp`, on one lane |
| `BridgeQueues.Bridge.FinishLane` | internal/bridge/page.go:278-291 | as `FinishUp`, on one lane |
| `BridgeQueues.Bridge.LaneClosed` | internal/bridge/page.go:292-313 | the lane leaves the register and its id is remembered |
| `BridgeQueues.Bridge.FinishWebSocketLane` | internal/bridge/page.go:348-355 | exactly what the lane still held is uncounted |
| `BridgeQueues.Bridge.QueueWebSocketLane` | internal/bridge/page.go:375-385 | as `QueueLane`, but id 0 fails, and a CLOSE before the socket is open cancels the lane and uncounts all it held |
| `BridgeQueues.Bridge.SendLane` | internal/bridge/page.go:386-398 | as `SendUp`, on one lane |
| `Delivery.DeliveredInOrder` | internal/bridge/page.go:232-244 | over every run of page, network and relay in which no request strays: the frames in the committed batches are the first frames queued, in order, each once; the rest is in at most one body under way and in the queue; every body sent is one the relay takes |
| `Delivery.DrainedIsDelivered` | internal/bridge/page.go:232-244 | in the same runs, with the queue empty and the last body acknowledged, everything queued has been committed |
| `Delivery.NoneStrays` | internal/session/session.go:1331-1355 | these are all runs of a multiplexed carrier, and on HTTPS lanes all runs in which fewer streams than the ring holds have been closed after the lane's own |
| `Delivery.RelayReadsTheSame` | internal/session/session.go:280-288 | the relay's own payload limit decides whether it takes a body, not what it reads in it |
| `Journey.PageBytesReachBackend` | internal/session/session.go:248-967 | over every run of page, network, session and a stream's own writer, while the stream is live, no request of its link has strayed and no body of it been applied in part: all DATA the page has queued for the stream since its OPEN is, in order, with the backend, in the writer's hands, queued for it, in the body under way, or in the page's queue |
| `Journey.NoneStraysOnTheWay` | internal/session/session.go:1331-1355 | no request strays on a multiplexed carrier, nor on HTTPS lanes while fewer streams than the ring holds have been closed after the lane's own |
| `Journey.LaneStarts` | internal/session/session.go:361-381 | such runs begin with the registration of a lane, in any run of a session, for the stream the lane is for |
| `Journey.MultiplexedStarts` | internal/session/session.go:147-176 | and, for any stream, with a multiplexed session |
| `Journey.TornBodyIsRejected` | internal/session/session.go:290-335 | after a body applied only in part, a retry of it fails validation as long as the refused id is remembered |

## Left out

- HTTP and WebSocket handlers, headers, authentication, reverse proxy and static site; sockets, dialing, timers and goroutines. What they call is the boundary; a timer or a socket event is a step that may happen at any time.
- Configuration loading: `Budget.ValidLimits` states what the proofs need of the limits.
- Cryptography: SHA-256 is injective here, tokens are distinct numbers, the capability lookup is a parameter.
- Heap objects: streams and lanes are records in maps named by identity, so aliasing and the byte-wise patching of a queued frame's length and amount are not modelled; the maps are reassigned, and a queued frame's encoding is computed when a batch is taken.
- The relay's downlink cursors are unbounded, not 64-bit. Its sequence numbers wrap at 64 bits in the model too, but no run gets there, because the bridge stops at 2^53 - 1.
- Rounding of the rate limiter's floating-point tokens.
- `creditNotify`, `writeNotify` and `budgetNotify`: whether a waiting reader or writer is woken. A section that would wait does not happen.
- `closedTokens`, metrics, `lastActivity`, the cleanup ticker and shutdown.
- The time between a batch that could only be applied in part and the `Close` that follows it: the session's state in between is covered and a retry of that body is (`Journey.TornBodyIsRejected`), but the stream's history in `Journey` is not continued from it. The bytes counted as taken in `DownlinkRuns` include all of such a batch.
- Uplink.UplinkExactlyOnce: not promised after a request has strayed, because the program does not keep it; `Delivery` and `Journey` are about runs in which none has.
- Flow.ByteStreamIntegrity: not promised while the writer of an earlier stream of the same id still runs, because the program does not keep it (`Flow.OtherWriterTakes`). An id is opened again only after its tombstone has left the ring.
- In `Relay`, a section that would need answers other than those the manager gives does not happen; with the answers given, the same section does.
- Liveness, beyond the wake-ups.
- Managers.Manager.IssueBootstrap: requires a positive limit of bootstraps, which configuration loading guarantees.
- SessionRuns.ReachableInv: allows the nil dereference of an unretained id, because the program does; `Validation.ValidatedBatch` says exactly when.
- BridgeQueues.Bridge.ReleaseHeld: of `createSession`, only the loop that queues what was held, in the multiplexed modes; and the sending loops the script starts at once are steps of their own here.
