# Verified models of diago's stateful cores

Dafny models of the parts of diago, a SIP dialog and media library in Go, whose correctness is about
whole runs rather than single calls, with proofs of what those runs promise:

- **The RTP jitter buffer** (`JitterSpec`, `JitterRuns`, `JitterDecisions`, `JitterRing`, `JitterBuffer`). `JitterSpec` is
  the buffer as a machine over a plain map from unwrapped sequence number to packet. `JitterRuns` proves,
  for every run of arrivals, reads, session updates and closes, that packets are released in order, that
  every packet is accounted for, that nothing stalls and that playout keeps its pace; `JitterDecisions` when
  playout starts, how long a wait is and where an arrival goes. `JitterBuffer` is
  the buffer with the source's fields, and `JitterRing` its slots, free list and ring of
  `seq % maxPackets`; every method is proved to take the map machine's step, through 16-bit
  wrap-around and with every slot always in exactly one place.
- **The extended sequence number** (`RtpSequencer`), on the 16-bit arithmetic of `Wrap16`.
- **Answering the peer's re-INVITE against a crossing BYE** (`ReInvite`) and **REFER attempts**
  (`Refer`). Each lock-held region is one event; the theorems hold for every interleaving. `ReferDesk`
  holds the attempts as the source does, as objects with a list of the registered ones.
- **Offer and answer between two endpoints**: the DTLS association (`Dtls`) and codecs (`Codecs`), on
  abstract SDP records, for every sequence of re-offers from either side.
- **The mixing bridge**: `BridgeMix` is its stop/start protocol, which releases the lock while it waits,
  and `Mixing` the saturating sums it writes in place over aliased buffers.
- **The RFC 4028 session timer** (`SessionTimer`) and its one-slot wake-up channel.

Each component is a pure state with step functions and a `Run` over any sequence of events, the
invariants every step keeps, the theorems over all runs, and a class with the source's own fields whose
methods are proved to take those steps, or the part of one they make. Times, readings of other objects, random tls-ids and the
outcomes of sends are parameters of the events, so a theorem holds whatever they are. Fields named
history, log, trace, closings, starts or seen record what happened and decide nothing.

## What turned out false, and when it holds

- A packet that fits the window can be refused for its ring position, across the wrap from 65535 to 0.
  Some run meets this exactly when `MaxPackets` neither divides 65536 nor exceeds it, as with the default
  of 40 (`NoCollisions`, `CollisionHappens`).
- A lone stray packet restarts the extended sequence number when it is 65535 and no jump was refused
  since the number was set, because `InitSeq` sets `badSeq` to a sequence number that exists
  (`JumpRestartsExactlyWhen`, `LoneJumpCanRestart`).
- A NOTIFY carrying the id of one REFER can land on another's attempt, when REFERs overlap
  (`OverlapMisroutes`) or when a REFER is sent for an `OnNotify` callback, without an attempt
  (`UnobservedMisroutes`). `MisroutedExactlyWhen` says exactly when it is recorded there, for every run and
  every id: when the latest attempt, of another REFER, is open before its deadline and alone awaits its
  CSeq, and no CSeq recorded reaches the id.
  `ObservedMisroutedExactlyWhen` and `UnobservedMisroutedExactlyWhen` say what that means for each kind
  of REFER. `RoutedToItsOwn` proves that a REFER that has an attempt never loses a NOTIFY to another while
  each CSeq is recorded before the next REFER begins.
- Two endpoints cannot replace a certificate on the sockets of a running DTLS association: the offerer
  refuses the answer (`BothAgree` has the exact condition, `ChangedCertificateIsRefused` an instance).
- `streamCodecs` is documented as nil while no mix runs. The code keeps it after a loop that ended on its
  own; it is nil exactly while the dialogs are too few to mix (`CodecsAreNilWhenTooFew`,
  `CodecsOutliveTheMix`). The model follows the code.
- A stream does not always hear the exact sum of the others: a running sum that saturates distorts it
  (`SaturationIsHeard`), unless a later one saturates back (`SaturationCanCancel`). `HeardIsExactWhen`
  gives the exact condition on the sums of the first streams, for every sample of every stream:
  the sum of the others fits, every sum above 32767 is followed by one at or below -32768 and every sum
  below -32768 by one at or above 32767; an excess above that is left is hidden only from a stream whose
  others sum to -32768, and one below only from a stream whose others sum to 32767. `HearsTheOthers` and `NeverSaturatesExactlyWhen` cover streams whose running
  sums all fit.
- A BYE whose 200 failed with the dialog left live does not keep a 2xx to a re-INVITE from following
  (`LiveByeAllowsSuccess`); one that ended the dialog does, its 200 sent or not (`NoSuccessBehindBye`).
- A session refresh is due no later than the session expires exactly when the interval is at least 45 seconds;
  `answerPeer` takes the peer's interval without a floor (`RefreshCadence`, `RefreshCanBeLate`).

## Model

| member | source | states |
|---|---|---|
| `JitterRuns.StepKeeps` | media/rtp_jitter_buffer.go:251-349 | from any good state, an arrival, a read turn, an upstream error, a session update or a close leaves the queue a window with one packet a ring position, the phase flags consistent, the releases ordered and every counter balanced |
| `JitterRuns.Run` | media/rtp_jitter_buffer.go:197-248 | every state a new buffer can reach by any events meets those invariants |
| `JitterRuns.ReleasedInOrder` | media/rtp_jitter_buffer.go:278-302 | between two resets packets come out in strictly increasing unwrapped order through any wraps, stops and restarts, so none twice, and each plays, under the epoch and number it was filed with, the packet of an arrival that came before it |
| `JitterRuns.ReleasedOnce` | media/rtp_jitter_buffer.go:288-302 | no two releases play the same arrival |
| `JitterRuns.RunContinues` | media/rtp_jitter_buffer.go:254-349 | a run may be cut anywhere, so what is proved of every run holds after every call |
| `JitterRuns.ReleaseIsLogged` | media/rtp_jitter_buffer.go:278-302 | what ReadRTP returns is exactly what the log of releases gains, fits the caller's buffer and carries the number just passed |
| `JitterRuns.ArrivalsWereRead` | media/rtp_jitter_buffer.go:466-476 | every packet filed is an arrival event of the run, under the epoch and number that event was filed with |
| `JitterRuns.EveryPacketAccounted` | media/rtp_jitter_buffer.go:466-533 | packets read are those released, late, duplicate, dropped, queued, cleared by a source change or unparsable; nothing is cleared without a source change |
| `JitterRuns.ReadCountsArrivals` | media/rtp_jitter_buffer.go:469-469 | PacketsRead counts every arrival of the run once |
| `JitterRuns.AdvanceAccounted` | media/rtp_jitter_buffer.go:278-312 | since the first start of playout in an epoch the next number moved by exactly the packets played, lost and skipped by window moves |
| `JitterRuns.QueuedNeverStalls` | media/rtp_jitter_buffer.go:304-348 | with a packet queued ReadRTP decides or waits on a timer still to fire; it waits for an arrival alone, or reports the upstream's end, only with nothing queued |
| `JitterRuns.LossStep` | media/rtp_jitter_buffer.go:306-311 | a loss keeps the queue and moves towards it |
| `JitterRuns.LossesAreBounded` | media/rtp_jitter_buffer.go:304-312 | without arrivals fewer than MaxPackets losses in a row precede a packet found |
| `JitterRuns.RestartSkips` | media/rtp_jitter_buffer.go:622-634 | a restart's skip loop passes fewer than MaxPackets numbers, counts each as lost and passes no queued packet |
| `JitterRuns.SharedPosition` | media/rtp_jitter_buffer.go:513-514 | two numbers of one window share a ring position only across the 65535-to-0 wrap and only when MaxPackets does not divide 65536 |
| `JitterRuns.CollisionNeedsWrap` | media/rtp_jitter_buffer.go:513-525 | a packet in the window that is no duplicate is refused for its position only under that condition |
| `JitterRuns.NoCollisions` | media/rtp_jitter_buffer.go:513-525 | when MaxPackets divides 65536 or exceeds it, the collision branch is unreachable in every run |
| `JitterRuns.CollisionHappens` | media/rtp_jitter_buffer.go:513-525 | for every other MaxPackets two packets around the wrap collide, so the condition is exact |
| `JitterRuns.PlayoutKeepsPace` | media/rtp_jitter_buffer.go:265-312 | at a constant packet duration the release clock is the playout start plus one duration a decision however late they ran, and by time t at most floor((t-start)/d)+1 packets were played |
| `JitterRuns.SteadyPlayout` | media/rtp_jitter_buffer.go:265-312 | the same for every run set up with packet duration d, not learning durations and negotiated to no other, whatever else happens |
| `JitterDecisions.BuffersUntilDue` | media/rtp_jitter_buffer.go:267-334 | while fewer than `delayPackets` are queued and the buffering time is not over, a turn changes nothing: it waits until exactly `startAt`, or reports the upstream's end |
| `JitterDecisions.PlaysWhenDue` | media/rtp_jitter_buffer.go:267-313 | once either is so, playout starts at that time with a decision at once; a resumed stream begins with a queued packet, or with one refused for its ring position |
| `JitterDecisions.PlayoutIsOnTime` | media/rtp_jitter_buffer.go:267-334 | both directions together: a stopped stream plays after a turn exactly when playout was due |
| `JitterDecisions.BufferingBegins` | media/rtp_jitter_buffer.go:529-532 | `startAt` is the arrival that began the stream, or resumed a stopped one, plus `delayPackets` packet durations; no other arrival moves it |
| `JitterDecisions.DelayIsKept` | media/rtp_jitter_buffer.go:251-349 | over any run of arrivals, reads, session updates and learned durations, nothing is released before the buffering time ends, unless `delayPackets` are queued first |
| `JitterDecisions.NewBufferWaits` | media/rtp_jitter_buffer.go:251-349 | a new buffer waits for an arrival alone, and with its first packet for `delayPackets` durations when one packet is not enough |
| `JitterDecisions.TickDecides` | media/rtp_jitter_buffer.go:278-334 | while playing, a turn before `releaseAt` changes nothing; on it the expected packet plays if queued and fitting, an empty queue stops playout where it is, and a gap is one number lost, each moving the clock by one duration |
| `JitterDecisions.WaitsForTheNextDecision` | media/rtp_jitter_buffer.go:325-347 | a wait ends exactly at the next decision: without arrivals nothing would happen before, and something happens then |
| `JitterDecisions.NewStream` | media/rtp_jitter_buffer.go:471-486 | a packet of another source, or one a window or more away from a stopped empty stream, clears the queue, is alone in it and next to play, and makes the stream buffer; only the first counts as a reset |
| `JitterDecisions.JoinsStream` | media/rtp_jitter_buffer.go:488-533 | any other packet is late behind playout, moves the window back before playout if all still fits, moves it on to end at the packet with the delay, dropping exactly what is stale, or is queued; a duplicate and a ring collision are refused and counted |
| `JitterDecisions.LearnsARepeatedStep` | media/rtp_jitter_buffer.go:540-560 | two successive pairs with the same timestamp step make its length in nanoseconds the packet duration, unless over 200 ms |
| `JitterDecisions.LearnsNothingElse` | media/rtp_jitter_buffer.go:540-553 | a learned duration is always that of a step just repeated by consecutive packets of one payload type without a marker |
| `JitterDecisions.NewStreamIsMeasuredAnew` | media/rtp_jitter_buffer.go:597-608 | a new stream is measured from its first packet on, at the duration there was, whatever came before |
| `JitterDecisions.UpdateCarriesOver` | media/rtp_jitter_buffer.go:442-455 | a session update keeps the queue and the playout state and sets only the duration and clock rate it has, learning afresh |
| `JitterDecisions.ClosedGivesNothing` | media/rtp_jitter_buffer.go:255-261 | after a close every read is refused, whatever is queued |
| `JitterDecisions.EndIsReported` | media/rtp_jitter_buffer.go:315-323 | the upstream's error is what a read returns if and only if nothing is queued any more |
| `JitterRing.EverySlotOnce` | media/rtp_jitter_buffer.go:214-229 | every slot is free, queued or being read into, in exactly one of them, and listed once |
| `JitterRing.FreeSlotExists` | media/rtp_jitter_buffer.go:214-217 | one slot beyond the window means the read loop always finds a free one |
| `JitterRing.RingFinds` | media/rtp_jitter_buffer.go:279-281 | a number of the window found at its ring position is exactly one in the queue |
| `JitterRing.RingOccupied` | media/rtp_jitter_buffer.go:627-627 | a ring position is empty exactly when no queued number maps to it |
| `JitterRing.SlotRing.constructor` | media/rtp_jitter_buffer.go:214-229 | MaxPackets + 1 slots, all free, over an empty ring |
| `JitterRing.SlotRing.TakeSlot` | media/rtp_jitter_buffer.go:368-371 | the free list is never empty and its last slot is the one read into |
| `JitterRing.SlotRing.StoreRead` | media/rtp_jitter_buffer.go:385-387 | the packet is in the slot being read into and no queued packet changes |
| `JitterRing.SlotRing.FreeSlot` | media/rtp_jitter_buffer.go:648-650 | the slot read into is free again and the queue is as it was |
| `JitterRing.SlotRing.EnqueueSlot` | media/rtp_jitter_buffer.go:527-528 | the queue gains exactly the packet of the slot, under its number |
| `JitterRing.SlotRing.UnqueueSlot` | media/rtp_jitter_buffer.go:288-293 | the queue loses exactly that number and its slot is free |
| `JitterRing.SlotRing.Find` | media/rtp_jitter_buffer.go:279-282 | a slot is found exactly when the number is queued, and holds that packet |
| `JitterRing.SlotRing.VacantAt` | media/rtp_jitter_buffer.go:627-627 | whether any queued number maps to the position |
| `JitterRing.SlotRing.Existing` | media/rtp_jitter_buffer.go:513-521 | a packet is a duplicate exactly when its number is queued, and placed exactly when its position is vacant |
| `JitterRing.SlotRing.ClearSequence` | media/rtp_jitter_buffer.go:610-619 | the queue is empty and every queued slot free |
| `JitterRing.SlotRing.CanMoveExpectedBack` | media/rtp_jitter_buffer.go:562-573 | the window may start at the packet exactly when every queued number still fits it |
| `JitterRing.SlotRing.DropRange` | media/rtp_jitter_buffer.go:579-593 | exactly the queued numbers before the new start are gone, and they are the ones counted |
| `JitterRing.SlotRing.DropAt` | media/rtp_jitter_buffer.go:582-592 | one number of the range is dropped when it is queued and only then |
| `JitterBuffer.RtpJitterBuffer.constructor` | media/rtp_jitter_buffer.go:197-248 | any options give a valid empty buffer with 1 <= delay <= max, in the map machine's initial state |
| `JitterBuffer.RtpJitterBuffer.ResetStream` | media/rtp_jitter_buffer.go:597-608 | takes the map machine's reset: nothing queued, buffering from this packet |
| `JitterBuffer.RtpJitterBuffer.LearnPacketDuration` | media/rtp_jitter_buffer.go:540-560 | takes the map machine's learning step and touches nothing else |
| `JitterBuffer.RtpJitterBuffer.MeasureStep` | media/rtp_jitter_buffer.go:545-553 | a timestamp step becomes the duration once a second consecutive pair repeats it, up to 200 ms |
| `JitterBuffer.RtpJitterBuffer.RememberNewest` | media/rtp_jitter_buffer.go:554-559 | only a packet ahead of the newest replaces it |
| `JitterBuffer.RtpJitterBuffer.CheckSource` | media/rtp_jitter_buffer.go:469-476 | a new SSRC resets the stream, and counts as a reset unless it is the first |
| `JitterBuffer.RtpJitterBuffer.CheckRestart` | media/rtp_jitter_buffer.go:478-486 | stopped and empty, a packet a window or more away restarts the stream, and no other does |
| `JitterBuffer.RtpJitterBuffer.AdmitPacket` | media/rtp_jitter_buffer.go:467-487 | the map machine's admission of a packet |
| `JitterBuffer.RtpJitterBuffer.MoveWindow` | media/rtp_jitter_buffer.go:579-595 | the window starts at the given number with exactly the packets from it on |
| `JitterBuffer.RtpJitterBuffer.MoveBack` | media/rtp_jitter_buffer.go:501-502 | before playout the window moves back to the packet and loses nothing |
| `JitterBuffer.RtpJitterBuffer.InsertSlot` | media/rtp_jitter_buffer.go:513-532 | the packet is queued under its unwrapped number, or counted duplicate or dropped and its slot freed |
| `JitterBuffer.RtpJitterBuffer.QueueSlot` | media/rtp_jitter_buffer.go:527-532 | the packet is queued, and the first after a stop starts buffering again |
| `JitterBuffer.RtpJitterBuffer.PlaceSlot` | media/rtp_jitter_buffer.go:488-533 | late, before-window, too-far and fitting packets are treated as the map machine treats the unwrapped number |
| `JitterBuffer.RtpJitterBuffer.BeginRead` | media/rtp_jitter_buffer.go:368-371 | in every reachable state the read loop finds a free slot |
| `JitterBuffer.RtpJitterBuffer.FinishRead` | media/rtp_jitter_buffer.go:376-391 | what the read returned is filed as one step of the map machine, and no slot is left behind |
| `JitterBuffer.RtpJitterBuffer.SkipGaps` | media/rtp_jitter_buffer.go:624-630 | the skip loop ends, at the first number whose position is taken, and counts each number passed as lost |
| `JitterBuffer.RtpJitterBuffer.StartPlaying` | media/rtp_jitter_buffer.go:622-634 | the map machine's start of playout |
| `JitterBuffer.RtpJitterBuffer.StopPlaying` | media/rtp_jitter_buffer.go:640-645 | the map machine's stop; the next number stays |
| `JitterBuffer.RtpJitterBuffer.TakeOutNext` | media/rtp_jitter_buffer.go:288-293 | the next packet leaves the window on its tick and its slot is free |
| `JitterBuffer.RtpJitterBuffer.ReleasePacket` | media/rtp_jitter_buffer.go:282-301 | exactly the packet queued for the next number is played and counted |
| `JitterBuffer.RtpJitterBuffer.LosePacket` | media/rtp_jitter_buffer.go:307-309 | the number is given up and nothing queued changes |
| `JitterBuffer.RtpJitterBuffer.DecideNow` | media/rtp_jitter_buffer.go:278-333 | the decision and its outcome are the map machine's |
| `JitterBuffer.RtpJitterBuffer.Turn` | media/rtp_jitter_buffer.go:254-334 | one turn of ReadRTP refines one turn of the map machine and keeps every invariant; a stream that is not playing is left as it is before playout is due, and then starts at that turn |
| `JitterBuffer.RtpJitterBuffer.ReadRTP` | media/rtp_jitter_buffer.go:251-349 | the loop ends, having taken the map machine's turns one after another; each but the last gave a number up as lost, fewer than MaxPackets in all, and the last one's outcome is returned; it waits without a timer or reports the upstream's end only with nothing queued, and before playout is due it changes nothing |
| `JitterBuffer.RtpJitterBuffer.UpdateRTPSession` | media/rtp_jitter_buffer.go:442-455 | the queue and the playout state carry over |
| `JitterBuffer.RtpJitterBuffer.CloseBuffer` | media/rtp_jitter_buffer.go:655-663 | closed, with everything else as it was |
| `RtpSequencer.TracksHighest` | media/rtp_sequencer.go:48-81 | for packets fewer than 3000 ahead of or at most 100 behind the highest, the extended number advances exactly as the true highest index does, through any wraps (modulo 2^32) |
| `RtpSequencer.HighestGrows` | media/rtp_sequencer.go:48-60 | that highest index is the maximum of the start and every index that arrived |
| `RtpSequencer.VerdictTellsTheOrder` | media/rtp_sequencer.go:48-76 | within reach a packet is accepted exactly when it is not behind the highest |
| `RtpSequencer.JumpRestartsExactlyWhen` | media/rtp_sequencer.go:61-72 | in every run a large jump restarts the number exactly when it follows the last refused jump, or is 65535 with none refused; otherwise the number stays |
| `RtpSequencer.BadSeqFollowsTheJump` | media/rtp_sequencer.go:61-72 | badSeq is always one past the last refused jump, or 65535 |
| `RtpSequencer.LoneJumpCanRestart` | media/rtp_sequencer.go:41-45 | an instance of the restart a single stray packet causes |
| `RtpSequencer.NextCounts` | media/rtp_sequencer.go:83-90 | after any number of NextSeqNumber calls the extended number has advanced by exactly that many, modulo 2^32 |
| `RtpSequencer.ExtendedSequenceNumber.InitSeq` | media/rtp_sequencer.go:41-45 | the number starts without wraps |
| `RtpSequencer.ExtendedSequenceNumber.UpdateSeq` | media/rtp_sequencer.go:48-76 | takes the step the theorems are about, and its verdict |
| `RtpSequencer.ExtendedSequenceNumber.ReadExtendedSeq` | media/rtp_sequencer.go:78-81 | the 32-bit value of number and wraps |
| `RtpSequencer.ExtendedSequenceNumber.NextSeqNumber` | media/rtp_sequencer.go:83-90 | takes the counting step NextCounts is about |
| `ReInvite.RunKeeps` | dialog_media.go:254-428 | through every interleaving of handler, BYE, ACKs, retransmissions and our own updates the recorded re-INVITE, its handler and the trace of responses agree |
| `ReInvite.OneFinalResponse` | dialog_media.go:381-415 | a re-INVITE gets at most one final response and exactly one by the time its handler has returned |
| `ReInvite.NoSuccessBehindBye` | dialog_server_session.go:929-943 | once the peer's BYE has ended the dialog, its 200 sent or not, no 2xx to a re-INVITE, first or again, is passed on |
| `ReInvite.LiveByeAllowsSuccess` | dialog_server_session.go:934-941 | a BYE whose 200 failed with the dialog left live does not keep a 2xx from following |
| `ReInvite.ByeLeavesNothingPending` | dialog_media.go:421-428 | answering a BYE leaves every re-INVITE with its one final response |
| `ReInvite.OwnUpdateWaits` | dialog_media.go:1202-1224 | our own update never runs while a 2xx of ours to the peer's re-INVITE is still being retransmitted |
| `ReInvite.RetransmissionSchedule` | dialog_media.go:335-374 | after k retransmissions the next waits T1 doubled k times, at most T2, in every run |
| `ReInvite.IntervalDoubles` | dialog_media.go:335-371 | doubling step by step with the cap is T1 * 2^k capped at T2 |
| `ReInvite.UndisturbedReInvite` | dialog_server_session.go:1257-1337 | in every run a re-INVITE of a live dialog that nothing crosses gets the handler's answer, is held until its ACK exactly when that is 200 to 299, and leaves no trace of itself but the response |
| `ReInvite.ClosedMediaTakesNoUpdate` | dialog_media.go:1202-1224 | our update begins at once on open media with none in progress, and once the media are closed none begins in any continuation |
| `ReInvite.UpdateEndsByItsOwner` | dialog_media.go:1202-1273 | in every run an update in progress, ours or the peer's, lasts until its owner ends it, no other takes its place, and a handler updates only under the peer's |
| `ReInvite.AnswerGoesOut` | dialog_media.go:381-415 | in every run a live handler's answer goes out as it is; a 200 to 299 then awaits its ACK and is retransmitted from T1 on if it was sent, any other response ends the matter; after a BYE 487 goes out instead, or nothing when it is answered |
| `ReInvite.ResendGoesOut` | dialog_media.go:353-371 | in every run each turn of the timer sends the 2xx again while the dialog lives and goes on exactly if that succeeds; a failed send is reported as a missing ACK |
| `ReInvite.UnreadyIsToldToWait` | dialog_server_session.go:1265-1267 | a re-INVITE before the call is ready gets 491, once, and is not recorded |
| `ReInvite.UnansweredByeLeavesPending` | dialog_server_session.go:934-943 | a BYE whose 200 could not be sent ends the dialog and leaves a pending re-INVITE unanswered, to its handler |
| `ReInvite.HandlerLeaves` | dialog_media.go:284-306 | a handler that has answered, with nothing retransmitted, leaves no re-INVITE recorded, no update of the peer's in progress and the way free for the next |
| `ReInvite.AckEndsRetransmission` | dialog_media.go:310-352 | in every run the ACK to a 2xx being retransmitted ends the retransmission, and no missing ACK is reported |
| `ReInvite.OtherAcksChangeNothing` | dialog_media.go:316-320 | an ACK with another CSeq, or before any 2xx, changes nothing |
| `ReInvite.AckedWasRead` | dialog_media.go:310-326 | in every run a re-INVITE counts as ACKed only if its own ACK was read |
| `ReInvite.RetransmissionEnds` | dialog_media.go:344-373 | a retransmission ends without a report only by its ACK or the end of the dialog, with one only by the timeout or a failed send, and its re-INVITE stays recorded until then |
| `ReInvite.DialogMedia.constructor` | dialog_media.go:254-267 | nothing pending, at the start of a run |
| `ReInvite.DialogMedia.Promises` | dialog_media.go:254-428 | after any calls, in any order the locks allow, at most one final response to each re-INVITE, exactly one once its handler is through, and no 2xx behind a BYE that ended the dialog |
| `ReInvite.DialogMedia.RefuseUnready` | dialog_server_session.go:1265-1267 | takes the run's step: 491 to a re-INVITE that comes before our answer is complete |
| `ReInvite.DialogMedia.BeginPeerReInvite` | dialog_media.go:254-267 | takes the run's Begin: records the re-INVITE, or answers 481 once the dialog has ended, and then it has its one final response |
| `ReInvite.DialogMedia.RespondLocked` | dialog_media.go:381-415 | the response step for any transaction, recorded or not, and whether this very response was passed on |
| `ReInvite.DialogMedia.RespondPeerReInvite` | dialog_media.go:381-415 | takes the run's Refuse or Answer, after which the re-INVITE has exactly one final response; this one was passed on exactly when the dialog is live and no BYE answered it first |
| `ReInvite.DialogMedia.AckPeerReInvite` | dialog_media.go:310-326 | an ACK with the recorded CSeq of a 2xx sent marks it ACKed, which ends its retransmission, and any other changes nothing |
| `ReInvite.DialogMedia.RetransmitTurn` | dialog_media.go:353-371 | takes the run's Retransmit: the schedule holds of it, and nothing is sent once the dialog has ended |
| `ReInvite.DialogMedia.StopRetransmitting` | dialog_media.go:345-352 | takes the run's end of the retransmission, with the ACK, the end of the dialog or the timeout |
| `ReInvite.DialogMedia.TerminatePeerReInvite` | dialog_media.go:421-428 | an unanswered re-INVITE gets its 487, an answered one nothing |
| `ReInvite.DialogMedia.HandleBye` | dialog_server_session.go:929-943 | takes the run's Bye: taken, out of order, or its 200 failed with the dialog left live; one taken and answered leaves every re-INVITE its one final response |
| `ReInvite.DialogMedia.EndPeerReInvite` | dialog_media.go:284-306 | takes the run's step: the re-INVITE is forgotten, and a missing ACK is reported exactly when the retransmission gave up |
| `ReInvite.DialogMedia.EndPeerMediaUpdate` | dialog_media.go:1266-1273 | takes the run's step: the handler is through and the peer's update over |
| `ReInvite.DialogMedia.BeginPeerMediaUpdate` | dialog_media.go:1230-1239 | takes the run's step: taken exactly when no update is in progress, and only ours can be |
| `ReInvite.DialogMedia.BeginOwnMediaUpdate` | dialog_media.go:1202-1224 | takes the run's step: taken exactly when the media is open and no update is in progress; refused once it is closed |
| `ReInvite.DialogMedia.EndOwnMediaUpdate` | dialog_media.go:1266-1273 | takes the run's step: our update is over |
| `ReInvite.DialogMedia.HandleReInvite` | dialog_server_session.go:1257-1337 | uninterrupted, the handler passes exactly one response: 481, 500, 400, 491 or what the media update comes to, in that order of precedence |
| `Refer.RunKeeps` | dialog_media.go:484-730 | in every run each attempt's log, deadline, end and registration agree |
| `Refer.RecordIsLogged` | dialog_media.go:576-600 | a NOTIFY enters at most one attempt's log, that of an open registered attempt before its deadline |
| `Refer.ObservationIsBounded` | dialog_media.go:667-685 | at most 32 NOTIFYs are kept, kept plus dropped is recorded, a terminal one is unique, kept and last, and done is closed once, exactly when the attempt is unregistered |
| `Refer.NothingIsUndone` | dialog_media.go:549-600 | whatever follows, a deadline set by a NOTIFY never moves later, an end stays but for the REFER's own refusal, and an ended or retired attempt records nothing |
| `Refer.DeadlineIsBounded` | dialog_media.go:513-533 | the deadline is at most the 2xx plus 64*T1 plus the longer of an hour and 64*T1, and an open accepted attempt has one |
| `Refer.TimerEndsAtDeadline` | dialog_media.go:535-556 | a timer ends only its own attempt, at its current deadline; one replaced since ends nothing |
| `Refer.RoutedToItsOwn` | dialog_media.go:633-661 | with each CSeq recorded before the next REFER begins, a NOTIFY with the id of a REFER that has an attempt reaches only that attempt and one without an id only the latest |
| `Refer.MisroutedExactlyWhen` | dialog_media.go:576-661 | in every run, a NOTIFY with any id is recorded on an attempt of another REFER exactly when the latest attempt is open before its deadline and alone awaits its CSeq, the id is above every CSeq recorded and the latest REFER has another |
| `Refer.ObservedMisroutedExactlyWhen` | dialog_media.go:576-661 | however REFERs overlap, a NOTIFY with an observed REFER's id is recorded on another attempt exactly when its own retired before its CSeq was recorded, that CSeq is above every one recorded, and the latest attempt is open before its deadline and alone awaits one |
| `Refer.UnobservedMisroutedExactlyWhen` | dialog_session.go:475-488 | a NOTIFY with the id of a REFER sent without an attempt is recorded on one exactly when the latest is open before its deadline and alone awaits its CSeq and none recorded reaches the id |
| `Refer.UnobservedMisroutes` | dialog_session.go:475-488 | a run in which that ends the later REFER |
| `Refer.OverlapMisroutes` | dialog_session.go:411-467 | a run in which that happens |
| `Refer.ReachesItsOwn` | dialog_media.go:634-644 | in every run a NOTIFY whose id is the recorded CSeq of an open registered attempt before its deadline is recorded on it |
| `Refer.ReachesTheLatest` | dialog_media.go:645-659 | so is one without an id, or one that raced ahead of its REFER's response with no other attempt awaiting its CSeq, on the latest attempt |
| `Refer.RecordedCSeqRoutes` | dialog_media.go:498-506 | once the CSeq of its REFER is recorded an open attempt has the NOTIFYs that carry it, and no NOTIFY with an id up to it is recorded on another REFER's attempt |
| `Refer.NotifySetsTheDeadline` | dialog_media.go:590-599 | a NOTIFY below 200 that does not terminate gives the first time its own duration, its expires up to an hour or else 64*T1, and later only the earlier of that and the deadline set; the attempt stays open |
| `Refer.TerminalNotifyEnds` | dialog_media.go:667-685 | a NOTIFY of 200 or more, or one that terminates the subscription, ends the attempt, as final in the first case, and leaves it registered for the answer |
| `Refer.AcceptanceArms` | dialog_media.go:513-520 | the 2xx gives an open attempt no NOTIFY has reached 64*T1, and changes no other deadline |
| `Refer.LateNotifyExpires` | dialog_media.go:584-589 | a NOTIFY at the deadline or later does exactly what the timer would have done |
| `Refer.FinishRetires` | dialog_media.go:691-708 | a finished attempt is retired and keeps its NOTIFYs; only a refusal replaces an end it has |
| `Refer.RetiresOnceEnded` | dialog_media.go:604-716 | the answer to a NOTIFY retires its attempt exactly if it has ended, a dropped attempt is retired with the end it has, `done` is closed once, and no other attempt is affected |
| `Refer.NotCutShort` | dialog_media.go:537-544 | no timer of its own ends an attempt before its deadline |
| `Refer.EndsAtTheDeadline` | dialog_media.go:537-556 | at the deadline the current timer ends and retires an open attempt, as expired exactly when a NOTIFY was recorded |
| `ReferDesk.OpenIsRegistered` | dialog_media.go:484-491 | the indices the list stands for are exactly the registered attempts, in the order they began |
| `ReferDesk.OpenUpdated` | dialog_media.go:720-730 | retiring takes exactly that attempt out of the list, and nothing else changes it |
| `ReferDesk.UnknownIsAwaiting` | dialog_media.go:634-641 | counting over the list counts every registered attempt awaiting its CSeq |
| `ReferDesk.FirstOfList` | dialog_media.go:636-643 | the first of the list with the id is the first of all attempts begun that routing may choose |
| `ReferDesk.ReferAttempt.RecordLocked` | dialog_media.go:667-685 | keeps the first 32 NOTIFYs, counts the rest, and puts a terminal one last |
| `ReferDesk.ReferAttempt.ArmReferBound` | dialog_media.go:525-533 | the timer in place is a new one, for the new deadline |
| `ReferDesk.ReferAttempt.Observe` | dialog_media.go:588-598 | records the NOTIFY and moves the deadline as the model's step does |
| `ReferDesk.ReferAttempt.CloseDone` | dialog_media.go:726-729 | done is closed once, with the registration |
| `ReferDesk.ReferDesk.constructor` | dialog_media.go:484-491 | no attempt, in the state every run starts from |
| `ReferDesk.ReferDesk.BeginReferAttempt` | dialog_media.go:484-491 | a new object is registered last in the list and is the latest; the desk stays in a reachable state and the list the registered attempts in order |
| `ReferDesk.ReferDesk.SetReferAttemptCSeq` | dialog_media.go:498-506 | the attempt's CSeq is known, the highest raised to it, and the list unchanged |
| `ReferDesk.ReferDesk.StartReferSubscription` | dialog_media.go:513-520 | a timer of 64*T1 is armed unless the subscription has begun or ended, and then the one in place stays |
| `ReferDesk.ReferDesk.SearchList` | dialog_media.go:634-645 | the loop over the list finds the first attempt with the id, or that none has it and how many await their CSeq |
| `ReferDesk.ReferDesk.ReferNotifyTarget` | dialog_media.go:633-661 | the object returned is the one the routing theorems name: one recorded with the id when there is one, and the latest for a NOTIFY without an id |
| `ReferDesk.ReferDesk.RecordReferNotify` | dialog_media.go:576-600 | takes the recording step over objects, timers and list, and returns the attempt whose log gained the NOTIFY |
| `ReferDesk.ReferDesk.EndReferAttemptOnItsBound` | dialog_media.go:537-556 | takes the timer step; a replaced timer or an ended attempt leaves attempt and list as they were |
| `ReferDesk.ReferDesk.Unlist` | dialog_media.go:728-728 | deletes that object from the list, keeping the others in order |
| `ReferDesk.ReferDesk.RetireReferAttempt` | dialog_media.go:720-730 | the timer is stopped, and a registered attempt leaves the list and has its done closed |
| `ReferDesk.ReferDesk.RetireEndedReferAttempt` | dialog_media.go:604-610 | an ended attempt is out of the list with its timer stopped, an open one is untouched |
| `ReferDesk.ReferDesk.FinishReferAttempt` | dialog_media.go:691-708 | ends an open attempt, lets a refusal replace any end, retires it and returns what it observed |
| `ReferDesk.ReferDesk.DropReferAttempt` | dialog_media.go:712-716 | the attempt is out of the list, done and its timer stopped, and no other attempt changes |
| `Dtls.BothAgree` | media/media_session.go:1289-1340 | an exchange completes exactly when there is no association to replace, the offerer moved or no certificate changed; then both sides decide alike, hold mirror records of one association with complementary roles, and the answerer is the client of a new one |
| `Dtls.RunAgrees` | media/media_session.go:1193-1254 | through any re-offers from either side, on the same or moved sockets, both agree in every turn on continuing or replacing and hold complementary roles |
| `Dtls.SteadyRunCompletes` | media/media_session.go:1289-1340 | while certificates stay no re-offer is ever refused |
| `Dtls.StepPaired` | media/media_session.go:1289-1412 | one turn keeps the two sides' records mirrored |
| `Dtls.NewSessionsPaired` | media/media_session.go:391-424 | a call's first exchange is one of those turns |
| `Dtls.ChangedCertificateIsRefused` | media/media_session.go:1310-1340 | an instance of the refusal |
| `Dtls.OfferedAgain` | media/media_session.go:1361-1377 | an offer made again carries the tls-id it carried before |
| `Dtls.SidesAreAlike` | media/media_session.go:1193-1254 | a turn offered from either side is the same turn with the sides exchanged |
| `Dtls.ForkForgetsThePeer` | media/media_session.go:656-727 | a fork keeps the association, sockets, certificate and tls-id and forgets what the peer last described |
| `Dtls.NeedsFingerprintAndSetup` | media/media_session.go:1193-1254 | any description without a fingerprint or without a setup role is refused |
| `Dtls.ArmsWhatIsDescribed` | media/media_session.go:1390-1412 | an association armed is checked against the fingerprints, tls-id and address of the very description that armed it, in the role facing it, under our tls-id as offered or, answering, a new one exactly when the offer has one, on sockets a running one does not have |
| `Dtls.ContinuesExactlyWhen` | media/media_session.go:1289-1340 | with any peer a running association continues if and only if its role is not reversed, neither certificate nor our address changed, and the peer's tls-id, or its address when it sends none, is the same; else a new one is armed, or an answer on the old sockets refused |
| `Dtls.AnswerCarriesIdWhenAsked` | media/media_session.go:1346-1377 | an answer carries a tls-id exactly when the offer did, with our certificate and address and the role facing the offer or the one the association has |
| `Dtls.OfferAsksForTheRightAssociation` | media/media_session.go:1361-1377 | an offer says actpass, and names the running association's tls-id exactly while neither our certificate nor our address changed |
| `Dtls.NeverUnchecked` | media/media_session.go:1193-1412 | over any sequence of forks, moves, certificate changes, offers and descriptions from any peer, no association run or armed lacks a fingerprint or a role |
| `Dtls.MediaSession.ForkSession` | media/media_session.go:656-727 | the copy keeps the association, its tls-id and sockets and forgets the peer's last description |
| `Dtls.MediaSession.NewAnswerTLSID` | media/media_session.go:1346-1354 | only an answerer to an offer with a tls-id draws a new one |
| `Dtls.MediaSession.LocalSDPTLSID` | media/media_session.go:1361-1377 | the id of the description is the model's |
| `Dtls.MediaSession.ArmDTLSHandshake` | media/media_session.go:1390-1412 | the association armed is built from the session as it then is |
| `Dtls.MediaSession.NegotiateDTLSAssociation` | media/media_session.go:1289-1340 | continues, replaces or refuses exactly as in the two-party theorems |
| `Dtls.MediaSession.RemoteSDP` | media/media_session.go:1193-1254 | a description without fingerprint or setup is refused, any other negotiated, and an association it arms is checked against that description's fingerprints |
| `Codecs.Match` | media/media_session.go:1973-1989 | a codec is found exactly when the format is supported, under the peer's payload type |
| `Codecs.MatchIsFirst` | media/media_session.go:1991-2028 | it is the first local codec of that format |
| `Codecs.NegotiatedKeys` | media/media_session.go:1991-2028 | what is negotiated is the peer's supported formats, in its order, under its numbers |
| `Codecs.ExchangeAgrees` | media/media_session.go:1991-2054 | an exchange is refused only with no common format; else both hold the same formats and numbers and keep their own lists |
| `Codecs.AlwaysAgree` | media/media_session.go:1991-2054 | both sides hold the same formats and numbers after any offers and refreshes from either side |
| `Codecs.TurnSettles` | media/media_session.go:1991-2054 | after any turns, the next leaves both sides with exactly the formats of its offer that the answerer has, in the offer's order, and changes nothing when there is none |
| `Codecs.RefreshKeeps` | dialog_media.go:1308-1316 | a refresh from either side is taken and changes nothing either side negotiated |
| `Codecs.RefreshesKeep` | dialog_media.go:1308-1316 | nor does any number of them from either side |
| `Codecs.RefreshesAreTaken` | dialog_media.go:1308-1316 | and every one of them is taken |
| `Codecs.MatchMeans` | media/media_session.go:1973-1989 | codecs match exactly when their names are the same up to ASCII case and their rates and channels are the same |
| `Codecs.OfferMeans` | dialog_media.go:1308-1316 | a refresh offers what is negotiated, and any other offer, or one before any answer, the session's own list |
| `Codecs.SameKeysMean` | media/media_session.go:1991-2028 | two lists have the same keys exactly when they hold matching codecs under the same payload types in the same order |
| `Codecs.FindMatch` | media/media_session.go:1991-2028 | the inner loop finds that first codec |
| `Codecs.UpdateRemoteCodecs` | media/media_session.go:1991-2028 | the loops compute that negotiation and its size |
| `Mixing.HearsTheOthers` | bridge.go:968-1067 | while no running sum leaves 16 bits a stream hears the saturated sum of all the others, so exactly their sum if and only if it fits |
| `Mixing.HeardIsExactWhen` | audio/utils.go:76-117 | for any streams a sample heard is exactly the sum of the others if and only if that sum fits and every excess of a running sum is undone by a later one at the other end, a condition on the sums of the first streams alone |
| `Mixing.MixedAgainstTotal` | audio/utils.go:76-96 | the saturating mix is below the true total exactly when a sum above 16 bits is never undone, and above it exactly when one below is not |
| `Mixing.NeverSaturatesExactlyWhen` | audio/utils.go:76-117 | no running sum leaves 16 bits exactly when a silent listener hears every first part of the streams as their sum |
| `Mixing.SaturationIsHeard` | audio/utils.go:76-117 | three streams whose others cancel out, yet one hears noise |
| `Mixing.SaturationCanCancel` | audio/utils.go:76-117 | five streams whose running sum saturates, two of which still hear exactly the others |
| `Mixing.SampleBytes` | audio/utils.go:76-117 | samples are little-endian two's complement, and writing back what was read changes no byte |
| `Mixing.PCMMix` | audio/utils.go:76-96 | each sample is the saturated sum of the inputs as they were, though the output may be one of them |
| `Mixing.PCMUnmix` | audio/utils.go:98-117 | each sample is the saturated difference of the inputs as they were, though the output may be one of them |
| `Mixing.UnmixStream` | bridge.go:1120-1125 | over its own frame the stream gets the mix without it, and the plain mix past its end |
| `Mixing.MixOne` | bridge.go:1023-1047 | one stream's turn adds its frame to the mix, or marks it gone |
| `Mixing.MixAllStreams` | bridge.go:968-1067 | the mix holds the running saturated sum of every stream's frame, short ones zero-extended, and the round goes on exactly when a stream is left and the mix is running or complete |
| `Mixing.Broadcast` | bridge.go:873-898 | each stream left is written the mix without its own frame, whatever the order |
| `Mixing.HearOne` | bridge.go:875-882 | what one stream is written |
| `Mixing.MixRound` | bridge.go:863-898 | a round that ends the mix or reads nothing writes nothing; any other writes each stream left the mix without its own frame, which is the sum of the others exactly under that condition |
| `BridgeMix.RunKeeps` | bridge.go:511-825 | every interleaving of joins, leaves, updates, waits and ending goroutines keeps one stopper, its channel, the goroutine counts, the hooks and the codecs in agreement |
| `BridgeMix.StartsAreClean` | bridge.go:713-825 | mixStart only ever runs with no goroutine of an earlier mix alive and no stop in progress |
| `BridgeMix.StopsCloseOnce` | bridge.go:651-692 | each stop channel is closed exactly once, by the call that made it |
| `BridgeMix.NoCallWaitsForNothing` | bridge.go:655-660 | a call waiting for a stop waits for one that is over or still being made |
| `BridgeMix.BridgeStaysWhole` | bridge.go:713-825 | dialogs stay distinct with hooks for exactly them, a running mix covers exactly them at one sample rate and frame duration, and no dialog is left with its reads stopped |
| `BridgeMix.CallsEnd` | bridge.go:511-588 | a join is accepted exactly when the dialog is in the bridge because of it, a leave always takes its dialog out, and the dialogs left are mixed when they are enough |
| `BridgeMix.CallsThatStop` | bridge.go:511-617 | in every run the calls that stop the mix are exactly the joins of confirmed dialogs with media, the leaves of dialogs in the bridge and the updates of a mixed dialog to another codec; each makes the stop or waits for the one in progress, and any other call changes nothing |
| `BridgeMix.RestartReadsAnew` | bridge.go:713-825 | a restarted mix has the codecs its streams were set up with, of exactly the dialogs at its audio, and its audio is the last mix's while a dialog has it, else the first dialog's |
| `BridgeMix.MixDrains` | bridge.go:633-678 | from any state of any run the goroutines of a mix being stopped can end until none is left, and until then the stop only waits |
| `BridgeMix.StopCanFinish` | bridge.go:651-678 | a stop can always be finished: its call ends, its channel is closed and the bridge is no longer stopping |
| `BridgeMix.WaiterCanGoOn` | bridge.go:651-678 | a call that waits for another's stop can always go on to make its own |
| `BridgeMix.WhoStays` | bridge.go:525-588 | in every run a join adds only its dialog and a leave takes out only its own; of those, once they are enough to mix, exactly the ones whose stream was set up at the mix's audio stay |
| `BridgeMix.MixRunsOn` | bridge.go:768-825 | a mix started runs one loop and, polling, one reader a dialog; one not started runs nothing |
| `BridgeMix.CodecsAreNilWhenTooFew` | bridge.go:719-767 | streamCodecs is nil exactly while there are too few dialogs to mix |
| `BridgeMix.CodecsOutliveTheMix` | bridge.go:633-639 | a loop that ends on its own leaves it behind |
| `BridgeMix.MixStartKeeps` | bridge.go:713-825 | from any idle bridge mixStart leaves hooks and codecs whole, adds no dialog, and mixes exactly when enough dialogs are left |
| `BridgeMix.Audio` | bridge.go:728-737 | the audio chosen is always one some dialog has |
| `BridgeMix.SomeoneIsMixed` | bridge.go:728-758 | so unless a re-INVITE comes between the readings or a stream fails to set up, a mix never loses every dialog |
| `BridgeMix.Mixed` | bridge.go:739-758 | exactly the dialogs whose stream set up at the mix's audio, in order |
| `BridgeMix.MixBridge.constructor` | bridge.go:473-480 | an empty idle bridge |
| `BridgeMix.MixBridge.MixEnded` | bridge.go:633-639 | idle after a loop that ended on its own, still stopping after one that was stopped |
| `BridgeMix.MixBridge.MixStop` | bridge.go:683-692 | stopping, on a new open channel, with reads stopped on every dialog; fails exactly when one fails otherwise than by a closed connection |
| `BridgeMix.MixBridge.StopOver` | bridge.go:667-678 | idle, with that channel closed and reads started again on every dialog |
| `BridgeMix.MixBridge.UnhookUnsafe` | bridge.go:593-598 | that dialog's hook is gone and no other |
| `BridgeMix.MixBridge.ChooseAudio` | bridge.go:728-737 | computes that audio |
| `BridgeMix.MixBridge.AddStreams` | bridge.go:739-750 | tells the dialogs that can be mixed from the others, with the codec each stream uses |
| `BridgeMix.MixBridge.Remaining` | bridge.go:755-758 | keeps the dialogs that can be mixed in order |
| `BridgeMix.MixBridge.MixStart` | bridge.go:713-825 | leaves the bridge MixStartKeeps is about and returns the dialogs it took out |
| `BridgeMix.MixBridge.JoinStopped` | bridge.go:525-549 | a join after the stop, with the outcome CallsEnd is about |
| `BridgeMix.MixBridge.LeaveStopped` | bridge.go:577-588 | the dialog is out whatever the stop reported, and the bridge stays whole |
| `BridgeMix.MixBridge.RestartNeeded` | bridge.go:605-617 | only a changed codec of a mixed dialog restarts the mix |
| `SessionTimer.NegotiatesTheFloor` | session_timers.go:130-184 | the interval is the least that meets the offer, or our default without one, and both minima; an offer is refused exactly when below a minimum, the peer's refresher is honoured, and the cadence is within the interval exactly when that is 45 seconds or more |
| `SessionTimer.RefreshCadence` | session_timers.go:272-274 | half the interval, never below 45 seconds |
| `SessionTimer.StayInStep` | session_timers.go:376-479 | with any peer that goes by the most recent 2xx, whatever it asks or answers, both sides keep one interval and exactly one refresher through any refreshes and 422s |
| `SessionTimer.RefreshInStep` | session_timers.go:376-479 | a refresh answered by the same code brings both to the interval asked for |
| `SessionTimer.EndsStayCoupled` | session_timers.go:376-479 | two ends with this code, however they refresh and answer each other 422, stay on one interval that never falls, with the same one refresher, and while each 422 is followed by its retry the interval meets every Min-SE either has seen |
| `SessionTimer.RefusedIntervalIsRaised` | session_timers.go:376-478 | after any turns, what a 422 asked for is met by the interval both ends then hold, whether its retry follows at once or only a later refresh does |
| `SessionTimer.RunKeeps` | session_timers.go:363-569 | every interleaving of changes and wake-ups keeps the sleeper's snapshot current or a wake-up pending |
| `SessionTimer.NoWakeUpIsLost` | session_timers.go:499-569 | whenever run sleeps with no wake-up pending it waits for what the current state asks for, and refreshing has stayed stopped only while nothing changed since the refresh that stopped it began |
| `SessionTimer.AsksForEveryMinSE` | session_timers.go:376-432 | a refresh asks for exactly the larger of the interval and the largest Min-SE seen so far |
| `SessionTimer.RefreshCanBeLate` | session_timers.go:441-469 | a run in which our refresh is due only after the session expired |
| `SessionTimer.WaitMeans` | session_timers.go:508-518 | the wait is for a change alone exactly while the timer is off or refreshing is stopped; while the peer refreshes it is the whole interval and the grace, 5 seconds by default; while we do, half the interval but at least 45 seconds |
| `SessionTimer.ExpiresOnlyWhenSilent` | session_timers.go:526-532 | in every run the session is given up only when the peer was to refresh it and more than the interval passed since the last change, unless one is being signalled |
| `SessionTimer.ExpiresOnceSilent` | session_timers.go:526-532 | in every run an interval and the grace slept through give it up |
| `SessionTimer.RefreshesWhenDue` | session_timers.go:529-540 | while we refresh, a wait ends in a refresh and never in an expiry, after half the interval or more |
| `SessionTimer.FirstWait` | session_timers.go:499-519 | a new timer waits at once for what its state asks, refreshing if we are to |
| `SessionTimer.ChangeRestartsTheWait` | session_timers.go:499-541 | in every run a 2xx while the timer is on makes the next wait one for the state it set, from then on, with refreshing resumed, whether it found run asleep or in a refresh that then stopped; while the timer is off it does nothing |
| `SessionTimer.RefreshRound` | session_timers.go:526-540 | after a refresh during which nothing changed run waits as before, or for a change alone if it stopped, or returns |
| `SessionTimer.AnswersWhatIsAsked` | session_timers.go:441-478 | a 2xx of ours takes the peer's interval and refresher, keeps the current ones it leaves open, has us refresh for a peer that cannot, and announces just that |
| `SessionTimer.TakesTheAnswer` | session_timers.go:401-424 | a 2xx to us sets the interval and refresher it names, the refresher we named when it names none, and turns the timer off when it has no Session-Expires |
| `SessionTimer.OffStaysOff` | session_timers.go:401-447 | a timer that is off stays off, asks for nothing and answers nothing |
| `SessionTimer.SessionTimerLoop.SetLocked` | session_timers.go:363-369 | the new state, with the one slot full |
| `SessionTimer.SessionTimerLoop.RequestHeaders` | session_timers.go:376-393 | the headers the theorems are about, and whether they name us |
| `SessionTimer.SessionTimerLoop.Answered` | session_timers.go:401-424 | takes the step of a 2xx to our re-INVITE |
| `SessionTimer.SessionTimerLoop.RaiseMinSE` | session_timers.go:428-432 | takes the step of a 422, without a wake-up |
| `SessionTimer.SessionTimerLoop.AnswerPeer` | session_timers.go:441-479 | takes the step of our 2xx, whose headers name the state it sets |
| `SessionTimer.SessionTimerLoop.DrainChanged` | session_timers.go:503-507 | the pending wake-up is taken and resumes refreshing |
| `SessionTimer.SessionTimerLoop.BeginWait` | session_timers.go:508-519 | the wait is for the current state, without a timer exactly when nothing is due; while the peer refreshes it outlasts the interval, and while we do it is within the interval exactly when that is at least 45 seconds |
| `SessionTimer.SessionTimerLoop.Woken` | session_timers.go:520-532 | what a wait's end makes the loop do; it expires the session only past the interval it slept on |
| `SessionTimer.SessionTimerLoop.RefreshDone` | session_timers.go:533-539 | what follows a refresh: another round, refreshing or not, or the return |

## Left out

- SDP, header, sipfrag and Event text: the models work on records of what was parsed.
- Sockets, DTLS, SRTP and ICE internals, and `media/dtls.go`, `media/ice.go`, `media/ice_mux.go`: a handshake that runs completes.
- ICE paths, the `SDPSetupRole` and `DTLSRole` overrides and `SDPCodecPreferLocalOrder`.
- Our own BYE racing a re-INVITE answer: it does not take the lock the peer's BYE takes, so the theorems are about the peer's BYE.
- The instant a timer fires and which ready `select` case wins: either may, in any order.
- RTCP statistics, playback, recording, codecs, digest authentication, the register loop and the sample programs: I/O or easy members.
- `time.Duration` and counter overflow: durations and counters are unbounded.
- JitterBuffer.RtpJitterBuffer: the slots, free list and ring are an object of their own, and a slot holds a packet value rather than a region of one byte array; `expectedSet` and the debug output are not modelled.
- JitterBuffer.RtpJitterBuffer.ReadRTP: covers the loop up to its wait; what the wait ends with is an event of the run.
- `readUpstream`'s move to a replaced reader: an arrival is what it returns in the end.
- Dtls.RunAgrees: a run ends with the first refused turn, as the source then ends the call.
- Codecs.AlwaysAgree: for sessions set up with a codec list; a session without one takes the peer's list over. Case folding of names is ASCII.
- Codecs.UpdateRemoteCodecs: works on the session as a value.
- Dtls.MediaSession.NegotiateDTLSAssociation: a refusal leaves the session's fields unspecified, as the source discards that fork.
- Mixing.MixAllStreams: the polling form; direct reads with a deadline mix the same way. Buffers have even length, as the source's has.
- Mixing.MixRound: for a mix of two streams or more; the loop reads a single stream and writes it nothing.
- Mixing.PCMMix: for frames of even length; the source would index past the end of an odd one.
- BridgeMix.BridgeStaysWhole: a dialog on which starting reads failed counts as started, its error being the call's result.
- Refer.RoutedToItsOwn: about REFERs that have an attempt; for the others UnobservedMisroutedExactlyWhen holds.
- ReferDesk.ReferAttempt.ArmReferBound: a timer is the deadline it was armed for; that it fires is an event.
- ReInvite.DialogMedia.RetransmitTurn: one turn of the loop; the ACK, the dialog's end and 64*T1 end it through StopRetransmitting.
- ReInvite.DialogMedia.HandleReInvite: without other goroutines in between; for those the theorems over runs hold.
- SessionTimer.StayInStep: the peer goes by the most recent 2xx, as section 9 of RFC 4028 asks; only server dialogs run the timer here.
- `refreshSession`'s retries and the test-only `clock` scaling of the session timer.
