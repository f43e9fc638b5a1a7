# kcp-mux, modelled and proved in Dafny

kcp-mux multiplexes connections and KCP streams over datagrams. It is driven by
callbacks and runs in one thread: the host hands it datagrams and timer
wakeups, and it calls the host and the application back. This project models
its scheduler, its stream and connection lifecycles, its protocol and its
identifier and data arithmetic, and proves what holds of them along every run.

`dafny verify dfyconfig.toml` checks everything.

## What is proved

* **Graceful close loses nothing** (`GracefulClose`, with an actual run of the
  kind in `GracefulRun`). Two ends of a stream, over a network that loses,
  duplicates and reorders: if a normal close found the peer's end open and that
  end was finalised by reading, its application read exactly what the closing
  end's KCP ever accepted.
* **Handshake agreement** (`Handshake`), for any number of engines. A connected
  initiator's peer identifier names a connection that its peer made passively
  for exactly it and accepted; no two initiators share one; while a passive
  connection lives, repeated CONNECTs make nothing and ask nobody; and when the
  datagrams get through, both ends end up connected to each other.
  `Acceptance` proves that the CONNECT handler of this protocol and the one that
  serves datagrams do the same.
* **Nothing gets stuck** (`StreamRuns`, `Conn`, `Engine`, `Runtime`). At every
  operation boundary each live stream of a connected connection and each
  connection with a deadline has its node in the timer heap, with the host's
  one-shot set for a time no later, and no waiting phase is cut short, so the
  update branches that do not reschedule are never taken early.
* **What everyone is told** (`StreamChart`, `StreamEnds`, `ConnChart`). The life
  of a stream and of a connection is a chart: for every event and stage, what is
  said and what comes next. Every operation follows its chart, so over every run
  an application is told the reason its peer gave, TIMEOUT for a drain that ran
  out, its connection's reason when that ended, and else that the close was
  normal; every close a peer sends is acknowledged once, with its reason; and
  repeated announcements and requests are a control timeout apart.
* **Timers are neither early nor late** (`StreamWork`, `StreamTimer`,
  `ConnMarks`, `ConnTimer`). Work handed to KCP is on the batch list or due,
  whatever the batch threshold, and the threshold is exact. A closing stream is
  due exactly when its stage is over, and a connection exactly when one of its
  timeouts is. What a connection notes is the latest time it heard from its peer,
  and heard a payload, over any run; a firing ends it with TIMEOUT if and only if
  nothing was heard during the last keepalive_timeout, and else with IDLE if and
  only if no payload was heard during the idle timeout.
* **Scheduling cannot fail** (`Runtime`). The registered timer nodes are exactly
  those of the live connections and streams, one each, and the heap has room for
  all of them, along every run.
* **Bounded close** (`BoundedClose`, `BoundedConn`). A closed stream is gone
  within drain_timeout + close_retries x ctrl_timeout after at most
  1 + close_retries announcements. A connection that is not answered is gone
  within (1 + connect_retries) x ctrl_timeout after exactly 1 + connect_retries
  CONNECTs, and one that is closing within close_retries x ctrl_timeout. A stream whose
  peer closed it is gone within drain_timeout, read or not.
* **Ownership** (`Engine`, `Runtime`). Along every run: finalised once with KCP
  released before the one close notice, queued once, streams before their
  connection, freed only by the outermost leave, counters equal to the maps,
  everything closed accounted for in what is queued or freed. Insertion into a
  connection's stream map skips a key that is taken while the counters go up;
  stream creation never meets such a key.
* **The scheduler** (`Timer`, `Scheduler`). The indexed heap, sifted through a
  hole, with back-pointers, fires in (deadline, sequence) order. For arbitrary
  callbacks, one update runs the callbacks of the nodes that were due, in that
  order, each once, and leaves out exactly the nodes that an earlier callback
  acted upon. Scheduling a registered node cannot fail; the host's one-shot is
  always set for the root.
* **Any datagram** (`Input`, `Outcomes`, `Wire`). Every byte string keeps the
  engine's invariant, touches at most one connection, one that belongs to its
  sender, and has exactly the effect its message asks for, or none when it is
  refused; when it is refused, and with which status, is a function of the bytes
  and of what they meet. `Outcomes` reads the effects off the charts, and `Wire`
  says where every byte of a message stands.
* **No resurrection** (`StreamIds`, `Input.Endpoint.Serve`). Over any sequence of
  datagrams and of things the application does, a connection's peer creates two
  streams under one identifier only if the newest identifier travelled more than
  2^31 in between, whatever became of the streams.
* **Sending** (`SendPath`, `SentBytes`): a vectored send is the contiguous send
  of the flattened bytes; the count of bytes sent is the length of the prefixes
  that KCP accepted, over every run, so that the silent close of an unused stream
  happens exactly when KCP was handed nothing. **Identifiers** (`StreamIds`):
  allocation by pigeonhole. **Notifications** (`StreamNotices`): one read notice
  per empty-to-readable edge, one write notice per block that ends. **Tables**
  (`HashTable`): a finite map for any hash function.

## How it is laid out

The records of the library that many proofs are about, a stream and a
connection, are values with one function per library function (`Stream`,
`Conn`). The classes `StreamObject.Stream` and `ConnObject.Conn` update their
fields in place as the library does. Each has a timer node of its own
(`TimerSlot`) in the engine's scheduler, and each method is proved to do to the
object's value what the function does. `Engine` holds the maps, lists and
counters, with the values on record. `Runtime` puts all of it together: the
engine, the objects with their nodes, and the scheduler that fires them. It keeps
every object equal to its record and the scheduler's nodes equal to the live
owners, so that the theorems about values hold of the objects
(`Runtime.Runtime.Run`). The heap, the scheduler, the hash table, the send path,
the identifier allocator and the encoders are classes and methods over arrays and
fields.

Each operation has one clock reading, `clock`; `now` is the time at which a
firing update collected. `up` says that a stream's connection is CONNECTED and
not finalised, and `check` is what KCP answers when asked for its next update.
Randomness, callbacks, sockets and KCP's verdicts are parameters.

Where a plausible statement is stronger than the code, the code is followed, and
the exact condition under which the statement holds is proved:

* Every block on writing can end: exactly if the resume threshold is positive and
  below 2^31 (`StreamNotices.BlocksEndExactlyWhen`). Zero and larger values are
  accepted, and then no step ends a block (`StreamNotices.NeverResumes`).
* A stream with nothing waiting accepts data: exactly if the pause threshold is
  below 2^31 (`StreamNotices.EmptyQueuePausesExactlyWhen`). Above, no nonempty
  send ever passes (`StreamNotices.NothingPassesHighPause`).
* A stream is on the batch list exactly while its pending count is between zero
  and the threshold: after the engine's end of a batch, exactly if the stream is
  open and its connection up (`StreamRuns.BatchEndKeepsAgreement`, with runs to
  the failing cases in `StreamRuns.BatchEndLosesWork` and
  `StreamRuns.BatchEndLosesClosingWork`).
* A stream is marked blocked exactly when nothing is readable: after a payload,
  exactly if KCP reported success or readability did not change
  (`StreamRuns.MarkSurvivesPayload`). Notices are therefore counted for KCPs whose
  readability changes only in successful input and reads.
* Inserting a stream keeps the counters right: exactly if its key is not taken
  (`Engine.Engine.OpenStream`), which `Engine.Engine.CreateStream` ensures.
* A CLOSE that reaches an initiator still connecting is answered with a
  CLOSE_ACK that names no connection; `Wire.SendCloseAck` says that no receiver
  accepts it.
* An identifier is spent by a connection attempt with an unacceptable
  configuration (`Engine.Engine.Connect`).

## Model

| member | source | states |
|---|---|---|
| Timer.RootFiresFirst | src/kcpmux_timer.c:7-13 | in heap order the root has the earliest deadline and, among equals, the lowest sequence number; every other key comes after it |
| Timer.SettleUp | src/kcpmux_timer.c:24-38 | once the risen key is not before its parent, order around the hole is heap order |
| Timer.SettleDown | src/kcpmux_timer.c:40-65 | once no child is before the sunk key, order below the hole is heap order |
| Timer.Manager.SiftUp | src/kcpmux_timer.c:24-38 | sifting through a hole keeps the nodes and their back-pointers and repairs the order above; says where the node ends |
| Timer.Manager.SiftDown | src/kcpmux_timer.c:40-65 | sifting through a hole keeps the nodes and their back-pointers and restores heap order |
| Timer.Manager.RemoveAt | src/kcpmux_timer.c:67-80 | removing any position keeps heap order and links; the removed node is idle with an invalid index |
| Timer.Manager.Reserve | src/kcpmux_timer.c:120-149 | grows by doubling without disturbing the heap; never fails when there is room, nor while the allocator serves and sizes do not overflow; fails and leaves everything alone when it does not serve |
| Timer.Manager.Schedule | src/kcpmux_timer.c:151-182 | inserts with a fresh sequence or moves in place with the old one, leaves the due list, cannot fail with room; on failure nothing changes |
| Timer.Manager.Cancel | src/kcpmux_timer.c:184-195 | the node is idle, out of heap and due list, and the rest is intact |
| Timer.Manager.Peek | src/kcpmux_timer.c:197-203 | the root, if any, has an earlier deadline than every other scheduled node, or the same and a lower sequence number |
| Timer.Manager.CollectDue | src/kcpmux_timer.c:205-220 | moves exactly the nodes due at `now`, by deadline and, among equals, by sequence number; all others keep their state |
| Scheduler.Delay | src/kcpmux_engine.c:472-501 | the unsigned 64-bit computation of the delay is max(0, deadline - now) for all clock values |
| Scheduler.Scheduler.RoomForOneMore | src/kcpmux_engine.c:439-458 | a registered node outside the heap always finds reserved room |
| Scheduler.Scheduler.RegisterNode | src/kcpmux_engine.c:395-420 | reserves room for one more owner, or fails and changes nothing; only the allocator can make it fail below 2^59 nodes |
| Scheduler.Scheduler.UnregisterNode | src/kcpmux_engine.c:422-437 | the node leaves heap and due list, the reservation is returned, the host timer still agrees |
| Scheduler.Scheduler.ScheduleNode | src/kcpmux_engine.c:439-458 | succeeds exactly for registered nodes, whatever the allocator does, with the deadline raised to now |
| Scheduler.Scheduler.CancelNode | src/kcpmux_engine.c:460-470 | the node is idle and the host timer still agrees with the root |
| Scheduler.Scheduler.RearmTimer | src/kcpmux_engine.c:472-501 | asks the host exactly when outside operations the root's deadline is not the armed one |
| Scheduler.Scheduler.OperationLeave | src/kcpmux_engine.c:366-381 | only the outermost leave rearms, for the root |
| Scheduler.Scheduler.RunCallback | src/kcpmux_engine.c:300-302 | whatever a callback does, the trace records its call and each node acted upon, and the due list loses exactly the nodes acted upon |
| Scheduler.Scheduler.Dispatch | src/kcpmux_engine.c:295-306 | runs until nothing is due; the trace of calls and acts accounts for every node of the due list, in order |
| Scheduler.CallsInOrder | src/kcpmux_engine.c:295-306 | what such a trace calls is in the order of the due list, each node at most once |
| Scheduler.RanUnlessActedOn | src/kcpmux_engine.c:295-306 | a due node is called if and only if nothing acted on it before its turn |
| Scheduler.Scheduler.Update | src/kcpmux_engine.c:281-308 | the snapshot is exactly what was due, by deadline and then sequence number; the callbacks run are a subsequence of it, each node once, and a node of it runs if and only if no earlier callback acted on it; a node rescheduled into the past waits for a zero-delay wakeup |
| Scheduler.Scheduler.Run | src/kcpmux_engine.c:281-501 | along any use, outside operations the host timer is armed for exactly the root's deadline, and heap size <= registered nodes <= capacity |
| TimerSlot.Slot.Schedule | src/kcpmux_engine.c:439-458 | an owner's node is set for the deadline, raised to now, whatever the allocator does |
| TimerSlot.Slot.Release | src/kcpmux_engine.c:422-437 | an owner's node is idle and no longer registered, and no other node is touched |
| HashTable.Table.Find | src/internal/kcpmux_hashtable.c:39-52 | finds exactly what the map holds, for any hash function |
| HashTable.Table.Add | src/internal/kcpmux_hashtable.c:70-80 | adds the node unless its key is taken, then changes nothing |
| HashTable.Table.Del | src/internal/kcpmux_hashtable.c:88-103 | removes exactly this node, and nothing when its insertion had been skipped |
| HashTable.Table.Flush | src/internal/kcpmux_hashtable.c:126-144 | empties the map |
| Stream.DeadlineAfter | src/kcpmux_timer.h:41-47 | the sum of anchor and interval, and the largest clock value exactly if the sum exceeds it |
| StreamObject.Stream.constructor | src/kcpmux_stream.c:118-177 | a new stream is open, blocked for reading, with its timer set |
| StreamObject.Stream.ScheduleFinalize | src/kcpmux_stream.c:36-46 | in place, what Stream.ScheduleFinalize says |
| StreamObject.Stream.AccumulateUpdate | src/kcpmux_stream.c:56-79 | counts towards the batch, joins and leaves the list, and schedules at the threshold as Stream.Accumulate says |
| StreamObject.Stream.RefreshTimer | src/kcpmux_stream.c:853-909 | the timer is set for what state and phase call for, or cancelled |
| StreamObject.Stream.CloseInternal | src/kcpmux_stream.c:179-219 | finalises the object once: timer, KCP, state, notification, release, in that order; its removal from the maps follows in Runtime.Runtime.StreamStep |
| StreamObject.Stream.SetState | src/kcpmux_stream.c:721-735 | changes state, refreshes the timer, notifies unless the state is terminal |
| StreamObject.Stream.SendClose | src/kcpmux_stream.c:1022-1030 | announces the close and restarts the control timeout; an error once closed |
| StreamObject.Stream.AdvanceLocalClose | src/kcpmux_stream.c:737-751 | announces only when KCP has nothing unacknowledged, finalises at once without retries |
| StreamObject.Stream.Close | src/kcpmux_stream.c:272-322 | starts draining, finalises an unused local stream at once, cuts a remote drain short |
| StreamObject.Stream.Update | src/kcpmux_stream.c:753-851 | the timer callback in every state and phase |
| StreamObject.Stream.UpdateDraining | src/kcpmux_stream.c:794-811 | drained, timed out or still waiting while draining locally |
| StreamObject.Stream.UpdateWaiting | src/kcpmux_stream.c:813-828 | retries and gives up while waiting for the acknowledgement |
| StreamObject.Stream.FinishBatchAt | src/kcpmux_stream.c:598-619 | takes the stream off the list and schedules its work, for open streams of connected connections below the threshold |
| StreamObject.Stream.FinishListed | src/kcpmux_engine.c:331-348 | the engine's end of a batch for one listed stream |
| StreamObject.Stream.SetConfig | src/kcpmux_stream.c:324-334 | replaces an acceptable configuration except for the segment size, clears the batch, refreshes the timer |
| StreamObject.Stream.HandlePayload | src/kcpmux_stream.c:921-971 | feeds KCP, counts towards the batch, notifies on the empty-to-readable edge; every error code |
| StreamObject.Stream.HandleClose | src/kcpmux_stream.c:973-1016 | the peer's close in every state and phase; every error code |
| StreamObject.Stream.HandleCloseAck | src/kcpmux_protocol.c:240-257 | the acknowledgement finalises exactly a stream waiting for it |
| StreamObject.Stream.Recv | src/kcpmux_stream.c:637-674 | returns the next message, marks blocked or schedules finalisation when it was the last; every error code, a failing KCP included |
| StreamObject.Stream.Send | src/kcpmux_stream.c:453-553 | blocks at the pause threshold, fails on a refused first chunk, else hands KCP the accepted chunks, counts their bytes and asks for the update; what the caller is told |
| StreamObject.Stream.SendV | src/kcpmux_stream.c:555-590 | the same as sending the flattened fragments, native or copying |
| StreamObject.Stream.Reject | src/kcpmux_protocol.c:285-298 | in place, what turning down a peer's stream comes to |
| StreamObject.Stream.Fail | src/kcpmux_protocol.c:303-305 | in place, what a failing first payload comes to |
| StreamObject.Stream.Fire | src/kcpmux_engine.c:295-305 | the first due node is taken, its callback run, and it is idle unless rescheduled; no other node changes |
| StreamObject.Stream.Operate | src/kcpmux_stream.c:272-1035 | any operation but a firing does to the object what StreamRuns.Apply does to its value |
| StreamRuns.NewIsKept | src/kcpmux_stream.c:118-177 | a new stream satisfies the invariant |
| StreamRuns.CloseKeeps | src/kcpmux_stream.c:272-322 | closing keeps the invariant |
| StreamRuns.HandleCloseKeeps | src/kcpmux_stream.c:973-1016 | a peer's close keeps the invariant |
| StreamRuns.FireKeeps | src/kcpmux_stream.c:753-851 | a firing leaves the stream with its timer set again or finalised |
| StreamRuns.PayloadKeeps | src/kcpmux_stream.c:921-971 | a payload keeps read marking, batch bookkeeping and timer |
| StreamRuns.RecvKeeps | src/kcpmux_stream.c:637-674 | a read keeps them |
| StreamRuns.SendKeeps | src/kcpmux_stream.c:453-541 | a send keeps them |
| StreamRuns.ApplyKeeps | src/kcpmux_stream.c:36-79 | every operation keeps: timer set while connected, listed exactly while 0 < pending < threshold and due at the threshold, blocked for reading exactly when nothing is readable, finalisation logged once and last |
| StreamRuns.RejectKeeps | src/kcpmux_protocol.c:285-298 | turning down a peer's stream keeps the invariant |
| StreamRuns.NothingGetsStuck | src/kcpmux_stream.c:753-909 | over any run ending connected, a stream is finalised or has its timer set, and waiting phases do not fire early |
| StreamRuns.BatchEndKeepsAgreement | src/kcpmux_engine.c:331-348 | after the engine's end of a batch, list and pending count of a listed stream agree if and only if it is open and its connection up |
| StreamRuns.BatchEndLosesWork | src/kcpmux_stream.c:598-619 | a run to a stream whose work is neither listed nor due: its connection went down |
| StreamRuns.BatchEndLosesClosingWork | src/kcpmux_stream.c:598-619 | another: its peer is closing it |
| StreamRuns.MarkSurvivesPayload | src/kcpmux_stream.c:938-969 | after a payload the read mark of an open stream is right if and only if KCP succeeded or readability did not change |
| StreamNotices.OneNoticePerEdge | src/kcpmux_stream.c:951-969 | one read notice for a step that makes an open stream readable, none for any other step |
| StreamNotices.NoticesMatchEdges | src/kcpmux_stream.c:637-674 | over any run, read notices equal empty-to-readable transitions |
| StreamNotices.OneNoticePerResume | src/kcpmux_stream.c:767-781 | one write notice for a step that ends a block and none for any other; a block ends if and only if a connected open stream fires with its queue below the resume threshold |
| StreamNotices.WriteNoticesMatchResumptions | src/kcpmux_stream.c:481-493 | over any run, write notices equal blocks ended |
| StreamNotices.NeverResumes | src/kcpmux_stream.c:767-781 | with a resume threshold of zero, or of 2^31 and more, no step ends a block |
| StreamNotices.BlocksEndExactlyWhen | src/kcpmux_stream.c:767-781 | some step can end a block if and only if the resume threshold is positive and below 2^31 |
| StreamNotices.EmptyQueuePausesExactlyWhen | src/kcpmux_stream.c:481-493 | a stream with nothing waiting takes a nonempty send if and only if the pause threshold is below 2^31, and else blocks |
| StreamNotices.NothingPassesHighPause | src/kcpmux_stream.c:481-493 | with a pause threshold of 2^31 and more no nonempty send passes |
| StreamSteps.AdvanceIsCareful | src/kcpmux_stream.c:737-751 | a normal close is announced only once everything sent is acknowledged, and KCP is not used after |
| StreamSteps.HandleCloseIsCareful | src/kcpmux_stream.c:973-1016 | a normal close of an open stream starts a drain without touching KCP; in all other cases nothing is announced early |
| StreamSteps.FireIsCareful | src/kcpmux_stream.c:753-851 | no firing announces a normal close early |
| StreamSteps.BatchEndIsCareful | src/kcpmux_stream.c:598-619 | nor does the end of a batch announce a close |
| GracefulClose.DrainedIsComplete | src/kcpmux_stream.c:661-671 | when nothing more is readable after the peer's normal close, everything it sent has been read |
| GracefulClose.NextKeeps | src/kcpmux_protocol.c:225-318 | every step of two endpoints and their network, the engine's end of a batch included, keeps the invariant |
| GracefulClose.RunsKeepInv | src/kcpmux_protocol.c:225-318 | so does every run |
| GracefulClose.GracefulCloseLosesNothing | src/kcpmux_stream.c:737-751 | in every run, a stream closed normally by its peer and finalised by draining has read exactly the messages the peer's KCP accepted |
| GracefulRun.GracefulCloseHappens | src/kcpmux_stream.c:1005-1015 | there is a run that sends, acknowledges, closes, drains and finalises as the theorem supposes |
| BoundedClose.CloseOnSchedule | src/kcpmux_stream.c:302-321 | a close starts on schedule |
| BoundedClose.FireOnSchedule | src/kcpmux_stream.c:792-845 | a firing on time keeps the schedule: sends left and time left shrink together |
| BoundedClose.PeerCloseOnSchedule | src/kcpmux_stream.c:984-1003 | a peer's close finalises at once or by the next firing, never later than planned |
| BoundedClose.CloseIsBounded | src/kcpmux_stream.c:792-845 | at most 1 + close_retries announcements, and nothing happens later than drain_timeout + close_retries x ctrl_timeout after the close |
| BoundedClose.DrainIsBounded | src/kcpmux_stream.c:830-840 | after the peer's normal close of an open stream nothing happens to it later than drain_timeout |
| BoundedConn.UpdateWaits | src/kcpmux_conn.c:436-498 | an on-time update of a waiting connection ends it or keeps it on schedule: retransmissions left and time left shrink together |
| BoundedConn.ConnectIsBounded | src/kcpmux_conn.c:436-449 | with timely updates an unanswered connection has ended (1 + connect_retries) x ctrl_timeout after its start |
| BoundedConn.CloseIsBounded | src/kcpmux_conn.c:483-498 | with timely updates a closing connection has ended close_retries x ctrl_timeout after the close |
| SendPath.ChunksJoin | src/kcpmux_stream.c:499-516 | the chunks of a buffer joined are the buffer |
| SendPath.ChunkSizes | src/kcpmux_stream.c:499-503 | all chunks have the segment size but the last, which is not empty |
| SendPath.AcceptedIsPrefix | src/kcpmux_stream.c:504-519 | what KCP took before refusing is a prefix of the bytes, as long as the return value says |
| SendPath.Sender.VectoredAdvance | src/kcpmux_stream.c:369-388 | the cursor moves by exactly `size` bytes and past empty fragments |
| SendPath.Sender.VectoredCopy | src/kcpmux_stream.c:390-411 | copies exactly the next `size` bytes, leaving the cursor alone |
| SendPath.Sender.SendChunks | src/kcpmux_stream.c:499-517 | hands KCP the chunks up to its first refusal and returns their size, or the error if it was the first |
| SendPath.StreamSend | src/kcpmux_stream.c:499-517 | a contiguous send has the outcome of its bytes; the checks around it are StreamObject.Stream.Send |
| SendPath.StreamSendV | src/kcpmux_stream.c:369-451 | a vectored send, native or copying, has the outcome of the flattened bytes, for all fragment lists and failure points |
| SentBytes.SendCountsPrefix | src/kcpmux_stream.c:504-540 | the count grows by the length of the accepted prefix, which is what the caller is told and what KCP was handed |
| SentBytes.CountIsAccepted | src/kcpmux_stream.c:519-520 | over any run the count is the length of all that KCP accepted, and zero if and only if that is nothing |
| SentBytes.SilentCloseIsUnheard | src/kcpmux_stream.c:307-313 | over any run, closing an open local stream ends it at once without an announcement if and only if KCP was handed nothing |
| StreamChart.StepFollowsChart | src/kcpmux_stream.c:179-1035 | every operation on a stream leads to the stage, and says exactly what, the chart of events and stages lays down |
| StreamChart.VerdictIsGiven | src/kcpmux_stream.c:211-214 | whatever ends a hooked stream, the notice before its release gives the reason that event and stage call for |
| StreamChart.FailureIsTold | src/kcpmux_protocol.c:303-305 | a stream whose first payload failed ends with ERROR |
| StreamChart.RejectionIsAnnounced | src/kcpmux_protocol.c:285-298 | a stream turned down is announced as REJECTED, waits for the acknowledgement unless there are no retries, and tells its application nothing |
| StreamEnds.EndIsExplained | src/kcpmux_stream.c:753-845 | over any run of a stream not turned down: the peer's or connection's reason, TIMEOUT exactly for a drain that ran out, and else NORMAL |
| StreamEnds.ClosesAreAcknowledged | src/kcpmux_stream.c:973-1016 | over any run, each close a peer sends to a live stream is acknowledged, once, with its reason, and nothing else is |
| StreamEnds.AnnouncementsAreApart | src/kcpmux_stream.c:813-828 | over any run, the control timeout has passed between one announcement of a close and a later one |
| StreamWork.WorkIsListedOrDue | src/kcpmux_stream.c:56-79 | after any payload an open stream of a connected connection takes, and any unflushed send KCP accepted part of, the stream is on the batch list or due, for all configurations |
| StreamWork.ThresholdIsExact | src/kcpmux_stream.c:56-79 | n such operations in a row leave the stream listed and its timer alone while n is below the threshold, and due and off the list from then on |
| StreamWork.FinishedIsDue | src/kcpmux_stream.c:598-619 | the end of a batch makes listed work due, and work done before the timer fires is not listed again |
| StreamWork.NewAsksKcp | src/kcpmux_stream.c:118-177 | a new stream has nothing to read, nothing pending and its timer set for what KCP asks for |
| StreamWork.FiringAsksKcp | src/kcpmux_stream.c:783-788 | an open stream that fired is set for the later of now and what KCP asks for, with nothing pending |
| StreamWork.DrainingAsksKcp | src/kcpmux_stream.c:794-811 | so is one that goes on draining, unless the drain is to end before |
| StreamWork.FlushAsksKcp | src/kcpmux_stream.c:530-535 | so is one that was flushed |
| StreamWork.ConfigurationIsTaken | src/kcpmux_stream.c:324-334 | a configuration is taken as a whole but for the segment size, or not at all, and the timer asks KCP again |
| StreamWork.EndIsDue | src/kcpmux_stream.c:36-46 | a stream that is to end is due at once |
| StreamWork.SendPassesExactlyWhen | src/kcpmux_stream.c:481-493 | a nonempty send reaches KCP if and only if fewer messages are waiting than the pause threshold read as an int, and else blocks |
| StreamTimer.ApplyIsPunctual | src/kcpmux_stream.c:853-909 | every operation keeps: waiting or emptying, due exactly when the wait is over; ending, due at once; draining, due by the end of the drain |
| StreamTimer.RunIsPunctual | src/kcpmux_stream.c:853-909 | so does every run |
| StreamIds.Allocator.constructor | src/kcpmux_conn.c:130-139 | the start is an owned identifier whatever the random value |
| StreamIds.Allocator.Alloc | src/kcpmux_conn.c:586-602 | returns an unused owned identifier within stream_count + 1 probes, and 0 if and only if all are in use |
| StreamIds.SomeIdIsFree | src/kcpmux_conn.c:586-602 | below 2^31 - 1 streams some owned identifier is unused |
| StreamIds.NoResurrection | src/kcpmux_conn.c:604-613 | an identifier taken as new is not new again before the mark has moved more than 2^31 |
| StreamIds.NeverTwice | src/kcpmux_protocol.c:267-282 | of the streams created in order, two have one identifier only if the mark travelled more than 2^31 in between |
| StreamIds.InOrderIsTaken | src/kcpmux_conn.c:604-613 | identifiers in order with gaps below 2^31 are all taken as new |
| StreamIds.AllocationAdvances | src/kcpmux_conn.c:586-602 | what a peer allocates stays in order through wrap and the skipped zero |
| Wire.NumberOfBigEndian | src/kcpmux_protocol.c:13-52 | reading what was written gives the number back |
| Wire.DecodeEncode | src/kcpmux_protocol.c:74-318 | decoding an encoded message, whatever follows it, gives the message; trailing bytes matter to payloads alone |
| Wire.AcceptedIsEncoded | src/kcpmux_protocol.c:74-318 | conversely, accepted input starts with the encoding of what it is decoded to |
| Wire.EncodingIsLaidOut | src/kcpmux_protocol.c:330-470 | every message byte by byte: type, destination and each field at its position, numbers as sums of bytes times powers of 256 |
| Wire.MessagesFit | src/kcpmux_engine.c:112-126 | no message exceeds 1500 bytes |
| Wire.WriteU64 | src/kcpmux_protocol.c:19-23 | writes the big-endian bytes in place, after what was there |
| Wire.WriteU32 | src/kcpmux_protocol.c:25-31 | likewise for 32 bits |
| Wire.WriteU16 | src/kcpmux_protocol.c:13-17 | likewise for 16 bits |
| Wire.ReadU64 | src/kcpmux_protocol.c:38-44 | reads the big-endian number |
| Wire.WriteCommon | src/kcpmux_protocol.c:330-334 | writes the common header |
| Wire.SendConnect | src/kcpmux_protocol.c:336-354 | the buffer filled in place is the encoding of the CONNECT |
| Wire.SendConnectAck | src/kcpmux_protocol.c:356-375 | likewise for CONNECT_ACK |
| Wire.SendKeepalive | src/kcpmux_protocol.c:377-388 | likewise for KEEPALIVE |
| Wire.SendClose | src/kcpmux_protocol.c:390-403 | likewise for CLOSE, refused while there is no peer |
| Wire.SendCloseAck | src/kcpmux_protocol.c:405-415 | likewise for CLOSE_ACK, which without a peer no receiver accepts |
| Wire.SendStreamClose | src/kcpmux_protocol.c:417-445 | likewise for STREAM_CLOSE and its acknowledgement |
| Wire.SendStreamPayload | src/kcpmux_protocol.c:447-470 | header and segment joined are the encoding, refused when empty or too long |
| Conn.UpdateActsWhenDue | src/kcpmux_conn.c:424-505 | an update sends, retries or closes if and only if the deadline has been reached |
| Conn.UpdateMovesOn | src/kcpmux_conn.c:424-505 | a surviving connection's next deadline lies ahead |
| Conn.EarlyUpdateIsIdle | src/kcpmux_conn.c:430-434 | an early update changes nothing but the timer |
| Conn.UpdateWakes | src/kcpmux_conn.c:424-505 | after an update a live connection with a deadline has its timer set |
| Conn.CloseWakes | src/kcpmux_conn.c:275-311 | so it has after a close |
| Conn.ReceiveWakes | src/kcpmux_conn.c:521-533 | and after hearing from its peer |
| Conn.ApplyEvolves | src/kcpmux_conn.c:275-533 | every operation keeps the identifier and the timer, and a closing connection is never connected again |
| ConnSteps.ApplyIsOrderly | src/kcpmux_conn.c:175-217 | whatever happens to a connection, its end is logged once and last |
| ConnSteps.VerdictIsGiven | src/kcpmux_conn.c:424-505 | the application is told the reason that the operation and the timeouts call for |
| Conn.BirthWakes | src/kcpmux_conn.c:223-273 | both ways a connection comes to be leave its timer as its state asks |
| Conn.UnansweredConnect | src/kcpmux_conn.c:436-449 | over any updates, an unanswered connection has sent one CONNECT per attempt and is closed with TIMEOUT exactly after 1 + connect_retries of them |
| ConnChart.StepFollowsChart | src/kcpmux_conn.c:175-533 | every operation on a connection leads where the chart of events and states lays down, notes the times it lays down and says exactly that |
| ConnChart.BirthIsCharted | src/kcpmux_conn.c:90-273 | how connections begin: what is noted and said by an initiator's, an accepted and a refused one |
| ConnMarks.MarksAreLatest | src/kcpmux_conn.c:521-533 | over any run a connection outlives, its marks are the latest times it heard from its peer and heard a payload, and the last at which it sent a keepalive; keepalives are numbered in order |
| ConnMarks.SilenceEnds | src/kcpmux_conn.c:451-481 | a connected connection that fires ends with TIMEOUT if and only if nothing was heard during the last keepalive_timeout, else with IDLE if and only if no payload was heard during a set idle_timeout, and else lives on |
| ConnMarks.RetransmissionsAreApart | src/kcpmux_conn.c:436-498 | over any run, a connecting or closing connection repeats itself only when the control timeout has passed since it last asked |
| ConnTimer.ApplyIsPunctual | src/kcpmux_conn.c:20-67 | every operation keeps: the timer is due exactly when some timeout of the state has been reached |
| ConnTimer.RunIsPunctual | src/kcpmux_conn.c:507-519 | so does every run |
| ConnTimer.BirthIsPunctual | src/kcpmux_conn.c:223-273 | so it is from the start, for both sides |
| ConnTimer.ConfigurationIsTaken | src/kcpmux_conn.c:313-321 | a configuration is taken, with 30000 for a receive timeout of zero, if and only if its control timeout is not zero |
| ConnObject.Conn.CalculateDeadline | src/kcpmux_conn.c:20-67 | the running minimum over the enabled timeouts is the deadline of the value, absent when saturated |
| ConnObject.Conn.Dialed | src/kcpmux_conn.c:223-273 | a new connection of an initiator is connecting, with its first CONNECT sent and its timer set |
| ConnObject.Conn.Accepted | src/kcpmux_protocol.c:108-138 | a peer's connection that was agreed to is connected, answered and has its timer set |
| ConnObject.Conn.Refused | src/kcpmux_protocol.c:108-145 | one that was refused is answered with the verdict and finalised without a notice |
| ConnObject.Conn.RefreshTimer | src/kcpmux_conn.c:507-519 | in place, what Conn.RefreshTimer says |
| ConnObject.Conn.SetState | src/kcpmux_conn.c:400-422 | changes state, refreshes the timer, notifies unless the state is terminal |
| ConnObject.Conn.CloseInternal | src/kcpmux_conn.c:175-217 | finalises the connection itself once; maps, counters and the streams follow in Runtime.Runtime.ConnStep |
| ConnObject.Conn.Connect | src/kcpmux_conn.c:264-269 | a new connection starts connecting with its first CONNECT sent |
| ConnObject.Conn.Close | src/kcpmux_conn.c:275-311 | starts closing once, finalises at once without retries |
| ConnObject.Conn.SetConfig | src/kcpmux_conn.c:313-321 | replaces an acceptable configuration and refreshes the timer |
| ConnObject.Conn.NoteReceive | src/kcpmux_conn.c:521-533 | receive times never go back, and the timer follows |
| ConnObject.Conn.Update | src/kcpmux_conn.c:424-505 | the timer callback in every state |
| ConnObject.Conn.UpdateConnected | src/kcpmux_conn.c:452-481 | receive timeout before idle timeout before keepalive |
| ConnObject.Conn.UpdateConnecting | src/kcpmux_conn.c:437-449 | retransmits the CONNECT or gives up with TIMEOUT |
| ConnObject.Conn.UpdateClosing | src/kcpmux_conn.c:483-498 | retransmits the CLOSE and ends with the last one |
| ConnObject.Conn.HandleConnectAck | src/kcpmux_protocol.c:159-191 | an answer decides exactly a connection still connecting |
| ConnObject.Conn.Reanswer | src/kcpmux_protocol.c:92-106 | a CONNECT that arrives again is answered again |
| ConnObject.Conn.HandleClose | src/kcpmux_protocol.c:200-212 | the peer's close is acknowledged and ends the connection |
| ConnObject.Conn.HandleCloseAck | src/kcpmux_protocol.c:214-223 | the acknowledgement ends exactly a connection that is closing |
| ConnObject.Conn.Fire | src/kcpmux_engine.c:295-305 | the first due node is taken, its callback run, and it is idle unless rescheduled; no other node changes |
| ConnObject.Conn.Operate | src/kcpmux_conn.c:275-533 | any operation but a firing does to the object what Conn.Apply does to its value |
| Engine.Engine.constructor | src/kcpmux_engine.c:220-223 | an engine starts empty, its first identifier any positive number of the lower half |
| Engine.Engine.OperationLeave | src/kcpmux_engine.c:366-381 | only the outermost leave frees anything, and it frees all that is queued, in order |
| Engine.Engine.DropStream | src/kcpmux_stream.c:179-219 | a finalised stream leaves map and batch list and is queued with its last record; counters and order are kept |
| Engine.Engine.StreamStep | src/kcpmux_stream.c:592-1035 | anything that happens to a stream keeps the engine's invariant and changes that stream alone |
| Engine.Engine.OpenStream | src/kcpmux_conn.c:545-559 | a taken key is skipped while the counters go up; the invariant holds afterwards if and only if the key was free |
| Engine.Engine.AllocStreamId | src/kcpmux_conn.c:586-602 | run over exactly the connection's streams: the identifier is owned and not in use, and zero if and only if all owned ones are in use |
| Engine.Engine.CreateStream | src/kcpmux_stream.c:225-270 | always keeps the invariant, so insertion never skips; exactly when there is no stream, and else exactly which |
| Engine.NotAllTaken | src/kcpmux_conn.c:586-602 | with fewer than 2^31 - 1 streams on the connection an identifier is always left |
| Engine.Engine.RejectStream | src/kcpmux_protocol.c:285-298 | a turned-down stream is exactly what the rejection makes of it, on record while live and as a last record once finalised |
| Engine.Engine.FailStream | src/kcpmux_protocol.c:303-305 | a stream whose first payload KCP refused is gone, its last record in the ERROR state |
| Engine.Engine.AddConn | src/kcpmux_engine.c:533-549 | a connection is registered under an identifier never used before |
| Engine.Engine.Connect | src/kcpmux_conn.c:90-273 | exhaustion and unacceptable configurations yield nothing, otherwise a connecting connection under the next identifier |
| Engine.Engine.Admit | src/kcpmux_protocol.c:108-146 | a passive connection with the given configuration, answered OK and connected to the peer that asked, exactly if the application accepts; otherwise answered with the verdict, finalised and queued for release; exhaustion changes nothing |
| Engine.Engine.FinaliseConn | src/kcpmux_conn.c:175-217 | the connection leaves the map, each of its streams is finalised, told the connection's reason and queued, no other is touched, then it is queued itself |
| Engine.Engine.ConnStep | src/kcpmux_conn.c:275-539 | anything that happens to a connection keeps the engine's invariant; finalisation cascades |
| Engine.Engine.Update | src/kcpmux_engine.c:281-308 | each connection and stream due at the start fires exactly once, for itself, unless its connection went first; no other changes; the order is in Runtime.Runtime.Update |
| Engine.Engine.FinishBatch | src/kcpmux_engine.c:331-348 | the batch list is empty and every stream on it had its batch finished, once |
| Engine.FlushSchedules | src/kcpmux_stream.c:607-618 | finishing a batch schedules the work of an open stream of a connected connection at once |
| Engine.Engine.Destroy | src/kcpmux_engine.c:236-267 | all connections and streams ever created have been finalised and released, each once |
| Engine.Engine.Run | src/kcpmux_engine.c:281-393 | along every run: each live stream of a connected connection and each connection with a deadline has its timer set; what is queued or freed was finalised once, KCP released before the one close notice, streams before their connection, nothing twice; closed totals equal what is queued or freed, and outside operations all of it is freed |
| Runtime.NodesCount | src/kcpmux_engine.c:395-437 | there are as many nodes as live connections and streams |
| Runtime.Runtime.StreamStep | src/kcpmux_stream.c:179-219 | anything that happens to a stream object happens to its record; once finalised, object, node and record are gone and all others are untouched |
| Runtime.Runtime.ConnStep | src/kcpmux_conn.c:175-217 | the same for a connection object; its end takes the objects, nodes and records of its streams along, with its reason |
| Runtime.Runtime.CreateStream | src/kcpmux_stream.c:225-270 | a stream object with a node of its own under a key never taken; unless the allocator refuses, exactly when there is none |
| Runtime.Runtime.Connect | src/kcpmux_conn.c:223-273 | a connection object with a node of its own under the next identifier, which is spent in any case but exhaustion |
| Runtime.Runtime.Admit | src/kcpmux_protocol.c:108-146 | the same for a peer's connection, kept exactly if the application agrees |
| Runtime.Runtime.FinishBatch | src/kcpmux_engine.c:331-348 | every listed stream object has its batch finished once, and the list is empty |
| Runtime.Runtime.Update | src/kcpmux_engine.c:281-308 | runs the callbacks of what was due in firing order, each once, leaving out exactly streams whose connection ended first; every object is what its own callback made of it; the host timer is asked for the root |
| Runtime.Runtime.Run | src/kcpmux_engine.c:281-501 | along every run: registered nodes are exactly those of the live owners and fit the heap; each stream of a connected connection and each connection with a deadline has its node in the heap and the host timer set no later; every object keeps the invariants of its runs |
| Input.Endpoint.HandleConnect | src/kcpmux_protocol.c:74-147 | a known CONNECT is answered again, a version error answered to a known peer only, a new one admitted or not, exhaustion changes nothing: each with its exact effect; refused exactly by a known connection that is not connected |
| Input.Endpoint.HandleConnMessage | src/kcpmux_protocol.c:158-223 | CONNECT_ACK, KEEPALIVE, CLOSE and CLOSE_ACK: the status by state and format, and exactly the operation asked for |
| Input.Endpoint.HandleStreamClose | src/kcpmux_protocol.c:225-257 | STREAM_CLOSE and its acknowledgement: the status, and exactly the operation on exactly that stream |
| Input.Endpoint.HandlePayload | src/kcpmux_protocol.c:312-318 | a payload goes to its stream and moves no mark; the connection notes it only if KCP took it |
| Input.Endpoint.HandleNewStream | src/kcpmux_protocol.c:266-310 | a payload creates a stream if and only if its identifier is new and someone listens, and else is refused with the status for the case; the mark of this connection alone moves, even if the stream is refused or KCP fails, which ends it in the ERROR state |
| Input.Endpoint.ProtocolInput | src/kcpmux_protocol.c:58-324 | any datagram touches at most one connection, belonging to its sender; it is refused if and only if it is malformed, misdirected or unfit for the state it meets, with the status for the case, and then changes nothing; any other has exactly the effect its message asks for |
| Input.Endpoint.Input | src/kcpmux_engine.c:310-329 | the same, refusal and effect included, between enter and leave, keeping the engine's invariant for every byte string |
| Input.MarksGoOn | src/kcpmux_protocol.c:280-282 | whatever touches one connection in this way keeps every connection's mark equal to the newest identifier it created a stream for |
| Input.Endpoint.Serve | src/kcpmux_protocol.c:266-310 | over any sequence of datagrams and commands, two streams a peer created on a live connection have one identifier only if the mark travelled more than 2^31 in between |
| Outcomes.AnswerOutcome | src/kcpmux_protocol.c:159-191 | a CONNECT_ACK of version 4 and result 0 connects; another version or result 2 ends the connection with reason 2, any other result with 3 |
| Outcomes.KeepaliveOutcome | src/kcpmux_protocol.c:193-198 | a KEEPALIVE is noted, and nothing else |
| Outcomes.CloseOutcome | src/kcpmux_protocol.c:200-212 | a CLOSE is acknowledged and ends connection and streams, everyone told its reason |
| Outcomes.CloseAckOutcome | src/kcpmux_protocol.c:214-223 | a CLOSE_ACK ends a closing connection and its streams with the reason it was closed for |
| Outcomes.StreamCloseOutcome | src/kcpmux_protocol.c:225-257 | STREAM_CLOSE and its acknowledgement take the stream where its chart says, and the connection notes that it heard |
| Outcomes.PayloadOutcome | src/kcpmux_protocol.c:312-318 | a payload reaches KCP and its stream; the connection notes it as a payload exactly if KCP took it |
| Acceptance.SameAnswerToKnown | src/kcpmux_protocol.c:91-106 | for a known peer, the endpoint's CONNECT handler and that of the handshake protocol lead to the same tables |
| Acceptance.SameAnswerToNew | src/kcpmux_protocol.c:92-146 | so they do for a new one, whatever the version, the verdict and the identifiers left |
| Handshake.AskedExactlyWhenNew | src/kcpmux_protocol.c:91-126 | the application is asked, and a connection made, if and only if the version fits, no connection is known and an identifier is left |
| Handshake.KnownIsAnsweredAgain | src/kcpmux_protocol.c:91-106 | a known CONNECT is answered again when connected, with a version error when versions differ, and otherwise ignored |
| Handshake.RefusalIsAnswered | src/kcpmux_protocol.c:139-145 | a refused CONNECT is answered with the verdict and nothing else, and leaves no connection behind |
| Handshake.AnswersDecide | src/kcpmux_protocol.c:159-191 | an answer changes only an initiator still connecting: connected to the answerer, or gone |
| Handshake.SettleKeeps | src/kcpmux_engine.c:551-564 | the two tables keep describing the same connections |
| Handshake.ConnectKeeps | src/kcpmux_protocol.c:74-147 | a CONNECT keeps the invariant |
| Handshake.AckKeeps | src/kcpmux_protocol.c:159-191 | a CONNECT_ACK keeps the invariant |
| Handshake.ActKeeps | src/kcpmux_conn.c:275-539 | nothing else that happens to a connection changes who it is |
| Handshake.NextKeeps | src/kcpmux_protocol.c:74-191 | every step of any number of engines and their network keeps the invariant |
| Handshake.HandshakeAgrees | src/kcpmux_protocol.c:159-191 | in every run a connected initiator's peer identifier names a connection its peer made for exactly it and accepted |
| Handshake.PeersAreNotShared | src/kcpmux_protocol.c:159-191 | no two connected initiators share a peer's identifier |
| Handshake.AcceptedWereInitiated | src/kcpmux_protocol.c:109-120 | every passive connection was made for one really initiated towards its engine |
| Handshake.RetransmissionsMakeNothing | src/kcpmux_protocol.c:91-106 | while a passive connection lives, no CONNECT makes another for the same initiator or has the application asked again |
| Handshake.HandshakeCompletes | src/kcpmux_protocol.c:74-191 | when CONNECT and answer arrive and the application agrees, both ends are connected to each other |

## Left out

- KCP itself: a reliable ordered message transport stands in for it (`Kcp`); along runs a failing input is taken to leave readability alone (see `StreamRuns.MarkSurvivesPayload`).
- The demo programs, getters, statistics other than up_sent_bytes, block and first-byte times, configuration defaults and logging.
- Which allocation fails: for a connection or stream memory is had or not, and a failure may or may not have spent a connection identifier. Null arguments.
- Callbacks that call back into the library, which its documentation forbids, except timer callbacks, for which `Scheduler` allows any scheduling.
- Single missing callbacks: a stream or connection has all of them or none (`hooked`).
- A clock that moves within one operation: there is one reading per operation.
- The counters insertion_sequence, keepalive_seq and the probe counter of the identifier allocator do not wrap.
- Stream.DeadlineAfter: intervals are taken as given, not reduced to 32 bits.
- Protocol extensions beyond their encoding, and their limit when an application answers with one that is too long.
- Handshake.HandshakeCompletes: for two different engines.
- Engine.Engine.Update: the order among due nodes is left open here; Runtime.Runtime.Update states it.
- Input: datagrams are served on the engine's records; what they ask of a connection or stream is an operation that `Runtime` carries out on the objects.
- Input: entries of the address and handshake tables outlive their connections and are ignored from then on, where the library removes them.
- GracefulClose: one stream between two ends; reuse of its identifier after finalisation belongs to `StreamIds`.
- ConnMarks.MarksAreLatest: a datagram that is refused is not heard, as in the library.
- Runtime: the maps are Dafny maps; the chains of the hash table are in `HashTable`. Intrusive lists are sequences.
- Hash functions: the tables are right for any.
- Sockets: a datagram that the socket refuses counts as lost.
