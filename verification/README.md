# eRPC, modelled and proved in Dafny

This project models the parts of eRPC (`peer/erpc`) whose correctness is hardest to see: the
packet protocol between a client and a server session over an unreliable network, packet
pacing through a timing wheel, the hugepage allocator, the session handshake, and two
NIC-queue state machines. It proves what these promise for all runs and all inputs.

Most components come in two layers. A specification gives each handler as a function on values,
with the handler's assertions collected in predicates (`...Ok`, `Safe`). A class in the
program's own form, with fields, arrays and loops updated in place, is proved to compute
exactly that function. Theorems over runs are proved about the functions.

## The datapath protocol

`Wire.dfy` has the packet arithmetic, packets and message buffers. `ClientSpec.dfy` and
`ServerSpec.dfy` give the handlers; `ClientSession.dfy`, `ServerSession.dfy` and
`ActiveList.dfy` are the classes; the client keeps its active slots on the linked list.
`Protocol.dfy` joins both ends of a session by a network that is the set of all packets ever
sent: a packet may arrive late, twice, out of order or never. Handlers may reply at any later
event, which covers foreground and background handlers; a request packet also brings the outcome
of the buffer allocation that it may lead to. The history records issued requests, handler runs
with what they were given, replies, and continuations with what they were given. Window, credits,
bytes per packet, the message size limit and the background request types are parameters; packet
numbers wrap at the 14 bits of their header field. `WheelBits.dfy`, `ListFacts.dfy`,
`ClientProof.dfy`, `ServerProof.dfy` and `ProtocolProof.dfy` prove that an event fails an assertion
exactly when it makes the server allocate an empty buffer or one that there is no memory for, and
that every other event keeps the invariant of the two ends. `Runs.dfy` draws the safety theorems
and says when a run fails; `Endpoints.dfy` runs the two classes against each other, so that what
holds of the state machine holds of the objects; `AtomicRpc.dfy` proves that every run is a run of
atomic remote procedure calls, and `Progress.dfy` that, whatever the handlers reply, every request
completes under some finite loss-free schedule from every reachable state, even when all packets
in flight are lost first. `Requests.dfy` proves that every request that the user enqueues is, in
order, issued or in the backlog, and hence completes; `Sending.dfy` what each event makes the client
send and when, and which packets are ignored.

## Pacing

`WheelSpec.dfy` is the timing wheel as a row of slots with deadlines, `WheelRuns.dfy` what holds
over its runs, and `TimingWheel.dfy` (with `WheelBuckets.dfy` and `MemPool.dfy`) the ring of
bucket chains that computes it. `Timely.dfy` is the rate controller, and `TimelyLaws.dfy` which way
and how far each sample moves the rate. `Pacing.dfy` puts sessions,
credits, rates, the bypass of the wheel by uncongested sessions and the wheel together and proves
when packets are never wanted beyond the wheel's horizon; `HorizonLimits.dfy` proves that otherwise
some run fails, and says when the wheel that the program builds spans the horizon; `PacingRates.dfy`
proves that packets are spaced by their session's rate. `Acts.dfy` gives what each event of the datapath does to credits and the wheel, in the
program's order, and proves it balanced; `PacedRuns.dfy` runs any number of datapath sessions with
the one wheel, proves that their events are possible pacing events with the same books, and states
the horizon theorem over runs of the datapath. `LoneRpc.dfy` follows a request of one packet through
a quiet session, and `PacedLimits.dfy` makes failing runs of the datapath from such requests, so
that the conditions under which no run fails are exact.

## Memory

`SizeClasses.dfy` has the size classes and the layout of message buffers;
`HugeAllocSpec.dfy`, `HugeAllocProof.dfy` and `HugeAlloc.dfy` the allocator.

## Sessions

`Handshake.dfy` models connecting and disconnecting between any number of Rpcs, which may each be
client and server; `HandshakeProof.dfy` and `HandshakeRuns.dfy` prove it safe, and
`HandshakeLive.dfy` which event leads where, that a session that is connecting gets connected, and
when one that is disconnecting can be stuck; `Orphans.dfy` proves when a server session can lose its
client; `SmRpc.dfy` is the class. `SessionLife.dfy` runs the datapath of every session over its life,
so that what ending a session asserts about its slots is proved of all runs.

## NIC queues

`RecvRing.dfy` is the raw transport's overrunning completion ring, `SendSignal.dfy` the
InfiniBand selective signalling. The NIC is an environment with a stated contract.

## Assumptions, and where the code differs from its comments

- The comment at `peer/erpc/rpc_impl/rpc_rx.cc:33` allows empty messages. An empty request to a
  background handler nevertheless fails the assertion at `peer/erpc/rpc.h:140`, and a request
  buffer that finds no memory fails the one at `peer/erpc/rpc_impl/rpc_req.cc:220` or, for a
  background handler's small request, is copied to a null address at line 148. No other event
  fails (`ProtocolProof.StepKeeps`, `Runs.FailsExactly`, `Runs.NoRunFails`), and such a request is
  never served (`Progress.EmptyNeverServed`).
- Every insertion within the horizon finds a slot exactly if the horizon is at least one slot width
  short of the wheel's span (`WheelRuns.SpanExactly`). The truncations at
  `peer/erpc/cc/timing_wheel.h:81-82` give this on clocks with a whole number of cycles in half a
  microsecond (`HorizonLimits.WholeClockSpans`) but not on all: at 2.1999 GHz a session whose long
  round trips brought it down to the minimum rate misses the wheel, with all optimisations on
  (`PacedLimits.FractionalClockFails`).
- Entries of the wheel are released in the order of their slots' deadlines, not of their desired
  times. Entries with equal desired times can overtake each other, exactly under the condition in
  `WheelRuns.EqualTimes`; order is otherwise that of insertion.
- The rate never falls below its minimum exactly if the link is at least that fast
  (`Timely.RateFloor`). A slower link does no harm while uncongested sessions bypass the wheel,
  which is the program's setting: with a wheel that spans the horizon no run fails exactly if there
  is the bypass, or the horizon covers a full packet per credit at the lesser of the minimum rate
  and the link's bandwidth (`PacedLimits.HorizonExactly`). Without assuming that the wheel spans the
  horizon, the exact condition is in `PacedLimits.KeptExactly`.
- A round-trip sample may have any length up to the age of the wheel: retransmissions make very short
  ones possible, as the comment at `peer/erpc/cc/timely.h:109` says, and losses very long ones.
- Every management response clears the pending request of its session
  (`peer/erpc/rpc_impl/rpc_sm_helpers.cc:22-26`), also a late duplicate of the response that connected
  it. If that comes after the user has destroyed the session, and the one disconnect request is lost,
  the session is never disconnected: exactly when its request is not pending any more
  (`HandshakeLive.DisconnectExactly`, `HandshakeLive.StuckPossible`).
- The loss scan asks whether a pending session can be gone
  (`peer/erpc/rpc_impl/rpc_pkt_loss.cc:66`). It cannot (`HandshakeLive.PendingIsLive`).
- A refused connect request that is delivered again can leave a server session without a client,
  after each refusal whose reason can pass and after no other (`Orphans.OrphanWasRefused`,
  `Orphans.OrphanPossible`).
- The comment at `peer/erpc/util/huge_alloc.h:49-50` says that a buffer records the requested
  size; the code records the class size, and so does the model.
- The message size limit fits the largest size class exactly under the condition in
  `SizeClasses.LimitFits`, which every transport's packet size meets
  (`SizeClasses.LimitFitsHere`).
- `msb_index(0)` has its documented value 0. TSC reads do not decrease. Session tokens are
  unique. Users respect the API: messages are within the size limit and response buffers are
  large enough.

## Model

| member | source | states |
|---|---|---|
| Wire.PktNumsFit | peer/erpc/rpc.h:85-90 | for messages within the size limit, every wire packet number of a request and its response fits the 14-bit header field |
| Wire.NumPktsBounds | peer/erpc/rpc.h:590-593 | the packets of a message cover it exactly: all but the last are full and the last is not empty unless the message is |
| Wire.CopyExtends | peer/erpc/rpc.h:831-837 | copying the next packet in order extends a correct prefix of the message by that packet without writing outside the buffer, and the last packet completes it |
| ClientSession.Session.constructor | peer/erpc/session.h:42-81 | a new session has all credits, and its slots are free in the order in which they will be popped |
| ClientSession.Session.EnqueueWheelReq | peer/erpc/rpc.h:764-779 | the packet's bit, the count and the wheel's contents change together, for this slot only |
| ClientSession.Session.KickReqSt | peer/erpc/rpc_impl/rpc_kick.cc:6-27 | the credit-spending loop sends or paces exactly the next packets that credits allow, one credit each, touching only its slot |
| ClientSession.Session.KickRfrSt | peer/erpc/rpc_impl/rpc_kick.cc:32-50 | the loop asks for exactly the next response packets that credits allow |
| ClientSession.Session.EnqueueRequestSt | peer/erpc/rpc_impl/rpc_req.cc:10-75 | the request gets the top free slot and the number one window on, is kicked or stalled, or joins the backlog |
| ClientSession.Session.ProcessRespOneSt | peer/erpc/rpc_impl/rpc_resp.cc:73-170 | dropped unless in order; otherwise counted, stored, the rest pulled before storing, and on the last packet the slot is released, reused for the backlog and the continuation invoked |
| ClientSession.Session.ProcessExplCrSt | peer/erpc/rpc_impl/rpc_cr.cc:27-51 | an in-order credit return bumps the credits and spends them on request packets that are still to be sent |
| ClientSession.Session.ProcessCreditStallQueueSt | peer/erpc/rpc_impl/rpc_queues.cc:6-20 | the in-place compaction serves stalled slots in order while credits last and keeps exactly the others, in order |
| ClientSession.Session.WheelTxSt | peer/erpc/rpc_impl/rpc_queues.cc:29-52 | the ready packet is sent and taken out of its slot's bitmap and count |
| ClientSession.Session.PktLossRetransmitSt | peer/erpc/rpc_impl/rpc_pkt_loss.cc:83-128 | nothing while packets are in the wheel or none is outstanding; otherwise credits are reclaimed, the slot rolled back and kicked |
| ClientSession.Session.PktLossScanSt | peer/erpc/rpc_impl/rpc_pkt_loss.cc:16-60 | the walk over the active list retransmits for exactly the expired slots that do not merely wait for credits |
| ActiveList.List.Add | peer/erpc/rpc.h:628-636 | the linked list of active slots grows by the slot at its end, its links staying consistent in both directions |
| ActiveList.List.Delete | peer/erpc/rpc.h:639-642 | the slot is unlinked from wherever it is, and the others keep their order |
| ActiveList.List.Walk | peer/erpc/rpc_impl/rpc_pkt_loss.cc:16-22 | following the links from the root visits the active slots in order and ends at the tail |
| ServerSession.Session.ProcessSmallReqSt | peer/erpc/rpc_impl/rpc_req.cc:78-152 | an old request is dropped, the current one answered again if its response is there, and the next one starts the handler on the packet's bytes, for a background handler in an allocated copy |
| ServerSession.Session.ProcessLargeReqOneSt | peer/erpc/rpc_impl/rpc_req.cc:155-255 | packets are accepted in order only, past ones answered again, a buffer allocated for the first, data stored in place, a credit returned for all but the last, and the handler started on the last |
| ServerSession.Session.ProcessRfrSt | peer/erpc/rpc_impl/rpc_rfr.cc:29-68 | a future or old RFR is dropped; otherwise the selected response packet is sent and an in-order RFR counted |
| ServerSession.Session.EnqueueResponseSt | peer/erpc/rpc_impl/rpc_resp.cc:11-70 | the request buffer is buried, its packet count saved, and the first response packet sent with the number of the last request packet |
| WheelBits.AddKeeps | peer/erpc/rpc.h:776-778 | the bitmap indexed modulo the credits never aliases: adding the next packet keeps it exact |
| WheelBits.TakeKeeps | peer/erpc/rpc_impl/rpc_queues.cc:48-50 | taking a packet out of the wheel keeps the bitmap and the count exact |
| WheelBits.AcceptKeeps | peer/erpc/rpc.h:563-582 | counting a packet that is not in the wheel moves the bitmap's window on |
| ServerProof.RfrKeeps | peer/erpc/rpc_impl/rpc_rfr.cc:33-67 | every RFR that is answered selects a packet other than the first of the live response of its request, and the assertion on newer requests holds |
| ServerProof.ReqKeeps | peer/erpc/rpc_impl/rpc_req.cc:82-254 | no assertion on a request packet's path fails if and only if the buffer it makes the server allocate, if any, is not empty and finds memory; then the invariant of the slot pair is kept |
| ClientProof.KickAnyKeeps | peer/erpc/rpc_impl/rpc_queues.cc:10-16 | an active slot with nothing outstanding can always be kicked, and the kick sends at least one packet, conserving credits |
| ClientProof.RespIsNext | peer/erpc/rpc_impl/rpc_resp.cc:79-129 | a response packet that passes the order check is the next packet of the reply to the slot's current request |
| ProtocolProof.CompleteKeeps | peer/erpc/rpc_impl/rpc_resp.cc:131-168 | at completion nothing is in the wheel, freeing the slot and giving it to the backlog fails no assertion, and the invariant is kept |
| ProtocolProof.StepKeeps | peer/erpc/rpc_impl/rpc_rx.cc:6-91 | from every state in the invariant, an enabled event fails no assertion if and only if it does not leave the server without a request buffer; then it keeps the invariant |
| Endpoints.Pair.Do | peer/erpc/rpc_impl/rpc_rx.cc:33-86 | whatever event happens that does not leave the server without a buffer, the in-place handlers of both endpoint objects are called within their contracts, no assertion fails, and the pair of objects makes exactly the protocol's step |
| Runs.NoRunFails | peer/erpc/rpc.h:139-156 | no assertion of either endpoint fails in any run with loss, duplication and reordering if and only if no empty request can be sent to a background handler and memory never runs out or is never needed |
| Runs.FailsExactly | peer/erpc/rpc_impl/rpc_req.cc:146-148 | a run fails an assertion if and only if it comes to an event at which the server allocates an empty buffer or finds no memory for one |
| Runs.FirstRequestFails | peer/erpc/rpc_impl/rpc_req.cc:219-220 | the first request of a new session fails the server if it needs a buffer that is empty or refused |
| Runs.AtMostOnce | peer/erpc/rpc_impl/rpc_req.cc:82-143 | each request's handler and continuation run at most once, and the continuation only after the handler |
| Runs.ByteExact | peer/erpc/rpc_impl/rpc_req.cc:225-254 | the handler is given exactly the client's message and the continuation exactly the handler's response, for all sizes and loss patterns |
| Runs.OneWindowAhead | peer/erpc/rpc_impl/rpc_req.cc:111-131 | the client is on the server's request number or exactly one window ahead, and then the server has answered and buried its request buffer |
| Runs.CreditsConserved | peer/erpc/rpc.h:824-828 | credits plus outstanding packets over all slots are constant, so returning a credit never overflows |
| Runs.WheelExact | peer/erpc/rpc_impl/rpc_pkt_loss.cc:111-127 | across rollbacks a slot's wheel packets are distinct numbers in [num_rx, num_tx), what the bitmap and count show, and gone once it pulls its response or completes |
| Runs.WheelHoldsCredits | peer/erpc/rpc_impl/rpc_kick.cc:15-26 | packets in the wheel and available credits together never exceed the session's credits |
| Runs.NoneStranded | peer/erpc/rpc_impl/rpc_pkt_loss.cc:18-22 | every active slot is in the stall queue with nothing sent or has packets outstanding, so the loss scan skips exactly the stall queue |
| Runs.StallIsFed | peer/erpc/rpc_impl/rpc_queues.cc:6-20 | when no credits are left, some slot that is not stalled has packets outstanding |
| Runs.DisconnectSafe | peer/erpc/rpc_impl/rpc_disconnect_handlers.cc:35-49 | once all client slots are free, every server request buffer is buried, no handler is pending and every response has been sent whole |
| Runs.NetworkHonest | peer/erpc/rpc_impl/rpc_rfr.cc:36-60 | every response packet ever sent carries its part of its request's only reply, and every RFR ever sent asks for a packet of it after the first |
| AtomicRpc.StepRefines | peer/erpc/rpc_impl/rpc_req.cc:133-151 | seen through the history, every event is a sequence of atomic steps: issue fresh, execute once on the message, reply once, complete once with the reply |
| AtomicRpc.RunRefines | peer/erpc/rpc_impl/rpc_resp.cc:131-168 | every run of the session is a run of atomic remote procedure calls |
| Progress.RetransmitAsks | peer/erpc/rpc_impl/rpc_pkt_loss.cc:122-127 | a retransmission sends the very packet that asks for what the client awaits, or puts it in the wheel |
| Progress.AskedServer | peer/erpc/rpc_impl/rpc_req.cc:182-215 | given a buffer where one is needed, the server answers the asking packet with what the client awaits, or its handler has yet to reply |
| Progress.Completes | peer/erpc/rpc_impl/rpc_pkt_loss.cc:83-128 | from every state in the invariant, for all handlers whose replies fit, and whether the session is congested or not at each event as any function of the events before it decides, a finite schedule without new requests completes all requests; each round awaits fewer packets |
| Progress.EveryRequestCompletes | peer/erpc/rpc_impl/rpc_pkt_loss.cc:12-128 | from every reachable state, after the loss of all packets in flight, and with the session congested or not as decided anew at each event, a finite schedule runs the handler and continuation of every issued and backlogged request exactly once, the continuation on the reply that the handler gives, whatever its size |
| Progress.EmptyNeverServed | peer/erpc/rpc_impl/rpc_req.cc:145-147 | an issued empty request to a background handler is neither handled nor completed in any continuation of the run |
| Requests.IssueRecords | peer/erpc/rpc_impl/rpc_req.cc:26-43 | enqueueing a request gives it a fresh number, if a slot is free, and otherwise appends it to the backlog and changes nothing else |
| Requests.RunRecords | peer/erpc/rpc_impl/rpc_resp.cc:154-162 | over every run, the backlog followed by the requests enqueued is the requests issued, in order of issue, followed by the backlog |
| Requests.AllRecorded | peer/erpc/rpc_impl/rpc_req.cc:10-75 | from the start of a session, the requests that the user enqueued are in order exactly those issued and then the backlog: none is lost, reordered, doubled or made up |
| Requests.EveryEnqueuedCompletes | peer/erpc/rpc_impl/rpc_pkt_loss.cc:12-128 | from every state that a run reaches, after the loss of all packets in flight, a finite schedule completes every request that the run's user enqueued, each exactly once under a number of its own, with its handler's reply |
| Sending.EventSends | peer/erpc/rpc.h:608-619 | in every client event, a slot that is touched has nothing left to send or no credits are left; an uncongested session puts nothing in the wheel for a slot with nothing there, and a congested one, or a slot with packets in the wheel, sends no request packet past it |
| Sending.StallsInTurn | peer/erpc/rpc_impl/rpc_queues.cc:6-20 | serving the stall queue serves a first part of it, until it is empty or no credits are left, and the others wait on in order |
| Sending.ListsInTurn | peer/erpc/rpc.h:628-642 | stalled slots and active slots are appended at the end and keep their order |
| Sending.ScanAsksAll | peer/erpc/rpc_impl/rpc_pkt_loss.cc:16-60 | the loss scan makes every slot ask that has lost packets, none in the wheel, and whose timer has expired, and leaves every other slot as it is |
| Sending.WheelSends | peer/erpc/rpc_impl/rpc_queues.cc:29-52 | the packet that leaves the wheel is sent, and only its slot's wheel bookkeeping changes |
| Sending.OldIgnored | peer/erpc/rpc_impl/rpc_req.cc:93-97 | a packet of an older request changes nothing at the server and is not answered |
| Sending.UnawaitedIgnored | peer/erpc/rpc_impl/rpc_resp.cc:79-88 | a packet other than the next one that its slot awaits changes nothing at the client |
| Sending.OneAnswer | peer/erpc/rpc_impl/rpc_rfr.cc:28-70 | the server sends at most one packet for each packet or reply |
| WheelSpec.SlotInRange | peer/erpc/cc/timing_wheel.h:145-155 | if the horizon is at least one slot width short of the wheel's span, the slot computed for an entry within it is in the wheel |
| WheelRuns.SpanExactly | peer/erpc/cc/timing_wheel.h:139-151 | every insertion within the horizon finds a slot in every run if and only if the horizon is at least one slot width short of the wheel's span |
| WheelSpec.LandsInTime | peer/erpc/cc/timing_wheel.h:145-155 | an entry lands in a slot whose deadline is its desired time or at most a slot width later |
| WheelSpec.ReapReleases | peer/erpc/cc/timing_wheel.h:115-123 | reaping terminates and releases exactly the entries with deadlines up to the given time, in deadline order; the others keep theirs |
| WheelRuns.NeverEarlyNeverLate | peer/erpc/cc/timing_wheel.h:112-159 | in every run no entry is ready before its desired time or pending a slot width after it |
| WheelRuns.NothingLost | peer/erpc/cc/timing_wheel.h:112-199 | in every run each inserted entry is in the wheel or the ready queue exactly once |
| WheelRuns.Fifo | peer/erpc/cc/timing_wheel.h:137-160 | entries inserted with strictly increasing desired times are released in that order, across wrap-around and reaps inside insertions |
| WheelRuns.ReadyInOrder | peer/erpc/cc/timing_wheel.h:137-160 | an entry in the ready queue is preceded there by every earlier entry that is wanted strictly earlier |
| WheelRuns.ReleaseOrder | peer/erpc/cc/timing_wheel.h:112-160 | of any two entries the later inserted is released first if and only if its slot's deadline, a function of its two times alone, is earlier |
| WheelRuns.ChosenSlot | peer/erpc/cc/timing_wheel.h:145-155 | the slot chosen for an entry has as its deadline the first slot boundary after the desired time, or the desired time itself if that ends the current slot |
| WheelRuns.EqualTimes | peer/erpc/cc/timing_wheel.h:146-150 | of two entries for the same time the second is released first if and only if that time is a slot boundary whose slot is current at the second insertion and not yet at the first |
| WheelRuns.EqualTimesOvertake | peer/erpc/cc/timing_wheel.h:146-150 | a concrete run in which the second of two entries for the same time is released first |
| MemPool.Pool.Alloc | peer/erpc/util/mempool.h:30-35 | a free object, carving twice as many new ones as last time when the pool is empty |
| WheelBuckets.GrowKeeps | peer/erpc/cc/timing_wheel.h:163-177 | filling the last bucket of a chain and linking a new one appends the entry to the chain's contents |
| WheelBuckets.PartitionReturn | peer/erpc/cc/timing_wheel.h:181-199 | every bucket stays in exactly one chain or the pool when a chain's buckets are returned |
| TimingWheel.Wheel.constructor | peer/erpc/cc/timing_wheel.h:79-101 | the new wheel is empty, with deadlines one slot width apart from the base time on |
| TimingWheel.Wheel.InsertIntoWslot | peer/erpc/cc/timing_wheel.h:163-177 | the entry is appended to its slot's contents, all other slots, deadlines and the bucket partition being kept |
| TimingWheel.Wheel.ReapWslot | peer/erpc/cc/timing_wheel.h:181-199 | the slot's entries go to the ready queue in order, its buckets to the pool, and the slot is empty |
| TimingWheel.Wheel.ReapSt | peer/erpc/cc/timing_wheel.h:115-123 | the ring of chains computes exactly the reaping of the row of slots |
| TimingWheel.Wheel.InsertSt | peer/erpc/cc/timing_wheel.h:137-160 | the ring computes exactly the insertion, with both branches of the slot index and the wrap-around |
| Timely.Controller.UpdateRate | peer/erpc/cc/timely.h:96-181 | the update computes the specified rate in every branch, and ignores samples that it must |
| Timely.RateFloor | peer/erpc/cc/timely.h:160-162 | over all histories of samples the rate stays at or above the minimum if and only if the link bandwidth is |
| Timely.RateDirection | peer/erpc/cc/timely.h:120-162 | a short round trip never lowers the rate, a long one never raises it nor takes away more than the decrease factor, and none more than half |
| TimelyLaws.StateAfter | peer/erpc/cc/timely.h:113-164 | a sample that counts leaves its round-trip time and time, the moving average of the changes, and a streak one longer exactly if the round trip fell |
| TimelyLaws.OthersIgnored | peer/erpc/cc/timely.h:96-110 | a sample shorter than the least round-trip time, and with the bypass a short one at the link's rate, changes nothing |
| TimelyLaws.ShortAdds | peer/erpc/cc/timely.h:126-128 | a short round trip adds the full step times the time passed, up to the link's bandwidth, and so raises every lower rate |
| TimelyLaws.LongCuts | peer/erpc/cc/timely.h:153-157 | a long round trip takes away the part by which it exceeds the threshold, scaled by the decrease factor and the time passed, down to the minimum |
| TimelyLaws.RisingCuts | peer/erpc/cc/timely.h:145-153 | between the thresholds a positive averaged gradient takes away that part of the rate, scaled by the decrease factor and the time passed, at most half, and so lowers every rate above the minimum |
| TimelyLaws.FallingAdds | peer/erpc/cc/timely.h:145-150 | any other gradient adds a full step, or five from the fifth falling round trip on, and so raises every rate below the link's |
| TimelyLaws.PatchedMoves | peer/erpc/cc/timely.h:133-145 | with the patch the rate falls exactly if the weighted decrease exceeds the weighted increase, whatever the time passed, which scales the change |
| TimelyLaws.FifthIsFast | peer/erpc/cc/timely.h:115-150 | after a round trip that did not fall, the fifth falling one in a row is the first with five steps |
| TimelyLaws.CalmRecovers | peer/erpc/cc/timely.h:122-162 | short round trips bring every rate up to the link's bandwidth, one full step each |
| Pacing.HorizonCovers | peer/erpc/cc/timing_wheel.h:29-30 | on every link the horizon covers one full packet at the minimum rate for each credit, in truncated cycles |
| Pacing.PaceKeeps | peer/erpc/session.h:117-127 | pacing a packet that may not bypass the wheel keeps, at any later time, its session ahead by at most one full packet at the least paced rate for each of its packets not yet due |
| Pacing.HorizonHolds | peer/erpc/cc/timing_wheel.h:139-151 | in every run, whatever the sizes, samples and schedule, every packet is wanted within the horizon and finds a slot, if the lead of a session that spends all credits at the least paced rate fits, or no session is ever paced |
| Pacing.HorizonExactly | peer/erpc/rpc.h:608-619 | with a wheel that spans the horizon, no run fails an assertion of the wheel if and only if uncongested sessions bypass the wheel or the horizon covers a full packet per credit at the lesser of the minimum rate and the link's bandwidth |
| Pacing.SlowLinkFails | peer/erpc/cc/timing_wheel.h:140 | an instance without the bypass: on a link much slower than the minimum rate already a first packet is wanted beyond the horizon |
| PacingRates.PaceSpacing | peer/erpc/session.h:117-127 | a paced packet is wanted at its reference time or, if later, exactly as many whole cycles after the session's last packet as its size takes at the session's rate, and goes into the wheel with that time |
| PacingRates.NeverFaster | peer/erpc/session.h:117-127 | over every run, a session whose rate is at most R when it paces is never sent faster than R, up to a cycle for each packet |
| PacingRates.NeverLater | peer/erpc/session.h:117-127 | over every run, a session whose rate is at least R when it paces has its last packet wanted at most as long after its earlier ones, or now, as all the bytes take at R |
| PacingRates.LinkRespected | peer/erpc/cc/timely.h:160-162 | in every run, whatever the samples, no session paces more than the link's bandwidth, or the minimum rate on a slower link |
| HorizonLimits.CutRate | peer/erpc/cc/timely.h:96-163 | from every state with nothing in the wheel, a sequence of single packets with long round trips brings the session's rate to exactly the minimum, unless the wheel fails on the way |
| HorizonLimits.Land | peer/erpc/session.h:117-127 | two packets at the least paced rate make the session's last desired time the very start of a slot, with an empty wheel, unless the wheel fails on the way |
| HorizonLimits.KeptExactly | peer/erpc/cc/timing_wheel.h:139-151 | for every wheel with slots shorter than a full packet, spanning the horizon or not, no run fails if and only if nothing is ever paced, or a session that spends all credits on full packets at the least paced rate stays within the horizon and less than the wheel's length ahead |
| HorizonLimits.WholeClockSpans | peer/erpc/cc/timing_wheel.h:28-37 | with the program's slot width and number of slots the wheel spans the horizon on every clock with a whole number of cycles in a slot width |
| HorizonLimits.FractionalClockIsShort | peer/erpc/cc/timing_wheel.h:81-82 | at 2.1999 GHz the truncated slot width makes the program's wheel shorter than the lead of a session that spends all credits at the minimum rate |
| Acts.EventBalanced | peer/erpc/rpc_impl/rpc_kick.cc:12-26 | in the program's order, every event of a session only spends credits that are there, returns them only for packets outside the wheel, puts packets of an uncongested session in the wheel only behind others, and ends with the session's credits and wheel contents |
| Acts.SizeIsData | peer/erpc/rpc.h:764-768 | the size with which a request packet is paced is that of its header and the data it carries |
| PacedRuns.NextTied | peer/erpc/rpc.h:608-619 | every event of a datapath session, with the sample of its packet first and congested exactly as the rate then tells, is a sequence of possible pacing events of that session, after which credits in use and wheel entries are again those of the datapath |
| PacedRuns.HorizonHolds | peer/erpc/cc/timing_wheel.h:139-151 | in every run of any number of datapath sessions, whatever their requests, losses, retransmissions, rates and clock readings, every packet is wanted within the horizon and finds a slot, under the condition of `Pacing.HorizonHolds` |
| LoneRpc.ServeOne | peer/erpc/rpc_impl/rpc_req.cc:77-160 | the packet of a one-packet request on an otherwise quiet session is received and answered by server events alone |
| LoneRpc.TakeOne | peer/erpc/rpc_impl/rpc_resp.cc:73-170 | its empty reply is in order, returns its credit as the only act, and leaves the session quiet |
| PacedLimits.TurnLeads | peer/erpc/rpc.h:608-619 | issuing, pacing or bypassing, releasing, serving and completing a one-packet request is exactly one round of the pacing machine, unless the wheel fails when the packet is paced |
| PacedLimits.FullRequestFails | peer/erpc/rpc_impl/rpc_kick.cc:12-26 | a quiet congested session at the least paced rate whose last packet was wanted just as the slot began fails the wheel with one request that spends all credits, if that gets too far |
| PacedLimits.HorizonExactly | peer/erpc/rpc.h:764-779 | with a wheel that spans the horizon and messages large enough to spend all credits, no run of the datapath sessions fails an assertion of the wheel if and only if uncongested sessions bypass the wheel or the horizon covers a full packet per credit at the least rate |
| PacedLimits.KeptExactly | peer/erpc/cc/timing_wheel.h:139-151 | for every wheel with slots shorter than a full packet, spanning the horizon or not, and with congestion control, no run of the datapath sessions fails an assertion of the wheel if and only if nothing is ever paced, or a session that spends all credits on full packets at the least paced rate stays within the horizon and less than the wheel's length ahead |
| PacedLimits.FractionalClockFails | peer/erpc/cc/timing_wheel.h:81-82 | a run of the datapath at 2.1999 GHz, with the bypass, the program's wheel and a link faster than the minimum rate, fails an assertion of the wheel |
| SizeClasses.ClassIsLeast | peer/erpc/util/huge_alloc.h:153-162 | the bit-length class is the least class that the size fits |
| SizeClasses.GetClassSlow | peer/erpc/util/huge_alloc.h:165-176 | the reference loop returns the bit-length class, and all smaller classes are too small |
| SizeClasses.MsgBufferFits | peer/erpc/msg_buffer.h:41-46 | all packet headers and the data of a message buffer are disjoint and inside its class, also after rounding the data size up to 8 |
| SizeClasses.LimitFits | peer/erpc/rpc.h:86-90 | every message up to the limit fits the largest class if and only if the header bytes taken off make up for a last partial packet |
| HugeAllocProof.CascadeKeeps | peer/erpc/util/huge_alloc.cc:184-188 | the cascade of splits only meets empty lower classes, keeps the tiling and leaves a buffer of the wanted class |
| HugeAllocProof.AllocKeeps | peer/erpc/util/huge_alloc.cc:156-199 | an allocation returns a buffer of the least class that fits, or fails exactly if no such class has one and the reservation fails, then changing nothing; free and handed-out buffers keep tiling the reserved memory, aligned and counted |
| HugeAllocProof.AllocReserves | peer/erpc/util/huge_alloc.cc:150-190 | memory is reserved only when no free buffer is large enough, and then one region of twice the last size; otherwise the reservations stay |
| HugeAllocProof.FewReservations | peer/erpc/util/huge_alloc.cc:160-180 | the k-th region is the first one's size times two to the k, so reservations are logarithmic in the memory |
| HugeAllocProof.FreeKeeps | peer/erpc/util/huge_alloc.h:121-129 | freeing a handed-out buffer keeps the tiling and the count |
| HugeAllocProof.NeverOverlap | peer/erpc/util/huge_alloc.cc:201-217 | a handed-out buffer never overlaps another one or a free one, and lies in reserved memory |
| HugeAlloc.Allocator.ReserveHugepages | peer/erpc/util/huge_alloc.cc:201-217 | a granted reservation is cut into buffers of the largest class, which are appended to its free list |
| HugeAlloc.Allocator.AllocSt | peer/erpc/util/huge_alloc.cc:156-199 | the search, reserve and split loops compute the specified allocation and hand out its buffer |
| HugeAlloc.Allocator.FreeBuf | peer/erpc/util/huge_alloc.h:121-129 | the buffer returns to the free list of its class and leaves the handed-out ones |
| HandshakeRuns.StepKeeps | peer/erpc/rpc_impl/rpc_sm_helpers.cc:10-39 | from every state in the invariant no handler's assertion fails and every event keeps the invariant |
| HandshakeRuns.NoRunFails | peer/erpc/rpc_impl/rpc_connect_handlers.cc:141-156 | no assertion of a session management handler fails in any run |
| HandshakeRuns.OneSessionPerToken | peer/erpc/rpc_impl/rpc_connect_handlers.cc:22-39 | a token creates at most one server session ever |
| HandshakeRuns.ConnectedIsPaired | peer/erpc/rpc_impl/rpc_connect_handlers.cc:204-210 | a connected client session and a live server session name each other |
| HandshakeRuns.PairingIsInjective | peer/erpc/rpc_impl/rpc_connect_handlers.cc:101-115 | no two client sessions are paired with the same server session |
| HandshakeRuns.RingConstant | peer/erpc/rpc.h:535-549 | free ring entries plus the credits of live sessions are constant, and every server session has its preallocated buffers |
| HandshakeLive.PendingIsLive | peer/erpc/rpc_impl/rpc_pkt_loss.cc:63-80 | in every reachable state a pending request is that of a live client session that is not connected, and a connecting session's is pending |
| HandshakeLive.ResponseSettles | peer/erpc/rpc_impl/rpc_connect_handlers.cc:130-220 | the first response leaves a connecting session connected exactly if it was accepted and routing resolves, disconnecting if it was accepted only, connecting if the remote Rpc is unknown and that is retried, and gone with its ring entries returned otherwise |
| HandshakeLive.FirstRequestAnswered | peer/erpc/rpc_impl/rpc_connect_handlers.cc:41-130 | a connect request seen for the first time is answered once: with the first check that fails, and nothing else happens, or with a new session that holds ring entries |
| HandshakeLive.RepeatedRequestAnswered | peer/erpc/rpc_impl/rpc_connect_handlers.cc:22-40 | a request that was accepted is answered again with the same session, and nothing else happens |
| HandshakeLive.LeavesConnected | peer/erpc/rpc_impl/rpc_sm_api.cc:110-135 | a connected client session changes only when it is destroyed with all slots free, which starts to disconnect it and sends its request |
| HandshakeLive.DestroyRefused | peer/erpc/rpc_impl/rpc_sm_api.cc:92-140 | destroying a session that is busy, gone, not connected or a server's changes nothing |
| HandshakeLive.CreateStarts | peer/erpc/rpc_impl/rpc_sm_api.cc:34-77 | creating a session with another Rpc takes ring entries and sends its request exactly if there are ring entries |
| HandshakeLive.ConnectCompletes | peer/erpc/rpc_impl/rpc_pkt_loss.cc:63-80 | from every reachable state, after the loss of all packets, a connecting session that the server accepted or now accepts is connected and paired when its repeated request and the answer get through |
| HandshakeLive.DisconnectConfirmed | peer/erpc/rpc_impl/rpc_disconnect_handlers.cc:12-58 | a disconnect request buries its server session once, returns its ring entries, and is confirmed each time |
| HandshakeLive.ConfirmationBuries | peer/erpc/rpc_impl/rpc_disconnect_handlers.cc:62-95 | the confirmation buries the client's session once and returns its ring entries |
| HandshakeLive.DisconnectExactly | peer/erpc/rpc_impl/rpc_sm_helpers.cc:20-26 | after the loss of all packets, a disconnecting session can still be buried if and only if its request is pending |
| HandshakeLive.StuckPossible | peer/erpc/rpc_impl/rpc_sm_helpers.cc:20-26 | in some run a session that its user destroys can never be buried, because a duplicate response cleared its pending request |
| SessionLife.StepKeeps | peer/erpc/rpc_impl/rpc_sm_api.cc:109-121 | with sessions' datapaths, in which requests are issued only on connected sessions and destroying looks at the slots, no event fails an assertion, and a session that is not connected has all slots free |
| SessionLife.NoRunFails | peer/erpc/rpc_impl/rpc_disconnect_handlers.cc:36-49 | in every run of any number of Rpcs, sessions and requests no assertion fails, in particular none about the slots of a session that is destroyed or disconnected |
| Orphans.OrphanWasRefused | peer/erpc/rpc_impl/rpc_connect_handlers.cc:172-183 | a live server session whose client session is buried was refused before, for lack of ring entries, memory, routing information or the Rpc itself; so a token never refused so has no such session |
| Orphans.OrphanPossible | peer/erpc/rpc_impl/rpc_connect_handlers.cc:51-99 | each of these four refusals alone is followed in some run by the same request's acceptance, which leaves a server session without its client |
| SmRpc.Rpc.CreateSessionSt | peer/erpc/rpc_impl/rpc_sm_api.cc:35-77 | refused for oneself or without ring entries; otherwise the next session number, ring entries taken and a connect request sent |
| SmRpc.Rpc.DestroySessionSt | peer/erpc/rpc_impl/rpc_sm_api.cc:81-148 | only a connected client session with free slots starts disconnecting |
| SmRpc.Rpc.HandleConnectReqSt | peer/erpc/rpc_impl/rpc_connect_handlers.cc:12-124 | a duplicate is answered from the live session or dropped; otherwise the four errors in order, the first by comparing the two fixed transports, or a new session |
| SmRpc.Rpc.AllocPrealloc | peer/erpc/rpc_impl/rpc_connect_handlers.cc:80-99 | all preallocated buffers or none: those made before a failure are freed |
| SmRpc.Rpc.HandleConnectRespSt | peer/erpc/rpc_impl/rpc_connect_handlers.cc:127-217 | ignored unless connecting; then retried, buried with its ring entries, disconnected or connected |
| SmRpc.Rpc.HandleDisconnectReqSt | peer/erpc/rpc_impl/rpc_disconnect_handlers.cc:12-57 | a buried session is confirmed again; a live one gives back its ring entries and is buried |
| SmRpc.Rpc.HandleDisconnectRespSt | peer/erpc/rpc_impl/rpc_disconnect_handlers.cc:62-94 | the disconnecting session gives back its ring entries and is buried, once |
| SmRpc.Rpc.HandleSmRxSt | peer/erpc/rpc_impl/rpc_sm_helpers.cc:10-39 | the queue is drained in order through the handlers |
| SmRpc.DrainDelivers | peer/erpc/rpc_impl/rpc_sm_helpers.cc:11-41 | draining a queue of packets that were sent to the Rpc fails no assertion, and is the run in which they are delivered in order |
| SmRpc.Rpc.NumActiveSessionsSt | peer/erpc/rpc_impl/rpc_sm_api.cc:151-161 | the number of sessions that have not been buried |
| RecvRing.DeltaIs | peer/erpc/transport_impl/raw/raw_transport.h:107-114 | the cyclic delta of two completions is the distance of their packets when that is less than a cycle |
| RecvRing.RawTransport.constructor | peer/erpc/transport_impl/raw/raw_transport.cc:327-344 | the ring starts as if the last eight packets of the cycle had just been received |
| RecvRing.RawTransport.RxBurst | peer/erpc/transport_impl/raw/raw_transport_datapath.cc:162-185 | the results sum up to the packets consumed; the result is 0 exactly if nothing is undelivered, stale entries included |
| RecvRing.RawTransport.PostRecvs | peer/erpc/transport_impl/raw/raw_transport_datapath.cc:193-205 | posting only consumed memory keeps the NIC from running more than the ring ahead |
| SendSignal.IbTransport.GetSignaledFlag | peer/erpc/transport_impl/infiniband/ib_transport.h:104-122 | every 64th send is signalled, and the poll before it waits for a send that has been posted |
| SendSignal.IbTransport.TxBurst | peer/erpc/transport_impl/infiniband/ib_transport_datapath.cc:10-72 | after a burst exactly one signalled send is unpolled, and the queue's capacity is never exceeded |
| SendSignal.IbTransport.TxFlush | peer/erpc/transport_impl/infiniband/ib_transport_datapath.cc:75-117 | after a flush every send has been retired and none is unpolled |

## Left out

- A datapath session is one client and one server endpoint; `PacedRuns.dfy` shares the timing wheel among many, but the stall queue and the loss scan, which the program's sessions share too, are modelled for each session by itself.
- ClientSession.Session.EnqueueWheelReq: the clock reading, the desired time and the shared wheel, which are `PacedRuns.NextTied`.
- ClientSession.Session.EnqueueRequestSt: the assertion that the session is connected, and the loop that fills in packet headers; headers are computed when a packet is sent.
- ClientSession.Session.ProcessCreditStallQueueSt: slots of other sessions in the shared stall queue.
- ClientSession.Session.PktLossScanSt: timers are a set of expired slots; the draining of the TX batch and the DMA queue before a rollback is modelled by sending a packet's contents at once.
- ClientSession.Session.KickReqSt: whether the session is uncongested is a parameter, which `PacedRuns.NextTied` ties to the session's rate; the override of the bypass in tests.
- Message buffers are values: that the client, the server and the transport do not alias them is assumed.
- Background threads and their queues: a handler's reply is an event that may happen at any later time.
- The 44 bits of a request number and the 24 bits of a message size in the packet header.
- Session reset, which the client never starts, and the heartbeat manager.
- Progress.EveryRequestCompletes: completion is shown for a schedule that delivers packets and finds memory for request buffers, not for every schedule with loss, which need not complete; replies must fit the users' response buffers.
- Runs.NoRunFails: whether a request type has a registered handler, and the exceptions of an allocation larger than the largest class, which `SizeClasses.LimitFits` rules out.
- Timely.Controller.UpdateRate: floating-point rounding; numbers are reals, and conversions to cycles are floors.
- Pacing.HorizonHolds: all sessions exist from the start, with their last desired time at the wheel's creation; the same holds for `PacedRuns.HorizonHolds`.
- PacedRuns.NextTied: a packet leaves the wheel when an entry of its session is at the head of the ready queue; entries are named by their session, not by slot and packet number; the times at which samples' packets were sent are not tied to those in the wheel.
- PacedLimits.KeptExactly: wheels with slots at least as long as a full packet at the minimum rate, unlike the program's, and the setting without round-trip samples, in which rates stay at the link's.
- MemPool.Pool.Alloc: the exception when the reservation of pool memory fails.
- TimingWheel.Wheel.InsertSt: wrap-around of the 61-bit timestamp, and failure of the pool's memory reservation, which raises an exception.
- HugeAlloc.Allocator.AllocSt: the system calls; their result is a parameter, and memory granted twice without release never overlaps.
- Raw allocations, which bypass the free lists, and the locks around the allocator.
- SmRpc.Rpc.HandleConnectRespSt: user callbacks, in particular creating a session from inside one; hostnames and ports are an Rpc's index, and a session number is unbounded instead of 16 bits.
- SmRpc.Rpc.HandleDisconnectRespSt: the user callback before the session is buried.
- SmRpc.Rpc.CreateSessionSt: the checks of the calling thread and the hostname, and the error codes.
- SmRpc.Rpc.DestroySessionSt: the error codes, which are one boolean; that all slots are free is a parameter, which `SessionLife.StepKeeps` ties to the datapath, as it does the slot assertions.
- SmRpc.Rpc.HandleDisconnectReqSt: the slot assertions, which are `SessionLife.StepKeeps`.
- HandshakeRuns.StepKeeps: the slot assertions of the disconnect handler, which are `SessionLife.StepKeeps`.
- Orphans.OrphanPossible: that the remote Rpc comes into being after an unknown-Rpc refusal is an event order, not a state of the model.
- HandshakeRuns.NoRunFails: the slot assertions of the disconnect handler, which are `SessionLife.NoRunFails`.
- SessionLife.NoRunFails: a server that has no memory for a request, or is sent an empty one for a background handler; these fail as `Runs.FailsExactly` says.
- HandshakeLive.ConnectCompletes: schedules in which more packets are lost, which need not complete.
- RecvRing.RawTransport.RxBurst: a completion entry is read at one moment; the retry loop for torn reads is not modelled.
- The other transports, header bit packing, statistics, `core/scheduler` and `core/allocator`.
