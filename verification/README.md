# Verified model of the SOCKS5 proxy engine

The proxy accepts SOCKS5 clients on the local network and relays their TCP connections and UDP
datagrams over the mobile network. This project models the native engine
(`app/src/main/cpp`) and the two small lock-free protocols on the Java side, and proves what they
guarantee. `dafny verify dfyconfig.toml` checks everything.

| file | what it is about |
|---|---|
| `Stamps` | the 64-bit identifiers that events carry |
| `Lifecycle`, `LifecycleSafety`, `LifecycleRuns`, `LifecycleEffects`, `LifecycleSweep`, `LifecycleAccounts`, `LifecycleProgress`, `LifecycleWitness` | slots, generations, handoff, the worker loop, finalize and release as an interleaved step system; its invariant; what that means for whole runs; what each step achieves; the law of a whole timeout scan; the counting arguments; that every connection is released in the end; runs that end where the guarantees do |
| `SlotTable`, `IntrusiveList` | the slot table and the connection list, updated in place |
| `UdpDns`, `UdpDnsSafety`, `UdpDnsRuns`, `UdpDnsEnds`, `UdpDnsTight`, `UdpDnsTables` | asynchronous name resolution for UDP frames: workers, resolvers, the request queue and the wake pipe as a step system; its invariant; runs; which frames wait and how each ends; that the queue's bound is tight; the table loops |
| `Channels`, `Relay` | one direction of forwarding under partial sends; the TCP relay, half-close and the interest mask |
| `Datagrams`, `UdpTunnel` | the UDP datagram format and its frames inside TCP; the session that reassembles and emits them |
| `Reconcile` | the table of listening sockets |
| `HappyEyeballs`, `SingleFlight` | the connection race with its waiting thread; the answer cache with single-flight lookups |
| `Ring`, `ResolveCache`, `Handshake` | the bounded rings; the fixed table of resolved names; the handshake parser against the client's encoders |
| `Octets`, `Seqs` | bytes and sequence facts |

How it is modelled:

- Threads are step systems. A step is one atomic access, one critical section or one system call,
  and any thread may go next. State predicates proved of every step (`Inv`) give statements about
  every reachable state of every run, for any number of handshake threads, resolvers, connection
  attempts and callers. Some accesses of the source are taken together as one step: the field
  snapshot a worker classifies an event by (`simple-socks5.c:425-429`); the stores of generation,
  state and counter that publish an acquired slot (161-164); the stores of the other fields with
  the allocation of the buffers (676-700); queueing a request with holding the frame that made it;
  a flush or drop of held frames with the store that frees the job; and a resolver's writing of
  address and state.
- Some state components record history only (who owns a slot, which incarnations were closed,
  what became of a held frame, which streams were sent). No guard reads them.
- Objects updated in place are classes. Their methods are proved against the abstract value they
  leave, and the properties of that value are lemmas.
- Sockets, epoll, time, memory allocation and Java calls are parameters: an outcome for each call,
  any outcome being possible within the call's own contract (`send` moves 1..n bytes, blocks or
  fails; `recv` gives bytes, end of stream, blocks or fails).
- Integers are unbounded except where the source packs or cuts them: event identifiers are 64-bit
  vectors, lengths cut to a byte are cut, 16-bit lengths are proved to fit.

## What does not hold

The code is modelled as it is. Where a natural claim fails, the exact condition is proved.

- A worker that leaves through its loop condition keeps `garbage_count`, so the connections
  unref'd at `simple-socks5.c:608-610` are unref'd again at 650. `LeaveExactly`: the invariant
  survives exactly when the bucket is empty. `LeaveFails` is a run after which it is not, and
  `CarriedGarbageKillsAStranger` goes on to where another worker's listed connection has lost its
  only reference. `SecondUnrefExactly`: the second unref claims a connection exactly when the slot
  has a reference again by then.
- The store at `simple-socks5.c:743` can come after the connection was drained and its slot taken
  again. `InitExactly`: initializing a slot keeps the invariant exactly when no thread still owes
  it that store; `InitFails` is a run after which one does, and `LateStoreOpensTheDoor` goes on to
  where a worker handles an event of a connection that is still being registered. The comment at 621 rules out a handoff concurrent
  with the exit drain; `socks5_server_quit` writes the shutdown pipe before it shuts the handshake
  pool down, so the code does not.
- These two steps are the only ones that can break the invariant (`StepKeepsExactly`). So the run
  results ask two things and no more (`Allowed`): a worker leaves through the loop condition with
  an empty bucket, and once a connection has been drained while its handshake thread still owed the
  store, no slot that is owed it is initialized. Until a worker leaves or drains, every
  interleaving is such a run (`RunningServer`); and if the handshake pool is empty before the first
  worker sets its stopping flag, only the bucket matters (`PoolFirst`).
- The UDP idle scan unlinks a session without collecting it when its bucket is full
  (`simple-socks5.c:1785`). `UdpSweep`: nothing is lost exactly when all of it fits;
  `UdpSweepLoses` is a call that loses one.
- A held frame is sent to the port of the frame that started the resolution
  (`simple-socks5.c:1231-1233`), its own port being stored and never read. `DrainEndsTheFrame`:
  it reaches its own port exactly when the two are equal; `HeldPortIsIgnored` is a run where they
  differ. The same port is cached with the address, so a cache hit uses it too (1272-1273):
  `HitIgnoresPort`, for any cache in which the host missed before, with the same condition.
- Full delivery after the target's half-close. The event that records the FIN stops waiting for the
  target (`conn_forward.c:21-24`). `HalfCloseDelivery`: with the buffers empty everything was
  delivered exactly when the peek found the end of the stream; otherwise nothing that could fetch
  the rest is armed (`DeafExactly`) and the scan reclaims the connection after two seconds.
  `TailIsLost` is such a case for any first buffer of data.
- A client RDHUP event while client data is stuck makes no progress of its own
  (`StuckClientRdhup` says exactly when such an event does).
- A bind address in non-canonical text is bound once and then lost: `BoundThenLost` is two passes
  in which that happens, for any such text, `NonCanonicalIsLost` the reason. The guarantees of `Reconcile` that need
  canonical texts say so.
- If the waiting thread's sleep is interrupted it returns without taking the late winner away.
  `OnlyTheReturnedStaysOpen`: a socket leaks exactly when the winner is still set then;
  `InterruptLeaks` is such a run.
- Credentials longer than 255 bytes are stored cut (`SetThenCheck`), a host name with a zero
  byte is used only up to it (`CStringExact`), and a CONNECT request is understood exactly for hosts
  of 1 to 255 bytes (`ConnectExactly`).
- With 1088 slots and 1000 connections, acquiring a slot is sure to succeed while at most 88
  threads are between returning quota and releasing their slot; the acquiring thread itself
  already holds quota, but no slot.

## Model

| member | source | states |
|---|---|---|
| Stamps.ConnDecodesExactly | app/src/main/cpp/conn_state.c:18-23 | decoding undoes encoding exactly for 32-bit generations and indices below the flag bit |
| Stamps.ConnDecodedFits | app/src/main/cpp/conn_state.c:18-23 | whatever word arrives, the decoded index stays below the flag bit and the generation within 32 bits |
| Stamps.ConnEncodesExactly | app/src/main/cpp/conn_state.c:18-23 | encoding undoes decoding for every 64-bit word |
| Stamps.ConnStampsDistinct | app/src/main/cpp/simple-socks5.c:722-730 | identifiers are equal exactly for the same generation, slot and descriptor |
| Stamps.ConnStampIsNotShutdown | app/src/main/cpp/simple-socks5.c:177-186 | only generation 0 of slot 0 has the shutdown identifier 0 |
| Stamps.UdpDecodesExactly | app/src/main/cpp/udp_conn.c:11-23 | the same for UDP, with three descriptor roles in two bits |
| Stamps.UdpStampsDistinct | app/src/main/cpp/udp_conn.c:11-23 | UDP identifiers are equal exactly for the same generation, slot and role |
| Stamps.UdpStampIsNotReserved | app/src/main/cpp/udp_conn.c:3-5 | no session identifier is the DNS wake word, and only generation 0 of slot 0 is the shutdown word |
| LifecycleSafety.StepKeepsExactly | app/src/main/cpp/simple-socks5.c:317-747 | a step of any handshake thread, worker or finalizer keeps the invariant over slots, owners, lists, buckets, locks and the free stack exactly if it is not one of the two unguarded ones |
| LifecycleRuns.RunInv | app/src/main/cpp/simple-socks5.c:177-186 | every state of every run from start-up satisfies the invariant; before a connection is drained too early, every store still owed is owed to a listed, unregistered connection of that incarnation |
| LifecycleRuns.RunningServer | app/src/main/cpp/simple-socks5.c:657-747 | until a worker leaves its loop or drains, every interleaving of enabled steps is a run, with nothing assumed |
| LifecycleRuns.PoolFirst | app/src/main/cpp/simple-socks5.c:2704-2741 | with the handshake pool empty before the first stopping flag, only the bucket condition is left |
| LifecycleRuns.HandledIsAlive | app/src/main/cpp/simple-socks5.c:401-447 | the slot behind an event being handled is on that worker's list, live, registered, open and of no closed incarnation |
| LifecycleEffects.ProcessedExactly | app/src/main/cpp/conn_state.c:7-16 | an event is PROCESS exactly when it names a registered connection on that worker's own list, of the same incarnation |
| LifecycleEffects.DeliversExactly | app/src/main/cpp/simple-socks5.c:401-447 | and exactly then is it handled; any other event is passed over |
| LifecycleEffects.FailCloses | app/src/main/cpp/simple-socks5.c:522-537 | an I/O error closes exactly the connection being handled: marked, recorded, unlinked and in the bucket |
| LifecycleRuns.ClosedIncarnationNeverProcessed | app/src/main/cpp/conn_state.c:7-16 | once an incarnation of a slot is closed, no event stamped for it is ever classified PROCESS again, by any worker, however the slot is reused |
| LifecycleRuns.ClosedFlagIsRecorded | app/src/main/cpp/simple-socks5.c:522-537 | a slot in use whose closed flag is set counts as closed in that sense |
| LifecycleRuns.ReleasedExactlyOnce | app/src/main/cpp/simple-socks5.c:317-373 | every incarnation but the current one was released exactly once, the current one exactly when the slot is free; finalize is never entered twice |
| LifecycleRuns.FreeStackIsSound | app/src/main/cpp/simple-socks5.c:148-175 | no slot is on the free stack twice, or while active, listed or waiting to be unref'd |
| LifecycleRuns.FinalizeIsUnlinkedAndUnlocked | app/src/main/cpp/simple-socks5.c:325-336 | finalize never runs in a worker holding its own list lock, and finds its connection already unlinked |
| LifecycleRuns.SweepCursorIsListed | app/src/main/cpp/simple-socks5.c:542-588 | the scan's cursor and remembered successor are always on the list, also across the unlock for a full bucket |
| LifecycleSweep.ScanLaw | app/src/main/cpp/simple-socks5.c:542-588 | over any run, a registered connection on the list when the scan takes the lock is looked at exactly once before the scan is done; its incarnation is closed by then exactly if that look found it expired, and otherwise it is still open on the list |
| LifecycleEffects.ScanReclaims | app/src/main/cpp/simple-socks5.c:570-585 | an expired registered connection is marked closed, recorded, unlinked and in the worker's bucket or hand; no other leaves the list, and the cursor goes on to its successor |
| LifecycleEffects.ScanSpares | app/src/main/cpp/simple-socks5.c:570-587 | one that has not expired, or is still being registered, is left exactly as it was |
| LifecycleRuns.ExitedWorkerLeavesNothing | app/src/main/cpp/simple-socks5.c:613-655 | a worker that has exited has no connection listed, collected or being finalized |
| LifecycleEffects.DrainCloses | app/src/main/cpp/simple-socks5.c:627-647 | the exit drain closes and collects the head of the list |
| LifecycleSafety.LeaveExactly | app/src/main/cpp/simple-socks5.c:392-650 | leaving through the loop condition keeps the invariant exactly when the bucket is empty |
| LifecycleSafety.SecondUnrefExactly | app/src/main/cpp/simple-socks5.c:649-650 | the unref of a carried connection claims it exactly when its slot has one reference at that moment, and changes nothing but the count |
| LifecycleWitness.LeaveFails | app/src/main/cpp/simple-socks5.c:608-650 | a run after which a worker may leave with a slot in its bucket, breaking the invariant |
| LifecycleWitness.CarriedGarbageKillsAStranger | app/src/main/cpp/simple-socks5.c:613-650 | a path from start-up, that step its only irregular one, after which another worker's registered, listed connection has no reference left |
| LifecycleSafety.InitExactly | app/src/main/cpp/simple-socks5.c:671-701 | initializing a slot keeps the invariant exactly when no thread still owes it the late store |
| LifecycleEffects.AcquiresExactly | app/src/main/cpp/simple-socks5.c:148-166 | acquiring fails exactly when no slot is free; otherwise the last one freed comes back zeroed, of the next generation, and is then made active |
| LifecycleEffects.AcceptedConnectionIsListed | app/src/main/cpp/simple-socks5.c:671-746 | a handoff nothing stands in the way of leads through each stage to the connection on the list of the worker chosen for it, with one reference, and registered |
| LifecycleEffects.RefusedConnectionIsDropped | app/src/main/cpp/simple-socks5.c:688-719 | without buffers, or with its worker stopping, it is dropped before it is listed |
| LifecycleEffects.FailedRegistrationIsUndone | app/src/main/cpp/simple-socks5.c:731-739 | a failed registration of either descriptor leaves it closed, unlinked and the lock released |
| LifecycleWitness.InitFails | app/src/main/cpp/simple-socks5.c:671-743 | a run after which a thread may initialize a slot that another still owes the store, breaking the invariant |
| LifecycleWitness.LateStoreOpensTheDoor | app/src/main/cpp/simple-socks5.c:740-743 | a path from start-up, that step its only irregular one, after which a worker is handling an event of a connection whose own thread is still adding descriptors |
| LifecycleAccounts.StepBalances | app/src/main/cpp/simple-socks5.c:317-747 | every step keeps the equations between quota, slots in use, free slots and the statistics |
| LifecycleAccounts.NeverOverAdmitted | app/src/main/cpp/simple-socks5.c:2264-2280 | admitted TCP and UDP connections never exceed 1000, however many handshakes race; slots in use never exceed admitted connections plus threads between quota return and slot release |
| LifecycleEffects.AdmitsExactly | app/src/main/cpp/simple-socks5.c:2264-2280 | a handshake, and a UDP session, is admitted exactly while fewer than 1000 are counted in |
| LifecycleAccounts.AcquiredIsReleasedPlusInUse | app/src/main/cpp/simple-socks5.c:148-175 | acquired = released + in use, up to threads about to count; free + in use = 1088 |
| LifecycleAccounts.AcquireSucceeds | app/src/main/cpp/simple-socks5.c:662-670 | an admitted handshake finds a free slot while at most 88 threads are between quota return and slot release |
| LifecycleProgress.FinishingLowers | app/src/main/cpp/simple-socks5.c:317-747 | every step that finishes work already begun (unref, finalize, sweep, drain, the rest of a handoff) lowers what is left to do |
| LifecycleProgress.FinishesWithin | app/src/main/cpp/simple-socks5.c:317-747 | without new work at most that many steps follow, in any order |
| LifecycleProgress.RestMeansReleased | app/src/main/cpp/simple-socks5.c:317-373 | nobody is stuck: when no such step is enabled every slot is free, or serves an open listed connection of a running server |
| LifecycleProgress.StoppedServerReleasedAll | app/src/main/cpp/simple-socks5.c:613-655 | a stopped server at rest has every slot on the stack, acquired = released, and each incarnation of each slot in its release log |
| SlotTable.SlotTable.Init | app/src/main/cpp/simple-socks5.c:177-186 | all slots free in order, a zero generation raised to 1, everything else kept |
| SlotTable.SlotTable.Acquire | app/src/main/cpp/simple-socks5.c:148-166 | pops the top slot, zeroes it but for a generation raised by one and its active mark, touches no other; fails exactly when the stack is empty |
| SlotTable.SlotTable.Release | app/src/main/cpp/simple-socks5.c:169-175 | pushes the slot, and the array always has room |
| IntrusiveList.ConnList.Add | app/src/main/cpp/simple-socks5.c:227-232 | the list becomes the connection followed by the old list, links consistent both ways |
| IntrusiveList.ConnList.Remove | app/src/main/cpp/simple-socks5.c:234-240 | the list loses exactly that connection, links consistent and its own cleared |
| IntrusiveList.ConnList.IsLinked | app/src/main/cpp/simple-socks5.c:331-334 | finalize's pointer test is true exactly when the connection is on the list |
| IntrusiveList.ConnList.Sweep | app/src/main/cpp/simple-socks5.c:542-588 | with any bucket and any number of arrivals each time the lock is released, what stays keeps its order behind what joined, and all expired ones are flushed or in the bucket, in order |
| IntrusiveList.ConnList.UdpSweep | app/src/main/cpp/simple-socks5.c:1762-1789 | what does not fit the bucket is unlinked uncollected; nothing is lost exactly when all fits |
| IntrusiveList.UdpSweepLoses | app/src/main/cpp/simple-socks5.c:1762-1789 | with one idle session more than there is room, one is unlinked and not collected |
| IntrusiveList.ConnList.Drain | app/src/main/cpp/simple-socks5.c:627-647 | a round unlinks a front part of the list and collects what of it is not being finalized, up to the batch size; the list is empty if it collects fewer |
| UdpDnsSafety.StepKeeps | app/src/main/cpp/simple-socks5.c:1083-1319 | every step of every worker and resolver keeps the invariant over jobs, requests, held frames, pipes and scan positions |
| UdpDnsRuns.NoLostWakeup | app/src/main/cpp/simple-socks5.c:1101-1139 | a finished job has a byte in the pipe, a resolver about to write one, or a drain that has not passed it |
| UdpDnsRuns.NoStrandedFrame | app/src/main/cpp/simple-socks5.c:1281-1319 | every held frame of a listed session has a live job for its host on that worker |
| UdpDnsRuns.ResultLandsInItsJob | app/src/main/cpp/simple-socks5.c:1121-1136 | a result is stored into the still INFLIGHT job its request was made for: DONE_OK with the address exactly on success, DONE_FAIL exactly otherwise, host and port kept |
| UdpDnsEnds.StoredAt | app/src/main/cpp/simple-socks5.c:1121-1136 | over any run, a finished job was answered at some step by a resolver whose request named it, DONE_OK exactly if that answer was a success, with its address |
| UdpDnsEnds.StartedAt | app/src/main/cpp/simple-socks5.c:1281-1304 | a job in use was started by the arrival of a frame for its host, and has that frame's port |
| UdpDnsEnds.TakesTheOldest | app/src/main/cpp/simple-socks5.c:1106-1117 | a resolver takes the oldest request |
| UdpDnsRuns.RequestsAreInjective | app/src/main/cpp/simple-socks5.c:1083-1117 | two requests, queued or being resolved, never name the same job |
| UdpDnsRuns.QueueNeverFull | app/src/main/cpp/simple-socks5.c:1083-1099 | the queue-full branch is never taken: 4 x 32 jobs fit 128 cells |
| UdpDnsTight.QueueCanFill | app/src/main/cpp/simple-socks5.c:1083-1099 | for any number of resolvers, a run in which all 128 cells are in use, so no smaller queue would do |
| UdpDnsRuns.OneJobPerHost | app/src/main/cpp/udp_dns.c:5-20 | a worker has at most one live job per host |
| UdpDnsRuns.WaitsInOnePlace | app/src/main/cpp/simple-socks5.c:1305-1316 | a held frame is in exactly the slot its record names, and an ended one in none |
| UdpDnsEnds.HoldExactly | app/src/main/cpp/udp_dns.c:31-42 | a frame is kept exactly if its payload has 1 to 1280 bytes and a pending slot is free, in such a slot |
| UdpDnsEnds.JoinsExactly | app/src/main/cpp/simple-socks5.c:1281-1316 | a frame whose host has a live job is kept exactly under that condition, and starts nothing |
| UdpDnsEnds.StartsExactly | app/src/main/cpp/simple-socks5.c:1281-1304 | one whose host has none starts a job with its host and port, unless all jobs are taken |
| UdpDnsEnds.PostsExactly | app/src/main/cpp/simple-socks5.c:1295-1316 | the job's request is then queued last, and the frame kept exactly under that condition |
| UdpDnsRuns.FateIsFinal | app/src/main/cpp/simple-socks5.c:1181-1215 | a held frame ends once: sent, lost, dropped or gone with its session, and never changes after |
| UdpDnsRuns.DrainEndsTheFrame | app/src/main/cpp/simple-socks5.c:1218-1251 | how a frame ends, exactly, when the scan meets its host's finished job; sent to the job's port, its own exactly when they are equal |
| UdpDnsEnds.FrameEnds | app/src/main/cpp/simple-socks5.c:1101-1251 | end to end over any run: a frame stops waiting when its session goes, or when the scan meets the job that an earlier frame for that host started and a resolver answered; sent to that answer's address and that frame's port exactly if the answer was a success, a literal and the session usable; dropped exactly if it was a failure or no literal |
| UdpDnsEnds.ClosedStaysUnusable | app/src/main/cpp/simple-socks5.c:1181-1199 | a session marked closed stays unable to send for as long as it is listed |
| UdpDnsRuns.HeldPortIsIgnored | app/src/main/cpp/simple-socks5.c:1281-1316 | a run after which a frame is held with one port and its host's job has another |
| UdpDnsRuns.InternalStepDecreases | app/src/main/cpp/simple-socks5.c:1101-1251 | every step that finishes accepted work lowers what remains |
| UdpDnsRuns.SettlesWithin | app/src/main/cpp/simple-socks5.c:1101-1251 | without new frames at most that many steps follow, in any order |
| UdpDnsRuns.NothingLeftAtRest | app/src/main/cpp/simple-socks5.c:1218-1251 | when no thread can move, every job is free and no frame waits |
| UdpDnsTables.JobFind | app/src/main/cpp/udp_dns.c:5-12 | the first live job of that host, or none and there is none |
| UdpDnsTables.JobAlloc | app/src/main/cpp/udp_dns.c:14-20 | a free job, or none exactly when all are taken |
| UdpDnsTables.PendFreeSlot | app/src/main/cpp/udp_dns.c:31-37 | the first free pending slot, or none exactly when all are used |
| UdpDnsTables.PendCount | app/src/main/cpp/udp_dns.c:22-29 | the number used, full exactly when no slot is free |
| UdpDnsTables.EmptySlots | app/src/main/cpp/simple-socks5.c:1202-1215 | empties exactly the host's slots and counts them |
| Channels.Channel.TrySend | app/src/main/cpp/simple-socks5.c:247-264 | for any send outcomes: how much goes out and how it ends; bytes sent followed by bytes buffered stay the bytes received |
| Channels.DrainGoesOn | app/src/main/cpp/simple-socks5.c:247-264 | sending goes on until all is out, and stops early only at a call that blocks or fails |
| Channels.Channel.Fill | app/src/main/cpp/simple-socks5.c:471-473 | bytes read extend the received stream and become the buffer |
| Relay.ForwardInterest | app/src/main/cpp/conn_forward.c:3-30 | each descriptor waits for exactly what its end of the relay can use |
| Relay.NothingIsForgotten | app/src/main/cpp/conn_forward.c:3-30 | an open connection waits for each condition exactly when that condition could move something |
| Relay.Conn.UpdateEvents | app/src/main/cpp/simple-socks5.c:282-305 | the wanted mask is armed, or the old one stays where the kernel refused |
| Relay.Conn.HandleEvent | app/src/main/cpp/simple-socks5.c:449-537 | for any partial reads and sends both streams stay faithful, tx and rx are the bytes sent to and received from the target, and at the target's end of stream nothing of it is unsent |
| Relay.EventBytes | app/src/main/cpp/simple-socks5.c:457-500 | every byte an event moves, each way, in terms of the outcomes of its calls |
| Relay.EventEnds | app/src/main/cpp/simple-socks5.c:457-500 | client end of stream, target end of stream and each read failure are acted on exactly when that read was due and gave it |
| Relay.EventBreaks | app/src/main/cpp/simple-socks5.c:457-500 | an event ends on a send failure exactly when one of its four sends failed |
| Relay.NothingUnsentAtTargetEof | app/src/main/cpp/simple-socks5.c:482-520 | ending on the target's end of stream, or after the grace period, leaves nothing buffered that the ending promises was sent |
| Relay.FinishedDoesNotStay | app/src/main/cpp/simple-socks5.c:502-520 | a connection with all data out and its target finished, or its grace over, is closed |
| Relay.HalfCloseIsKept | app/src/main/cpp/simple-socks5.c:469-500 | a half-close is recorded once with its time, and that client is not read again |
| Relay.ArmedAndReadyMakesProgress | app/src/main/cpp/conn_forward.c:3-30 | an armed and ready condition moves a byte, records a half-close or closes, but for client RDHUP with stuck client data |
| Relay.StuckClientRdhup | app/src/main/cpp/simple-socks5.c:457-537 | in that case progress is made exactly when the other direction moves |
| Relay.Conn.Scan | app/src/main/cpp/simple-socks5.c:552-575 | a FIN is recorded exactly when the peek finds one behind unsent data, and the connection is reclaimed exactly after more than 300 idle seconds, or 2 seconds and more after a recorded half-close |
| Relay.EventThenScan | app/src/main/cpp/simple-socks5.c:449-585 | an event and a later scan: a connection left alive without half-close is never reclaimed within 300 seconds and always after; with one recorded, from exactly 2 seconds after it on |
| Relay.DeafExactly | app/src/main/cpp/conn_forward.c:3-30 | nothing waits for the target or to write to the client exactly when the target's FIN is recorded and both buffers are empty |
| Relay.HalfCloseDelivery | app/src/main/cpp/simple-socks5.c:488-520 | the event that records the target's FIN and empties both buffers has delivered everything exactly when the peek finds the end of the stream; otherwise the connection is deaf and reclaimed when the grace period is over |
| Relay.TailIsLost | app/src/main/cpp/simple-socks5.c:482-573 | one event and one scan after which a connection is closed with bytes of the target unread |
| Datagrams.ParseHeader | app/src/main/cpp/socks5_protocol.c:37-72 | the header of any address and port parses back to them, whatever follows |
| Datagrams.HeaderOfParsed | app/src/main/cpp/socks5_protocol.c:37-72 | whatever parses begins with the header of what it yields |
| Datagrams.EncodeAddrPort | app/src/main/cpp/socks5_protocol.c:77-88 | writes that address field and port after the given head and touches nothing else |
| Datagrams.UdpEncode | app/src/main/cpp/socks5_protocol.c:90-93 | writes exactly the header of that address and port |
| Datagrams.HeaderLayout | app/src/main/cpp/socks5_protocol.c:37-93 | the header byte by byte for each address type |
| Datagrams.SourceAddrLiteral | app/src/main/cpp/simple-socks5.c:1573-1576 | a sender is IPv4 exactly if its address has 4 bytes or is ::ffff: followed by them, and IPv6 otherwise; normalizing IPv4 gives ten zeros, ff ff and the address |
| Datagrams.SourceAddrExact | app/src/main/cpp/socks5_protocol.c:116-124 | unmapping a sender's address loses nothing: addresses agree exactly when their 16-byte forms do |
| Datagrams.FramesResume | app/src/main/cpp/socks5_protocol.c:103-107 | a stream is read the same whether in one piece or resumed after whole frames |
| Datagrams.FrameLayout | app/src/main/cpp/socks5_protocol.c:103-107 | a frame is a big-endian length and its bytes; lengths from 4 to the buffer size are legal |
| Datagrams.RouteExactly | app/src/main/cpp/simple-socks5.c:1647-1653 | a frame is sent on exactly if it is a header and a non-empty payload, as that address, port and payload; any other gives nothing |
| Datagrams.RenderRoundTrip | app/src/main/cpp/simple-socks5.c:1556-1591 | the frames of any datagrams read back as exactly those datagrams |
| UdpTunnel.Receiver.Event | app/src/main/cpp/simple-socks5.c:1596-1660 | however the bytes are cut, the datagrams routed are those of the whole-stream parser, and it stops at the same illegal length |
| UdpTunnel.Receiver.Meaning | app/src/main/cpp/simple-socks5.c:1596-1660 | between events the state is the whole-stream parser's: routed datagrams, rest and illegality depend on the bytes alone |
| UdpTunnel.Receiver.Complete | app/src/main/cpp/simple-socks5.c:1645-1658 | a complete frame is routed, or dropped if malformed or empty, and the next begins |
| UdpTunnel.BuildAt | app/src/main/cpp/simple-socks5.c:1559-1582 | the frame built around the received payload is the datagram's frame, within the buffer, its length in 16 bits |
| UdpTunnel.Sender.Build | app/src/main/cpp/simple-socks5.c:1576-1588 | after the move to offset 0 the buffer holds exactly that frame |
| UdpTunnel.Sender.Flush | app/src/main/cpp/simple-socks5.c:1454-1468 | sends what the client takes and keeps the rest |
| UdpTunnel.Sender.RemoteEvent | app/src/main/cpp/simple-socks5.c:1556-1591 | builds the frames of the packets taken, in order, and stops only when the client is behind, a packet blocks or an error occurs |
| UdpTunnel.RepliesInOrder | app/src/main/cpp/simple-socks5.c:1571-1588 | packets with a payload are answered once each, in order, with their sender's address and port and their own bytes |
| UdpTunnel.EmptyIsNotAnswered | app/src/main/cpp/simple-socks5.c:1571-1571 | empty ones never are |
| UdpTunnel.Sender.ClientStream | app/src/main/cpp/simple-socks5.c:1556-1591 | what the client was sent is a prefix of frames that read back as the datagrams |
| Reconcile.Listeners.InTable | app/src/main/cpp/simple-socks5.c:2345-2350 | found exactly when an entry has the address |
| Reconcile.Listeners.Drop | app/src/main/cpp/simple-socks5.c:2392-2406 | removes that entry, and closes its socket exactly when it is still ours |
| Reconcile.Listeners.Prune | app/src/main/cpp/simple-socks5.c:2425-2434 | keeps exactly the wanted live entries and closes exactly our unwanted sockets |
| Reconcile.Listeners.Add | app/src/main/cpp/simple-socks5.c:2355-2388 | a new entry exactly when there is room and the address can be bound |
| Reconcile.Listeners.Reconcile | app/src/main/cpp/simple-socks5.c:2411-2442 | no duplicates, every entry live and wanted, every bindable wanted address present, live wanted entries keep their descriptor, no other socket closed, never short of room, every wanted address in the table or not bindable, and nothing changes when nothing is left to do |
| Reconcile.Targets | app/src/main/cpp/simple-socks5.c:2425-2440 | wanted are exactly 127.0.0.1, ::1 and every desired address, in that order |
| Reconcile.RoomForOneMore | app/src/main/cpp/simple-socks5.c:2356-2356 | 16 + 2 addresses never need more than 18 entries |
| Reconcile.BoundThenLost | app/src/main/cpp/simple-socks5.c:2411-2442 | for any text that is not its address's canonical one, two passes: the first binds it, the second forgets it while its socket stays open and keeps it taken |
| Reconcile.NonCanonicalIsLost | app/src/main/cpp/simple-socks5.c:2316-2338 | an address text that is not canonical loses its socket at the next pass and can no longer be bound |
| HappyEyeballs.AttemptKeeps | app/src/main/java/com/tokyoxpa3/androidproxy/HappyEyeballs.kt:22-42 | every step of an attempt keeps the invariant |
| HappyEyeballs.WaiterKeeps | app/src/main/java/com/tokyoxpa3/androidproxy/Socks5ProxyService.kt:951-978 | every step of the waiting thread keeps the invariant |
| HappyEyeballs.OnlyTheReturnedStaysOpen | app/src/main/java/com/tokyoxpa3/androidproxy/HappyEyeballs.kt:22-42 | when all are done, a connected candidate is open exactly if it is the one returned, or the winner left by an interrupted waiter, whatever the timing |
| HappyEyeballs.InterruptLeaks | app/src/main/java/com/tokyoxpa3/androidproxy/Socks5ProxyService.kt:957-968 | a run in which an interrupted sleep leaves a connected socket open that nobody returns |
| HappyEyeballs.ReturnedIsNeverClosed | app/src/main/java/com/tokyoxpa3/androidproxy/Socks5ProxyService.kt:956-978 | the socket returned has connected and nobody closes it at any later moment |
| HappyEyeballs.OnlyConnectedAreTouched | app/src/main/java/com/tokyoxpa3/androidproxy/HappyEyeballs.kt:29-33 | an attempt that did not connect is never closed, winner or returned |
| HappyEyeballs.LatchMeansWinner | app/src/main/java/com/tokyoxpa3/androidproxy/Socks5ProxyService.kt:951-957 | a waiter that saw the latch open finds a winner |
| HappyEyeballs.FailedDetach | app/src/main/java/com/tokyoxpa3/androidproxy/Socks5ProxyService.kt:968-974 | handing over fails only after a detach that failed |
| HappyEyeballs.WonRaceReturns | app/src/main/java/com/tokyoxpa3/androidproxy/Socks5ProxyService.kt:951-979 | if the waiter saw the latch open and no detach failed, the race ends with a connected, open socket returned |
| HappyEyeballs.SomeRaceIsWon | app/src/main/java/com/tokyoxpa3/androidproxy/HappyEyeballs.kt:22-42 | for any number of attempts, a race that ends so |
| HappyEyeballs.LateStarterDoesNothing | app/src/main/java/com/tokyoxpa3/androidproxy/HappyEyeballs.kt:29-30 | an attempt that starts after a socket was returned or the race abandoned never tries to connect |
| HappyEyeballs.RaceEnds | app/src/main/java/com/tokyoxpa3/androidproxy/HappyEyeballs.kt:22-42 | a race of n attempts is over within 7n + 6 steps in any interleaving |
| HappyEyeballs.NobodyIsStuck | app/src/main/java/com/tokyoxpa3/androidproxy/HappyEyeballs.kt:22-42 | it stops only when all are done |
| SingleFlight.StepKeeps | app/src/main/java/com/tokyoxpa3/androidproxy/DnsCache.kt:32-71 | every step of every lookup, and clearing, keeps the invariant |
| SingleFlight.OneLeaderPerKey | app/src/main/java/com/tokyoxpa3/androidproxy/DnsCache.kt:36-45 | between two clears a key has at most one leader |
| SingleFlight.MarkerIsOwn | app/src/main/java/com/tokyoxpa3/androidproxy/DnsCache.kt:50-53 | a leader's marker stays until it removes it or the markers are cleared; no other leader's finish takes it |
| SingleFlight.EveryMarkerHasItsLeader | app/src/main/java/com/tokyoxpa3/androidproxy/DnsCache.kt:46-53 | every marker in the map belongs to a leader still at work |
| SingleFlight.LeadsExactly | app/src/main/java/com/tokyoxpa3/androidproxy/DnsCache.kt:36-45 | a thread leads exactly if its key has no marker, and follows otherwise |
| SingleFlight.LookupReturns | app/src/main/java/com/tokyoxpa3/androidproxy/DnsCache.kt:32-54 | over any run, a lookup returns what its own resolver returned or threw, or what the cache held unexpired when it looked, and nothing only if, having waited, it finds nothing unexpired |
| SingleFlight.CachedAnswersAreGood | app/src/main/java/com/tokyoxpa3/androidproxy/DnsCache.kt:33-44 | a cached answer was resolved for that key and is unexpired at the caller's time, by the positive or the negative life as it is non-empty or empty |
| SingleFlight.AnswersFromCacheExactly | app/src/main/java/com/tokyoxpa3/androidproxy/DnsCache.kt:33-44 | a look at the cache answers exactly when it holds an unexpired entry for the key |
| SingleFlight.PutsExactly | app/src/main/java/com/tokyoxpa3/androidproxy/DnsCache.kt:64-71 | a leader's answer is cached from its caller's time for the positive or the negative life as it is non-empty or empty |
| SingleFlight.CacheIsBounded | app/src/main/java/com/tokyoxpa3/androidproxy/DnsCache.kt:46-71 | with at most K leaders at once the cache never exceeds maxEntries - 1 + K |
| SingleFlight.ClearsExactly | app/src/main/java/com/tokyoxpa3/androidproxy/DnsCache.kt:46-48 | a leader empties the cache exactly when it finds the limit reached |
| Ring.Ring.Enqueue | app/src/main/cpp/simple-socks5.c:2109-2122 | accepted at the end, refused exactly when full or (job pool) stopped |
| Ring.Ring.Dequeue | app/src/main/cpp/simple-socks5.c:2124-2148 | the oldest accepted item not yet taken; leaves exactly when stopped and all was taken |
| ResolveCache.Cache.Lookup | app/src/main/cpp/simple-socks5.c:847-863 | a hit was put for exactly that host (or one of 256 bytes and more that begins with it) less than 60 seconds earlier; a miss means no live entry has it |
| ResolveCache.Cache.Victim | app/src/main/cpp/simple-socks5.c:870-874 | the first slot that is not live, or if all are, one that expires earliest |
| ResolveCache.Cache.Store | app/src/main/cpp/simple-socks5.c:866-882 | one slot is written, a live entry being lost only when all 64 are live |
| ResolveCache.RouteHit | app/src/main/cpp/simple-socks5.c:1268-1275 | a cache hit is sent to the address and port of a resolution for that host in the last 60 seconds, whatever the frame's own port |
| ResolveCache.HitIgnoresPort | app/src/main/cpp/simple-socks5.c:1231-1233 | after a miss is resolved for one port, a frame within 60 seconds goes to that port, its own exactly when they are equal |
| Handshake.MethodOffered | app/src/main/cpp/socks5_protocol.c:5-10 | true exactly when the method is offered |
| Handshake.AuthRequest | app/src/main/java/com/tokyoxpa3/androidproxy/Socks5ClientProtocol.kt:34-44 | fills the array with exactly the RFC 1929 request |
| Handshake.ConnectRequest | app/src/main/java/com/tokyoxpa3/androidproxy/Socks5ClientProtocol.kt:51-63 | fills the array with the CONNECT request for that host and port, its length cut to a byte |
| Handshake.WireLayout | app/src/main/java/com/tokyoxpa3/androidproxy/Socks5ClientProtocol.kt:22-63 | greeting, credentials and request, byte by byte |
| Handshake.ConnectExactly | app/src/main/java/com/tokyoxpa3/androidproxy/Socks5ClientProtocol.kt:51-63 | the server recovers host and port and reads all of it exactly for hosts of 1 to 255 bytes |
| Handshake.AuthenticatedRoundTrip | app/src/main/cpp/simple-socks5.c:2202-2261 | the client's bytes are consumed to the last and recovered exactly when the credentials are the stored ones |
| Handshake.OpenRoundTrip | app/src/main/cpp/simple-socks5.c:2202-2261 | the same without authentication |
| Handshake.WrongMethodIsRefused | app/src/main/cpp/simple-socks5.c:2220-2224 | a client offering the other method is refused |
| Handshake.OnlyTheStoredCredentials | app/src/main/cpp/simple-socks5.c:2052-2075 | whatever stream is accepted contains the stored credentials and the request, byte for byte |
| Handshake.GreetingAnswered | app/src/main/cpp/simple-socks5.c:2202-2205 | the server answers a stream exactly if it begins with a greeting of 1 to 255 methods |
| Handshake.MethodAnswered | app/src/main/cpp/simple-socks5.c:2207-2224 | a greeting is refused with 05 ff exactly if it does not offer the method the configuration asks for |
| Handshake.CredentialsAnswered | app/src/main/cpp/simple-socks5.c:2052-2075 | a non-empty user and a password get 01 00 if they are the stored ones and 01 01 otherwise |
| Handshake.OnlyCredentialsAnswered | app/src/main/cpp/simple-socks5.c:2057-2067 | any other stream in their place fails without an answer |
| Handshake.RequestExactly | app/src/main/cpp/simple-socks5.c:2235-2261 | a request is accepted exactly if the stream begins with one |
| Handshake.SetThenCheck | app/src/main/cpp/socks5_protocol.c:12-22 | set credentials admit exactly those who present them, cut to 255 bytes |
| Handshake.SetAuthExactly | app/src/main/cpp/simple-socks5.c:2031-2048 | authentication is on exactly if both user and password are given |
| Handshake.CStringExact | app/src/main/cpp/simple-socks5.c:2246-2252 | the host used is the host sent exactly when that has no zero byte |

## Left out

- 32-bit wrap-around of generations: a generation is unbounded in the lifecycle model; its packing into 32 bits is in `Stamps`.
- C11 memory ordering: every atomic access is one step of a sequentially consistent system.
- The UDP session lifecycle (slots, handoff, finalize, teardown): the same design as TCP without the worker index; only its identifiers, idle scan and list are modelled.
- Server start, stop and restart: runs start from freshly initialized tables, and a second `slots_init` is covered only by `SlotTable.SlotTable.Init`.
- Failure to create a worker's wake pipe, and stopping the resolvers: the resolution model has its pipes and its resolvers for the whole run; consumers leaving a stopped ring are in `Ring`.
- The address cache in front of asynchronous resolution: `UdpDns` starts at a cache miss; the cache itself is `ResolveCache`.
- Reconcile.Listeners.Add: socket options are not modelled, and success of socket, bind and listen is one condition; that inet_pton accepts no text over 45 characters is assumed of the environment.
- Ring.Ring.Dequeue: waiting on the condition variable is the result `Wait`, to be called again.
- Datagrams.SourceAddrExact: models `socks5_addr_normalize` as a function on values; writing into the caller's 16-byte buffer is not captured.
- Relay.Conn.HandleEvent: a negative descriptor, which a registered connection does not have, is not modelled.
- The descriptor and address arrays of the listener table are one array of entries.
- Happy Eyeballs address order and stagger (`orderIpv6First`, `race`): attempts may start at any time, in any order; an executor that refuses an attempt is not modelled.
- The standard UDP association (command 0x03), its reply address and source checks: system calls with little state.
- The fd-leak diagnostics (`ghost_purge.c`), JNI glue, Android services, health checks, user interface and build files.
