# Verified model of the sshe daemon's protocols

sshe is a small daemon and CLI that probe a host and its peers, keep the results in
memory, and run commands on listed peers over QUIC. This project models the parts of it
whose correctness spans many steps and many callers, and proves properties over every run:

- **Sampling** (`Sampling`, `SamplingSafety`, `Sampler`): one round per probe kind, shared by
  manual and scheduled callers, with a leader that may be dropped while it waits. A step system
  over any number of callers, rounds and kinds, and time.
- **Scheduling** (`Scheduler`, `TimerLoop`): one timer loop per configured kind on top of sampling.
- **History** (`HistoryLog`, `RecordOrder`, `History`, `Timeline`): the bounded series, the
  most-recent query and the event timeline, all stated against the unbounded log of every
  record ever inserted.
- **Dialer** (`Dialer`, `DialerSafety`, `PeerCache`): RPC over cached connections with one shared
  deadline and one guarded retry. A step system over any number of callers, peers and connections.
- **Admission** (`Admission`, `Daemon`): connection slots, local slots and the two permit pools.
- **End to end** (`Client`, `EndToEnd`, `EndToEndSafety`, `EndToEndRuns`): one exec from the CLI, through the local
  daemon or a temporary endpoint, to the target node, as a composition of the systems above.
- **Wire format** (`Codec`, `ExecReply`): length-prefixed frames, bounded command output and the
  size of the reply that carries it.

`Prelude` and `Protocol` hold shared types and constants.

## How to read it

A protocol is a `State`, a `Step` datatype, an `Enabled` guard and a function `Apply`. `Run` folds
any list of steps over the initial state; a step whose guard is false does nothing, so a run is any
interleaving whatever. A step is one stretch of code that neither awaits nor gives up its lock.
`Inv` is kept by every step (`StepInv`), hence holds in every reachable state (`RunInv`), and the
theorems in the `...Safety` modules follow from it.

The code that changes state in place is also modelled in that form: classes with fields, loops
and buffers. `History.History`, `Codec.ReadFrame` and `ExecReply.ReadOutput` are proved against
functions of the log or of the bytes. `Sampler.Sampler`, `TimerLoop.TimerLoop`,
`PeerCache.PeerCache` and `Daemon.Daemon` are proved to take at most one step of the corresponding
system per method, with a method for every step, so that the theorems about runs hold of them. A step
that changes nothing the object holds, such as the arrival of a reply, is a ghost method.

A caller of the sampler may be dropped at `work.await`, while waiting for the history lock and, as a
follower, in `changed().await`, and nowhere else. Writing history and publishing are separate steps,
as are publishing and the moment the leader's sender goes out of scope, because other threads can
run between them.

## What the proofs revealed

- "Outcome unknown" does not mean that the write of an exec began. `exchange` sets `submitted` before
  `write_frame` runs (`crates/sshe-node/src/transport.rs:207-210`), so it also covers a request that is
  too large for a frame, a connection that closes before the first byte goes out, and a stream that never
  takes one. `DialerSafety.HonestVerdict` states what holds: one submission, at most one write, and none
  if the request exceeds a frame. `DialerSafety.UnknownSaysNoMore` shows that this is exact: for every
  size, the verdict can come after no write, and after one write if and only if the request fits a frame.
  Every other error of an exec means that nothing was submitted, without exception.
- The same holds of the CLI's own request to the daemon: `via_daemon` reports an oversized local request
  as "outcome unknown" although the daemon was never asked (`crates/sshe-node/src/client.rs:89-94`).
  `EndToEndSafety.UnknownMeansSubmittedOnce` states that, without an own endpoint, this verdict means that
  the request was submitted to the daemon if and only if it fits a frame;
  `EndToEndRuns.OversizedLocalIsUnknownButUnasked` is such a run for every larger size.
- An error text is not always an error of `invoke`. A peer's own failure comes back as a response, and so
  does the daemon's failure to forward; both reach the user as plain error messages
  (`crates/sshe-cli/src/output.rs:10`), although in the first case the exec ran, for instance with too much
  output. `EndToEndSafety.ResponseTellsRuns` tells what each kind of response means for writes and runs,
  and `EndToEndRuns.ExecCanRun` is a run in which an exec ran and its dispatch failed.
- A JSON array of n bytes takes at most 4n + 1 characters only if n > 0; the empty array takes two
  (`ExecReply.ByteArrayBound`). For n > 0 the bound is reached (`ExecReply.ByteArrayBoundIsTight`).
- The call budget has no slack: a first attempt that dials and opens as slowly as it may has
  exactly the RPC limit left (`DialerSafety.BudgetIsTight`).
- The comment at `crates/sshe-protocol/src/limits.rs:6` says that the query limit keeps replies under
  the frame limit. Nothing in the code bounds the size of a record, so no such property is stated.

## Assumptions

The monotone clock never goes back. Timers fire on time: in `Dialer`, time does not pass the end of a
pending phase until that phase has ended (`DialerSafety.TimersUnblockTime` shows that this never blocks
time). A connection that closed stays closed. Mutexes are not poisoned, tasks do not panic, memory
suffices. Who gets a contended lock next is left open, so every order is covered. Only the outage bound
assumes that the wall clock does not go back.

Probe results, process results, dial and stream failures, closes, lost replies, time and the contents
of streams are parameters or steps of the environment, and arbitrary.

## Model

| member | source | states |
|---|---|---|
| HistoryLog.AnnotatedPrefix | crates/sshe-node/src/history.rs:47-54 | what is stored is never rewritten by later insertions, into its own series or another |
| HistoryLog.StoredKeepsRecords | crates/sshe-node/src/history.rs:47-54 | a stored record is the inserted one but for its last-success stamp, which is its series' last success up to and including itself |
| HistoryLog.LastSuccessIsLatest | crates/sshe-node/src/history.rs:11-15 | a series' last success is the observation time of its latest successful record in the whole log, and absent exactly if none succeeded |
| HistoryLog.SameSeries | crates/sshe-node/src/history.rs:37-38 | records share a series exactly if kind, method and target agree |
| RecordOrder.KeysOfIncreasing | crates/sshe-node/src/history.rs:5-8 | series are visited in strictly increasing order of kind, method and target |
| RecordOrder.KeyOrder | crates/sshe-node/src/history.rs:7 | keys differ in order by kind as declared, then by method, then by target, text by its first difference |
| RecordOrder.StableSortIsTheOne | crates/sshe-node/src/history.rs:67 | the sort orders by observation time and keeps ties in place, and it is the only sequence that does |
| RecordOrder.StableSortContents | crates/sshe-node/src/history.rs:67 | sorting loses and duplicates nothing |
| History.History.constructor | crates/sshe-node/src/history.rs:30-35 | an empty history; a capacity of zero becomes one |
| History.History.Insert | crates/sshe-node/src/history.rs:36-56 | the bounded series keep agreeing with the unbounded log; the stamp and the transition are those of the unbounded log |
| History.History.Collect | crates/sshe-node/src/history.rs:59-66 | gathers the matching retained records, series by series in key order |
| History.History.Query | crates/sshe-node/src/history.rs:57-70 | returns the answer that the unbounded log defines |
| History.RetainedSnoc | crates/sshe-node/src/history.rs:47-54 | dropping the front of a full series before a push leaves exactly the last `capacity` records, with the last success of the whole log, and no other series changes |
| History.CandidatesAreExact | crates/sshe-node/src/history.rs:59-66 | a query's candidates of a series are exactly its retained records of the asked kind whose target or label is asked about, each once and in their order |
| History.CandidatesOrdered | crates/sshe-node/src/history.rs:61-63 | candidates come in one block per series, blocks in key order |
| History.AnswerIsMostRecent | crates/sshe-node/src/history.rs:57-70 | the answer is the last min(limit, 1000, matches) elements of the one stable ordering; sorted, no omitted match newer than a returned one, ties in series then insertion order |
| Timeline.EventsAreSeparable | crates/sshe-node/src/sampling/log.rs:4-35 | the events of a series depend on its own records only, however insertions interleave |
| Timeline.TimelineIsRunLengthEncoding | crates/sshe-node/src/sampling/log.rs:10-34 | per series, the events rebuild every success flag, there is one per maximal run of equal flags, and failures alternate with successes |
| Timeline.RecoveryIffOutageEnds | crates/sshe-node/src/sampling/log.rs:19-25 | a recovery is reported exactly where a series' success follows its failure |
| Timeline.OutageBound | crates/sshe-node/src/sampling/log.rs:17-25 | the reported seconds are those since the success before the outage, never negative, and so at least those since its first failure if timestamps are in order; absent exactly if nothing had succeeded before |
| Sampling.StepInv | crates/sshe-node/src/sampling.rs:75-124 | every step of every caller keeps the invariant that ties slots, rounds, callers, history and deadlines together |
| Sampling.RunInv | crates/sshe-node/src/sampling.rs:75-124 | the invariant holds after any run |
| SamplingSafety.SingleFlight | crates/sshe-node/src/sampling.rs:82-110 | a kind has at most one live leader, and its slot holds exactly that leader's live, unpublished round |
| SamplingSafety.FollowableIffLed | crates/sshe-node/src/sampling.rs:83-85 | the slot offers a round to follow if and only if some caller leads the kind, and then that caller's |
| SamplingSafety.JoinDecides | crates/sshe-node/src/sampling.rs:82-94 | a caller follows the live leader, or is turned away exactly if it asked for due work within one interval of the last publication, or leads a fresh round |
| SamplingSafety.WhatCallersCanDo | crates/sshe-node/src/sampling.rs:95-121 | which steps a caller can take is decided by its phase, and for a waiting follower by its round; past its last await a leader cannot be dropped |
| SamplingSafety.PublishedIsWork | crates/sshe-node/src/sampling.rs:96-110 | in every run a round publishes what its own probe brought: an error as it is, records as history stored them, all and in order; history holds for the round what the probe brought, or nothing |
| SamplingSafety.RunLater | crates/sshe-node/src/sampling.rs:22-24 | over any run, history and publications only grow, results are never replaced, closed rounds stay empty and callers keep their round |
| SamplingSafety.DroppedRoundStaysEmpty | crates/sshe-node/src/sampling.rs:95-119 | once a leader is dropped, no run publishes or records its round |
| SamplingSafety.Agreement | crates/sshe-node/src/sampling.rs:108-122 | all callers of a round end with the same verdict |
| SamplingSafety.Freshness | crates/sshe-node/src/sampling.rs:81-122 | a result is that of exactly one publication, of the caller's own kind and round, made after the caller started |
| SamplingSafety.CancelledRoundOnlyCancels | crates/sshe-node/src/sampling.rs:116-121 | a follower of a cancelled round is told so and nothing else, whatever happens next |
| SamplingSafety.PublishedRoundOnlyDelivers | crates/sshe-node/src/sampling.rs:112-122 | a caller of a published round gets its value and nothing else, whatever happens next |
| SamplingSafety.FollowersDoNotHang | crates/sshe-node/src/sampling.rs:112-122 | a follower can go on now, or a live leader of its very round still owes the answer |
| SamplingSafety.RecordedExactlyOnce | crates/sshe-node/src/sampling.rs:97-110 | a round with records is in history exactly once from the moment its leader has written it; failed, cancelled and running rounds not at all |
| SamplingSafety.SeenMeansRecorded | crates/sshe-node/src/sampling.rs:97-110 | nobody sees records before history holds the identical ones, in one whole batch |
| SamplingSafety.HistoryIsWholeRounds | crates/sshe-node/src/sampling.rs:98-102 | history is a concatenation of whole rounds, each there once; kinds mix at round boundaries only |
| SamplingSafety.DeadlineFollowsLastPublication | crates/sshe-node/src/sampling.rs:105-107 | a kind's deadline is unset until it first publishes and then always one interval after its own last publication |
| SamplingSafety.ScheduledRate | crates/sshe-node/src/sampling.rs:87-107 | in any stretch of a kind's publications, those led by the timer after the first take one interval each, whatever the manual traffic |
| Sampler.Sampler.constructor | crates/sshe-node/src/sampling.rs:39-48 | a slot for every kind, all empty, and an empty history of the configured size |
| Sampler.Sampler.Join | crates/sshe-node/src/sampling.rs:81-94 | the code under the slot's lock takes the join step and tells the caller the matching way on |
| Sampler.Sampler.InsertAll | crates/sshe-node/src/sampling.rs:99-102 | the record loop stores the whole batch in order, stamps it like the unbounded log, and emits its timeline |
| Sampler.Sampler.WriteHistory | crates/sshe-node/src/sampling.rs:97-103 | writing a round takes the write step; the leader goes on with the stored records |
| Sampler.Sampler.Publish | crates/sshe-node/src/sampling.rs:104-110 | moving the deadline, sending and clearing the slot are one step |
| Sampler.Sampler.Return | crates/sshe-node/src/sampling.rs:110 | returning drops the sender, which closes the channel |
| Sampler.Sampler.Read | crates/sshe-node/src/sampling.rs:113-115 | a follower's look at its channel ends its call with the round's value or makes it wait |
| Sampler.Sampler.Wake | crates/sshe-node/src/sampling.rs:116-121 | a waiter wakes to look again if the value changed and is told of the cancellation otherwise |
| Sampler.Sampler.Cancel | crates/sshe-node/src/sampling.rs:95-121 | dropping a caller closes its channel if and only if it held the sender; slot, history and deadline stay |
| Scheduler.PlayOk | crates/sshe-node/src/scheduler.rs:12-40 | after any run there is one timer per distinct configured kind, and each timer's account of iterations balances |
| Scheduler.NeverSpins | crates/sshe-node/src/scheduler.rs:23-40 | a timer's completed iterations number at most its kind's publications plus the distinct rounds that were cancelled while one of its own callers followed them |
| Scheduler.ManualProbesDoNotEnroll | crates/sshe-node/src/scheduler.rs:14-18 | only configured kinds are ever published by a timer |
| Scheduler.ScheduledMeansTimer | crates/sshe-node/src/sampling.rs:64-73 | a publication counts as scheduled exactly if a timer led its round |
| Scheduler.LoopsAreIterations | crates/sshe-node/src/scheduler.rs:25-39 | the count that the bound is about is the number of deadline changes seen and returns from sampling |
| Scheduler.WhenTimersWake | crates/sshe-node/src/scheduler.rs:26-31 | a waiting timer starts over exactly if there is a publication it has not seen, and else fires at once if there never was one and one interval after the last one if so |
| Scheduler.WhatTimersCanDo | crates/sshe-node/src/scheduler.rs:25-38 | a timer looks at its deadline at the top, returns from sampling when its caller has, and can be stopped exactly where it awaits |
| Scheduler.WhereTimersGo | crates/sshe-node/src/scheduler.rs:25-38 | a look at the deadline has seen every publication so far; a change or a return goes back to the top; a timer that goes off samples under an id of its own |
| Scheduler.OthersCanProceed | crates/sshe-node/src/sampling.rs:54-73 | timers keep no manual caller and no leader from any step |
| Scheduler.PlayIsReachable | crates/sshe-node/src/scheduler.rs:31-36 | timers reach no sampler state that callers could not, so every sampling theorem holds under scheduling |
| TimerLoop.TimerLoop.constructor | crates/sshe-node/src/scheduler.rs:23-24 | a loop that has not looked at its deadline yet |
| TimerLoop.TimerLoop.BorrowAndUpdate | crates/sshe-node/src/scheduler.rs:26 | reads the deadline and marks it seen; a kind never published is due at once |
| TimerLoop.TimerLoop.DeadlineChanged | crates/sshe-node/src/scheduler.rs:28-30 | a deadline that moved restarts the loop and completes an iteration |
| TimerLoop.TimerLoop.Fire | crates/sshe-node/src/scheduler.rs:31-34 | a timer that went off joins the sampler for due work only |
| Dialer.StepInv | crates/sshe-node/src/transport.rs:139-215 | every step keeps the invariant that ties locks, cache, connections, calls and streams together |
| Dialer.RunInv | crates/sshe-node/src/transport.rs:139-215 | the invariant holds after any run |
| DialerSafety.ExecWrittenAtMostOnce | crates/sshe-node/src/transport.rs:145-158 | an exec goes out on at most one stream, any other request on at most two |
| DialerSafety.HonestVerdict | crates/sshe-node/src/transport.rs:159-166 | a reply to an exec means one write; an error other than "outcome unknown" means that it was never submitted; "outcome unknown" means one submission, at most one write, and none if it exceeds a frame |
| DialerSafety.UnknownSaysNoMore | crates/sshe-node/src/transport.rs:206-214 | for every size, "outcome unknown" can come after n writes if and only if n is 0, or n is 1 and the request fits a frame |
| DialerSafety.OversizedExecIsUnknownButUnsent | crates/sshe-node/src/transport.rs:206-210 | a run in which an oversized exec ends as "outcome unknown" with nothing sent |
| DialerSafety.OnlyCachedIsOpen | crates/sshe-node/src/transport.rs:106-112 | of all connections ever made to a peer only the cached one can be open |
| DialerSafety.OneDialPerPeer | crates/sshe-node/src/transport.rs:108-111 | at most one dial per peer is in progress |
| DialerSafety.DialsAreEarned | crates/sshe-node/src/transport.rs:182-187 | successful dials to a peer number at most one more than its closed connections |
| DialerSafety.SafeRetry | crates/sshe-node/src/transport.rs:145-158 | at most two exchanges, the second on another connection and only after the first closed |
| DialerSafety.RetryDecision | crates/sshe-node/src/transport.rs:146-166 | after any failure, expiry included, a call queues again if and only if its reused connection is closed, the error is a lost connection, nothing could run twice and time is left; otherwise it returns the matching error; locks, cache and streams are untouched |
| DialerSafety.BeginDecides | crates/sshe-node/src/transport.rs:134-181 | a call for a configured peer queues with its whole budget, any other ends as invalid; nothing else changes |
| DialerSafety.LockDecides | crates/sshe-node/src/transport.rs:182-185 | an open cached connection is reused and the lock let go; otherwise the call dials under the lock, on what is left of the same phase |
| DialerSafety.DialedDecides | crates/sshe-node/src/transport.rs:185-187 | a dialed connection is cached and used, and does not count as reused |
| DialerSafety.ConnectingFails | crates/sshe-node/src/transport.rs:175-189 | a failed dial ends the call with its error, an expired wait or dial with a timeout; the lock is free and the cache as it was |
| DialerSafety.OpenedDecides | crates/sshe-node/src/transport.rs:206-214 | an open stream means one submission unless the budget is gone; an oversized request ends there, with the matching error |
| DialerSafety.WhatCallsCanDo | crates/sshe-node/src/transport.rs:169-214 | which steps a call can take is decided by its phase, the lock, its connection and the clock; no call is stuck |
| DialerSafety.OnlyExecsAreUnknown | crates/sshe-node/src/transport.rs:67-78 | only an exec is told that its outcome is unknown |
| DialerSafety.LiveConnectionIsKept | crates/sshe-node/src/transport.rs:182-187 | nothing but its own closing makes the dialer replace a live cached connection, in any run |
| DialerSafety.ClosedCarriesNothingNew | crates/sshe-node/src/transport.rs:182-212 | a closed connection stays closed, and in no run does another request go out on it |
| DialerSafety.WithinBudget | crates/sshe-node/src/transport.rs:53-65 | every call, queueing and retry included, ends within the call timeout, and no phase starts after the deadline |
| DialerSafety.EveryPhaseHasItsLimit | crates/sshe-node/src/transport.rs:53-65 | every phase, of a retry too, ends after its own 30, 15 or 65 seconds, or when the call's 110 seconds are over if that is sooner |
| DialerSafety.FirstAttemptHasFullPhases | crates/sshe-node/src/transport.rs:35-36 | the shared deadline never shortens a phase of a first attempt |
| DialerSafety.SlowestWorkFits | crates/sshe-node/src/transport.rs:25-28 | a first attempt outwaits the slowest exec a server may run, with the margin to spare |
| DialerSafety.BudgetIsTight | crates/sshe-node/src/transport.rs:36 | a run in which dialing and opening use up their limits and the RPC phase ends exactly at the call's deadline |
| DialerSafety.CliOutwaitsDaemon | crates/sshe-node/src/transport.rs:37-39 | a daemon that starts the call within the margin has its result before the CLI gives up |
| DialerSafety.TimersUnblockTime | crates/sshe-node/src/transport.rs:42-50 | whenever time cannot pass, some timer is due and can fire |
| PeerCache.PeerCache.constructor | crates/sshe-node/src/transport.rs:121-126 | one free lock with an empty cache per peer |
| PeerCache.PeerCache.Begin | crates/sshe-node/src/transport.rs:134-181 | a call queues for its peer with the full dialing limit, or returns an error if the peer is not configured |
| PeerCache.PeerCache.Lock | crates/sshe-node/src/transport.rs:176-185 | an open cached connection is reused and the lock let go; otherwise the lock is kept to dial |
| PeerCache.PeerCache.Dialed | crates/sshe-node/src/transport.rs:185-187 | the new connection is cached and the lock let go |
| PeerCache.PeerCache.Unlock | crates/sshe-node/src/transport.rs:175-189 | a failed, expired or dropped dial releases the lock and leaves the cache as it was |
| PeerCache.PeerCache.GiveUp | crates/sshe-node/src/transport.rs:175-189 | a call that expires while it waits for the lock, or is dropped without holding it, ends and touches nothing |
| PeerCache.PeerCache.AfterFailure | crates/sshe-node/src/transport.rs:146-166 | the retry guard, evaluated after a failure or an expiry, decides as the model does, and a final error carries the right verdict |
| PeerCache.PeerCache.Submit | crates/sshe-node/src/transport.rs:206-208 | a request is submitted exactly if the budget is not used up, and nothing is on the wire yet |
| PeerCache.PeerCache.Write | crates/sshe-node/src/transport.rs:209 | the first byte goes out only while the connection is open |
| PeerCache.PeerCache.Close | crates/sshe-node/src/transport.rs:182-184 | a closed connection stays cached until the next caller looks |
| Admission.StepInv | crates/sshe-node/src/daemon.rs:78-119 | every step of peers, local clients and the daemon conserves slots and permits and keeps the dispatch record |
| Admission.RunInv | crates/sshe-node/src/daemon.rs:78-119 | the invariant holds after any run |
| Admission.Conservation | crates/sshe-node/src/daemon.rs:70-80 | free plus held is the limit for connection slots, local slots, peer permits and local permits |
| Admission.BusyMeansSaturatedAndNotRun | crates/sshe-node/src/server.rs:59-63 | a peer request is refused if and only if all peer permits run requests, and then it is never dispatched |
| Admission.LocalBusyMeansSaturatedAndNotRun | crates/sshe-node/src/server.rs:74-81 | the same for local requests and the local permits |
| Admission.DispatchedAtMostOnce | crates/sshe-node/src/server.rs:59-65 | every received request is dispatched at most once, and one answered busy not at all |
| Admission.ReleasedMeansServed | crates/sshe-node/src/server.rs:49-50 | a connection's slot is free only after every request received on it was refused or ran to completion |
| Admission.ClosedConnectionDrains | crates/sshe-node/src/server.rs:33-51 | after a close no run brings another request on that connection; while the daemon is up it drains, can end exactly when all its requests are over, and then frees exactly its own slot |
| Admission.StreamLife | crates/sshe-node/src/server.rs:53-66 | a peer request is read or not, runs or is refused, and is answered or not, in this order, each by its own step only |
| Admission.LocalLife | crates/sshe-node/src/server.rs:69-83 | the same for a local request, which is dropped unread exactly if no local slot is free |
| Admission.RequestsCanProceed | crates/sshe-node/src/server.rs:59-65 | while the daemon is up no request is stuck; its phase alone decides what it can do |
| Admission.ConnectionsCanProceed | crates/sshe-node/src/server.rs:19-41 | a connection is served or turned away while it shakes hands, and takes requests or closes while served |
| Admission.PeersDoNotAffectLocals | crates/sshe-node/src/daemon.rs:3-6 | deleting all that peers do from a run changes nothing for local requests |
| Daemon.Daemon.constructor | crates/sshe-node/src/daemon.rs:70-80 | the four semaphores at their limits |
| Daemon.Daemon.AdmitPeer | crates/sshe-node/src/daemon.rs:98-107 | a handshake is admitted if and only if fewer than 64 connections are held |
| Daemon.Daemon.EndHandshake | crates/sshe-node/src/daemon.rs:169-180 | after a failed handshake there is room for another connection |
| Daemon.Daemon.Serve | crates/sshe-node/src/server.rs:19-32 | a listed peer's connection is served and keeps its slot |
| Daemon.Daemon.Push | crates/sshe-node/src/server.rs:35-36 | an accepted stream joins its connection's in-flight requests |
| Daemon.Daemon.TryRunPeer | crates/sshe-node/src/server.rs:60-63 | a request runs unless all peer permits are taken by running requests |
| Daemon.Daemon.ReleasePeer | crates/sshe-node/src/server.rs:60-64 | once a dispatch is over, and before its reply is written, the next peer request can run |
| Daemon.Daemon.Pop | crates/sshe-node/src/server.rs:42-46 | a finished request leaves the in-flight set, whatever became of its reply |
| Daemon.Daemon.PeerClosed | crates/sshe-node/src/server.rs:37-40 | a close starts draining and cuts no request off |
| Daemon.Daemon.TryEndDrained | crates/sshe-node/src/server.rs:49-51 | after a close the connection's task ends if and only if nothing is in flight |
| Daemon.Daemon.AdmitLocal | crates/sshe-node/src/daemon.rs:113-116 | a local connection is admitted if and only if fewer than twice the maximum are open |
| Daemon.Daemon.TryRunLocal | crates/sshe-node/src/server.rs:75-80 | a local request runs unless all local permits are taken by running local requests |
| Daemon.Daemon.ReleaseLocal | crates/sshe-node/src/server.rs:75-82 | once a dispatch is over, and before its reply is written, the next local request can run |
| Daemon.Daemon.EndLocal | crates/sshe-node/src/daemon.rs:184-188 | after a local connection is over there is room for another |
| Daemon.Daemon.Stop | crates/sshe-node/src/daemon.rs:120-123 | stopping aborts every task and gives back every slot and permit |
| EndToEnd.FollowOk | crates/sshe-node/src/client.rs:42-122 | every move of CLIs, daemon, dialers and target keeps the invariant of the whole, including what the daemon answers and where replies come from |
| EndToEndSafety.WrittenAtMostOnce | crates/sshe-node/src/client.rs:49-56 | one exec invocation is written to a peer at most once over both ways, and the ways exclude each other |
| EndToEndSafety.OneCarrier | crates/sshe-node/src/transport.rs:207-212 | all streams that carry one exec are the same stream |
| EndToEndSafety.RunsAtMostWrites | crates/sshe-node/src/server.rs:53-66 | the target runs an exec at most as often as it was written |
| EndToEndSafety.ExecRunsAtMostOnce | crates/sshe-node/src/client.rs:42-57 | one exec invocation runs at most once anywhere, in process or on the target, over every interleaving and failure |
| EndToEndSafety.NothingRunsUnsent | crates/sshe-node/src/server.rs:59-61 | what the target dispatches was written on a connection to it, by a sender's call that was for it |
| EndToEndSafety.FallbackOnlyIfUnasked | crates/sshe-node/src/client.rs:75-95 | a CLI falls back to its own endpoint only if its request never went to the daemon, which then never acts on it |
| EndToEndSafety.CliVerdictIsHonest | crates/sshe-node/src/client.rs:42-95 | `invoke` returns an error other than "outcome unknown" for a remote exec only if it was never written to a peer and never ran |
| EndToEndSafety.UnknownMeansSubmittedOnce | crates/sshe-node/src/client.rs:89-94 | `invoke` returns "outcome unknown" for a remote exec only after one submission, to a peer on an own endpoint or else to the daemon; the daemon was asked if and only if the local request fits a frame |
| EndToEndSafety.ResponseTellsRuns | crates/sshe-node/src/server.rs:68-91 | a served exec was written once and ran once on the peer it was for; a busy one did not run; one the daemon could not forward was never written and did not run, unless it says "outcome unknown", and then it was submitted once |
| EndToEndSafety.ForwardedIffAdmitted | crates/sshe-node/src/server.rs:74-91 | the daemon calls the peer for a remote request exactly if it was not refused and the alias is known, as what it is and to whom it is |
| EndToEndSafety.AnswerWithoutCall | crates/sshe-node/src/server.rs:75-90 | an answer without a call is a refusal, or comes of an unknown alias |
| EndToEndSafety.LocalStaysHere | crates/sshe-node/src/client.rs:42-57 | a request for this node is never sent to a peer; an exec runs once in the CLI's process and asks no daemon; an answer tells whether the daemon dispatched it |
| EndToEndSafety.OnlyRemoteExecsAreUnknown | crates/sshe-node/src/client.rs:89-94 | only a remote exec is reported as "outcome unknown" |
| EndToEndSafety.HowClisStart | crates/sshe-node/src/client.rs:26-48 | an exec or health check of this node runs in process and nowhere else; every other request asks the daemon first |
| EndToEndSafety.HowClisFallBack | crates/sshe-node/src/client.rs:49-56 | without a daemon, other probes of this node than `peers` run in process, a known alias is called from an own endpoint, and history is not to be had |
| EndToEndSafety.HowClisEnd | crates/sshe-node/src/client.rs:89-122 | a CLI that asked takes the daemon's answer once there is one; one with an own endpoint takes its call's result |
| EndToEndSafety.WhatTheDaemonCanDo | crates/sshe-node/src/server.rs:69-83 | the daemon reads what it let in, and finishes it exactly when its call, if any, is over |
| EndToEndSafety.RefusedIsNotForwarded | crates/sshe-node/src/server.rs:68-81 | a request that the busy daemon refused is not sent on and does not run |
| EndToEndRuns.ExecCanRun | crates/sshe-node/src/client.rs:42-122 | the bound of one is reached by either way, through the daemon and on an own endpoint: an exec can be written once, run once and be answered, whether its dispatch succeeds or fails |
| EndToEndRuns.OversizedLocalIsUnknownButUnasked | crates/sshe-node/src/client.rs:89-94 | for every larger local request, a run that ends as "outcome unknown" with the daemon never asked |
| Codec.ReadExact | crates/sshe-protocol/src/codec.rs:10 | fills the buffer from arbitrarily short reads, or fails exactly if the stream ends first, with the error the stream ends in |
| Codec.ReadFrame | crates/sshe-protocol/src/codec.rs:5-10 | payload, error and remaining input are those of the frame grammar, on every input and for every way the stream may end |
| Codec.ReadMessage | crates/sshe-protocol/src/codec.rs:4-12 | a frame whose payload does not parse is an error that consumes the frame |
| Codec.EveryReadEnds | crates/sshe-protocol/src/codec.rs:4-12 | every input ends in exactly one of four ways: a message, one that does not parse, one too long, or one cut short, each with its own error and remainder |
| Codec.WriteFrame | crates/sshe-protocol/src/codec.rs:16-22 | an oversized payload is refused before the first byte; otherwise the frame goes out as far as the stream takes it, and succeeds if it all went out and was flushed |
| Codec.WriteMessage | crates/sshe-protocol/src/codec.rs:14-23 | a message that cannot be encoded or exceeds a frame sends nothing |
| Codec.U32RoundTrip | crates/sshe-protocol/src/codec.rs:5-19 | the length prefix reads back as written |
| Codec.ReadsExactlyFrames | crates/sshe-protocol/src/codec.rs:4-23 | a payload is read with a given remainder if and only if the input is its frame followed by that remainder |
| Codec.StreamRoundTrip | crates/sshe-protocol/src/codec.rs:4-23 | reading what the writer sent for any list of messages gives back that list and the untouched remainder, for every encoding that parses back |
| Codec.ProperPrefixFails | crates/sshe-protocol/src/codec.rs:5-10 | every proper prefix of a frame is an error |
| Codec.OversizedConsumesHeader | crates/sshe-protocol/src/codec.rs:5-8 | a declared length over the limit is refused with only the header consumed |
| ExecReply.ReadOutput | crates/sshe-core/src/exec.rs:24-34 | returns the whole output if it is within the limit and reads to its end, never reading more than one byte past the limit, so that a failure behind it goes unnoticed |
| ExecReply.Execute | crates/sshe-core/src/exec.rs:36-66 | succeeds if and only if the timeout is valid, the command could be spawned and waited for, ended in time and both outputs are whole and within the limit, and then returns them unchanged |
| ExecReply.ByteArrayBound | crates/sshe-protocol/src/message.rs:67-74 | n bytes written as a JSON number array (section 5 of RFC 8259) take at most 4n + 1 characters, two if n is zero |
| ExecReply.ByteArrayBoundIsTight | crates/sshe-protocol/src/message.rs:67-74 | the bound is reached by every nonempty array of three-digit bytes |
| ExecReply.ReplyFits | crates/sshe-protocol/src/limits.rs:3-4 | every reply that the output limit allows fits a frame |
| ExecReply.ReplyTextIsInjective | crates/sshe-protocol/src/message.rs:67-74 | the reply loses nothing: no two results are written as the same text |
| ExecReply.SendReply | crates/sshe-protocol/src/codec.rs:14-23 | the reply to a command that ran is never refused for its size |

## Left out

- QUIC, handshakes, relays and address lookup: only their outcomes appear, as environment steps.
- Probing of host, network, services and peers: a round's records are an arbitrary list.
- Process spawning, signals and killing: ExecReply has the bounded output and the shape of the result.
- Configuration, identity keys and locks, socket setup and file permissions: I/O without deep properties.
- JSON itself: messages are bytes or opaque values, except in the size bound of the exec reply.
- CLI arguments, rendering, exit codes, log text, and the separate `ssher` program.
- `scheduler::run` waits up to ten seconds for the endpoint before its timers start; the model starts them at once.
- Health, probe and history requests are dispatched like an exec but their handlers are not modelled.
- ExecReply.Execute: the two outputs are read one after the other and not concurrently, so which of several errors is reported is not modelled; whether spawning, waiting and the time limit succeed is a parameter.
- Codec.ReadMessage: parsing is a parameter, any function from payloads to messages or failure; so is encoding in Codec.WriteMessage.
- EndToEnd.FollowOk: each dialer keeps its own clock, so the CLI's local timeout is a failure that may come at any moment; one target node is followed at a time; a request between sender and target may be lost or arrive at any later time, but is not forged, and a reply from that node is one it made; what other peers reply is arbitrary.
- A frame may not hold 1000 history records: record sizes are unbounded in the code, so no property is stated.
- With a temporary endpoint, `probe peers` on this node also dispatches in process; only the remote case is modelled.
