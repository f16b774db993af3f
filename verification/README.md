# IPA resource manager, inactivity timer and QMI messages: a verified model

This project models three parts of the system in Dafny and proves what they keep.

**The IPA resource manager** (`RmModel.dfy`, `ResourceManager.dfy`). Producers depend on
consumers. A producer is granted when all its consumers are; consumers count the active
producers that use them and add up their bandwidth; drivers answer a request or a release
at once or later; suspends and resumes are deferred to a single-threaded workqueue, so new
calls interleave with stale work; a vote table is updated at every change and its
aggregates are sent to the IPA driver. `RmModel` gives the state as one value and the effect
of every C function as a function on it. `ResourceManager.Manager` is the program: tables
updated in place, with the loops of the source, each method proved to compute its function.
The number of resource names is a parameter; even names are producers, odd names consumers,
names 11 and 13 are reserved. Bandwidths are 32-bit words that wrap around.

What is proved about the functions, and so about the program:

- `RmStructure.dfy`: what holds in every run, whatever the drivers answer.
- `RmCharges.dfy`: usage counts and demands are sums over the active producers, and exactly
  which steps break them, for any driver answers.
- `RmGrants.dfy`: grant safety and exact pending counts, and the exact condition for them.
- `RmLedger.dfy`: announced votes, the vote table, clock votes across the queue, and the
  promises that keep a consumer from resting halfway.
- `RmAccounts.dfy`: what deleting and creating a consumer does to its votes, exactly, and with
  it the account of every step.
- `RmOutcomes.dfy`, `RmEffects.dfy`, `RmUpkeep.dfy`, `RmRemoval.dfy`: the outcome of every call and of every
  turn of the thread in every case, entry by entry: an entry is all that the manager holds about one name, and
  what a call does to one name depends on that name, the caller and one answer. Only the queued notifications of
  the IPA driver are left to `RmRuns.RunAnnounced`, and edges of other names to `RmStructure.EdgeSurvives`.
- `RmRuns.dfy`: the main theorems over whole runs, the workqueue drained, the manager at rest.
- `RmCounterexamples.dfy`: runs that show that each condition is needed.

Four conditions on runs appear in the statements. *No refusal* (`Refused`): no driver fails that a
producer's request has asked, at once or in a queued handler. *No rash step* (`Rash`): no edge to
a granted consumer is deleted while its producer waits, and no failing handler puts back a state
that users have seen change. *No stale deletion* (`Stale`): no consumer is deleted whose votes are
not taken back. These three are exact: the step theorems are equivalences, the first two for any
driver answers (the second among steps that are not refused). *No driver fails* (`GoodOp`), callbacks return 0 or -EINPROGRESS, is asked for
votes, promises and resting states. The clock votes then need no condition on deletions: what
these leave is counted (`Strayed`). Resting states need a run without rash steps, and only for producers.

One step is one region that the source executes under its lock. A work item is two steps,
because the handlers of resumes and suspends move the clock vote before they take the lock.
The answers of the outside world are parameters: whether a clock call succeeds without
blocking, what the driver callbacks return, when delayed work expires. A peers list slot
holds the identity of the allocation it points at, so that a pointer to a deleted resource
would differ from one to its successor of the same name.

**The inactivity timer** (`InactivityTimer.dfy`, `InactivityTimers.dfy`): the flag machine of one
timer over timed traces, and the table of timers on top of the resource manager;
`TimerCalls.dfy` carries the bounds of one timer over to what reaches the manager.

**QMI messages** (`Qmi.dfy`, `ServingSystem.dfy`): builders that write into a caller's buffer,
the scanner of type-length-value elements, and the decoding of the serving system.

`dafny verify dfyconfig.toml` checks the whole project.

Where comments and code differ, the model follows the code. The timer's comment says that a
request cancels the timer; the code lets the work expire and then does not release. The
comment in the NAS stage places the interface list inside element 0x01; the code checks the
count against the message only (`ServingSystem.ListedBeyondElement`).

## Model

| member | source | states |
|---|---|---|
| `RmRuns.GrantSafety` | vendor-baseline-4.19/drivers/platform/msm/ipa/ipa_rm_resource.c:609-989 | In every run from initialisation, whatever the drivers answer, in which none refuses a producer's request and no step is rash (no edge to a granted consumer deleted while its producer waits, no failing handler putting back a state that users have seen change), a granted producer has every consumer it depends on granted |
| `RmRuns.GrantStable` | vendor-baseline-4.19/drivers/platform/msm/ipa/ipa_rm_resource.c:141-264 | While a producer stays active and keeps its edge to a granted consumer, no step of anybody else (other producers, timers, stale work items) takes the consumer out of the granted state |
| `RmRuns.GrantStableRun` | vendor-baseline-4.19/drivers/platform/msm/ipa/ipa_rm_resource.c:141-264 | The same over every run, with any deletions elsewhere |
| `RmGrants.StepGrants` | vendor-baseline-4.19/drivers/platform/msm/ipa/ipa_rm_resource.c:749-762 | Any step with any driver answers but a refusal, from a state in which sums, grants and pending counts are right, keeps grants and counts right if and only if it is not rash in that sense |
| `RmRuns.PendingExact` | vendor-baseline-4.19/drivers/platform/msm/ipa/ipa_rm_resource.c:821-854 | In the same runs a waiting producer's pending count is exactly the number of its consumers still in progress, and there is at least one: no producer is stuck |
| `RmGrants.RequestOutcome` | vendor-baseline-4.19/drivers/platform/msm/ipa/ipa_rm_resource.c:797-863 | Requesting a released producer that no consumer refuses moves each of its consumers as its driver answered and no other consumer, and grants the producer if and only if all of them are granted |
| `RmGrants.HandleCbGrants` | vendor-baseline-4.19/drivers/platform/msm/ipa/ipa_rm_resource.c:931-1050 | A completion, granted or released, keeps grants and pending counts right |
| `RmGrants.HandleCbOutcome` | vendor-baseline-4.19/drivers/platform/msm/ipa/ipa_rm_resource.c:942-958 | When a consumer becomes granted, exactly those waiting producers become granted that depend on it and on nobody else still in progress |
| `RmGrants.PrematureBreaks` | vendor-baseline-4.19/drivers/platform/msm/ipa/ipa_rm_resource.c:749-762 | Deleting an edge to a granted consumer of a waiting producer leaves its pending count one short of the consumers it waits for |
| `RmGrants.DeleteResourceGrants` | vendor-baseline-4.19/drivers/platform/msm/ipa/ipa_rm_resource.c:440-506 | Deleting a resource keeps grants and counts if and only if it is not a granted consumer that a waiting producer depends on |
| `RmCounterexamples.UnsafeGrant` | vendor-baseline-4.19/drivers/platform/msm/ipa/ipa_rm_resource.c:749-762 | A concrete run with well-behaved drivers that ends with a granted producer that depends on a consumer still in progress |
| `RmCounterexamples.StuckProducer` | vendor-baseline-4.19/drivers/platform/msm/ipa/ipa_rm_resource.c:749-762 | A concrete run with well-behaved drivers: after a rash deletion and an emptied queue a producer waits with a pending count of zero although everything it depends on is granted |
| `RmRuns.UsageExact` | vendor-baseline-4.19/drivers/platform/msm/ipa/ipa_rm_resource.h:63-82 | In every run in which no driver refuses a producer's request, whatever else they answer, the usage count of a consumer is the number of active producers that depend on it, its demand is the 32-bit sum of their maxima, and a used consumer is active |
| `RmRuns.DemandCovers` | vendor-baseline-4.19/drivers/platform/msm/ipa/ipa_rm_resource.c:652-655 | While that sum fits in 32 bits, a release never subtracts more demand than is there |
| `RmCharges.StepCharged` | vendor-baseline-4.19/drivers/platform/msm/ipa/ipa_rm_resource.c:141-264 | Whatever the drivers answer, a step keeps usage and demand of every consumer equal to the sums over the edges of active producers if and only if it is not refused: no released consumer of a requested producer or of a new edge fails at once, and no handler fails that takes back what is in use. A failing release breaks nothing |
| `RmCharges.RequestEffect` | vendor-baseline-4.19/drivers/platform/msm/ipa/ipa_rm_resource.c:141-207 | Effect lemma, a reading of the function: next state, demand, usage and result of a consumer request that is not refused, and that no other record changes |
| `RmCharges.RefusedEffect` | vendor-baseline-4.19/drivers/platform/msm/ipa/ipa_rm_resource.c:111-207 | A refused consumer request leaves every record as it was: what it has added it takes back |
| `RmCharges.ReleaseEffect` | vendor-baseline-4.19/drivers/platform/msm/ipa/ipa_rm_resource.c:209-264 | Effect lemma, a reading of the function: what a consumer release does to the consumer with any driver answer, and that no other record changes |
| `RmCounterexamples.RefusalUncharges` | vendor-baseline-4.19/drivers/platform/msm/ipa/ipa_rm_resource.c:836-841 | A concrete run: a driver that refuses leaves the producer waiting for nobody while its consumer counts no user, so the usage count is wrong: the condition is needed |
| `RmRuns.ClocksExact` | vendor-baseline-4.19/drivers/platform/msm/ipa/ipa_rm.c:790-858 | In every run without driver failure, whatever it deletes: clock votes held plus queued resumes minus queued suspends are one for an active consumer and none for another (of a deleted consumer the resumes do not count), plus exactly the votes that deletions of the name have left, which are known in closed form |
| `RmRuns.ClocksConserved` | vendor-baseline-4.19/drivers/platform/msm/ipa/ipa_rm.c:790-858 | So for a consumer that is never deleted they are exactly one or none, for any interleaving |
| `RmAccounts.StepClocks` | vendor-baseline-4.19/drivers/platform/msm/ipa/ipa_rm.c:132-168 | One step changes that account by nothing, unless it deletes the consumer (one more if only a timer held it, one less for each resume pending) or creates its name again (the pending resumes back) |
| `RmRuns.DeletedClock` | vendor-baseline-4.19/drivers/platform/msm/ipa/ipa_rm.c:790-858 | After deleting a consumer that is not created again, whatever happens then, the emptied queue leaves one clock vote if only a timer held it, less one for each resume that was queued or in hand |
| `RmCounterexamples.VoteNeverTaken` | vendor-baseline-4.19/drivers/platform/msm/ipa/ipa_rm.c:790-842 | A concrete run: deleting a consumer in use whose first resume is still queued ends with a clock vote dropped that was never taken |
| `RmCounterexamples.DeletionLeaksVotes` | vendor-baseline-4.19/drivers/platform/msm/ipa/ipa_rm.c:132-168 | A concrete run: deleting a consumer held only by a timer leaves its clock vote and its voltage vote in place, with no work item left that would drop them |
| `RmAccounts.StepCoherent` | vendor-baseline-4.19/drivers/platform/msm/ipa/ipa_rm.c:1089-1132 | Every step without driver failure keeps each granted resource's votes equal to min(max, needed) and its floor voltage and each released producer's votes zero, and every promise; and it keeps a released consumer's votes zero (unless a suspend is pending) if and only if it is no deletion that leaves votes |
| `RmAccounts.VotesLeft` | vendor-baseline-4.19/drivers/platform/msm/ipa/ipa_rm_resource.c:209-264 | The votes that deleting a consumer leaves in the table, exactly: those it had, unless it was granted and in use; then none if the clock call of its last user's release does not block, else the floor voltage and the smaller of the two maxima |
| `RmRuns.VotesExact` | vendor-baseline-4.19/drivers/platform/msm/ipa/ipa_rm.c:1089-1132 | In every run without driver failure a granted resource votes its floor voltage and min(max, needed), a released producer nothing |
| `RmRuns.StepSound` | vendor-baseline-4.19/drivers/platform/msm/ipa/ipa_rm_resource.c:76-1050 | One step keeps the whole invariant, as far as its deletions are careful |
| `RmRuns.RunSound` | vendor-baseline-4.19/drivers/platform/msm/ipa/ipa_rm_resource.c:76-1050 | So does every run |
| `RmRuns.RunAnnounced` | vendor-baseline-4.19/drivers/platform/msm/ipa/ipa_rm.c:1138-1169 | In every run, with any driver answers, the last pair queued for (or delivered to) the IPA driver is the maximum of the voltage votes and the minimum of the two bandwidth sums, despite the suppression of equal votes |
| `RmRuns.MaxOfIsMax` | vendor-baseline-4.19/drivers/platform/msm/ipa/ipa_rm.c:1138-1145 | The aggregate voltage bounds every vote and is one of them |
| `RmRuns.SideTotalIsSum` | vendor-baseline-4.19/drivers/platform/msm/ipa/ipa_rm.c:1147-1152 | The bandwidth of one side is the sum of its votes in 32 bits |
| `RmRuns.TurnShrinks` | vendor-baseline-4.19/drivers/platform/msm/ipa/ipa_rm.c:733-858 | One turn of the workqueue thread shrinks the queue in a well-founded order, because handlers queue notifications only: draining terminates |
| `RmRuns.DrainSound` | vendor-baseline-4.19/drivers/platform/msm/ipa/ipa_rm.c:733-858 | Draining keeps the whole invariant |
| `RmRuns.SettledStates` | vendor-baseline-4.19/drivers/platform/msm/ipa/ipa_rm.c:733-858 | From every reachable state, whatever the run has deleted: once the thread has emptied the queue, each consumer whose driver owes no grant is granted or released, and so is each producer none of whose consumers is owed one, provided no deletion was rash |
| `RmRuns.SettledUse` | vendor-baseline-4.19/drivers/platform/msm/ipa/ipa_rm.c:733-858 | A consumer with no grant owed and no delayed release to come is then granted if and only if an active producer depends on it |
| `RmRuns.ActiveIsGranted` | vendor-baseline-4.19/drivers/platform/msm/ipa/ipa_rm.c:733-858 | Progress, without rash deletions: once the queue is emptied and no consumer of a producer is owed, the producer is granted if and only if it was active |
| `RmRuns.SettledClocks` | vendor-baseline-4.19/drivers/platform/msm/ipa/ipa_rm.c:790-858 | Then one clock vote is held for each active consumer and none for another, but for those that deletions have left |
| `RmRuns.SettledVotes` | vendor-baseline-4.19/drivers/platform/msm/ipa/ipa_rm.c:1089-1169 | Then each granted resource, released producer and, without stale deletions, released consumer votes exactly what it needs, and the IPA driver was told exactly the aggregates |
| `RmRuns.PromptDriversRest` | vendor-baseline-4.19/drivers/platform/msm/ipa/ipa_rm.c:733-858 | If no grant was owed and the drivers answer at once, draining brings every consumer to rest, and every producer if no deletion was rash |
| `RmStructure.RunStructured` | vendor-baseline-4.19/drivers/platform/msm/ipa/ipa_rm_resource.c:609-1103 | In every run, with any driver answers: both peers lists of an edge agree on existence and owner and point at the live table entries, counts equal the non-null slots, a producer's demand is the sum of the maxima of its consumers, and no producer is in release-in-progress or has pending releases |
| `RmStructure.StepStructured` | vendor-baseline-4.19/drivers/platform/msm/ipa/ipa_rm_resource.c:609-1103 | One step keeps this |
| `RmStructure.ProfileSums` | vendor-baseline-4.19/drivers/platform/msm/ipa/ipa_rm_resource.c:1078-1098 | Setting a maximum keeps every producer's demand equal to the sum over its consumers |
| `RmStructure.EdgeAdded` | vendor-baseline-4.19/drivers/platform/msm/ipa/ipa_rm_peers_list.c:118-131 | Adding both list entries keeps lists symmetric and counts exact |
| `RmStructure.EdgeRemoved` | vendor-baseline-4.19/drivers/platform/msm/ipa/ipa_rm_peers_list.c:97-109 | So does removing both |
| `RmStructure.ReleaseFromKeeps` | vendor-baseline-4.19/drivers/platform/msm/ipa/ipa_rm_resource.c:896-920 | The release loop ends released with nothing pending and touches no other producer, whatever the consumers and drivers answer |
| `RmStructure.EdgeSurvives` | vendor-baseline-4.19/drivers/platform/msm/ipa/ipa_rm_resource.c:703-722 | An edge keeps its entry in every step other than a deletion by the side that added it or of an endpoint |
| `RmStructure.EdgeSurvivesRun` | vendor-baseline-4.19/drivers/platform/msm/ipa/ipa_rm_resource.c:703-722 | And in every run of such steps |
| `RmStructure.DeletedIsUnknown` | vendor-baseline-4.19/drivers/platform/msm/ipa/ipa_rm_resource.c:440-506 | After a resource is deleted no peers list mentions it |
| `RmOutcomes.RequestEffects` | vendor-baseline-4.19/drivers/platform/msm/ipa/ipa_rm_resource.c:797-863 | A request by name, in every case: what becomes of the producer and of every other name (record, votes, clock vote, promise), which items are queued in which order, and the code. Consumers are asked in slot order up to the first that refuses |
| `RmOutcomes.RequestAnswers` | vendor-baseline-4.19/drivers/platform/msm/ipa/ipa_rm_resource.c:844-862 | If no consumer refuses, the client gets 0 if and only if the producer is granted afterwards and -EINPROGRESS if and only if it is waiting, also for a producer that was active before; otherwise it gets the driver's code of the first consumer that refuses, and the producer waits |
| `RmOutcomes.ReleaseEffects` | vendor-baseline-4.19/drivers/platform/msm/ipa/ipa_rm_resource.c:872-929 | A release by name, in every case: an active producer is released and votes nothing, each of its consumers is let go as its usage, state and answers demand, no other name changes, and the suspends and the notification are queued in order |
| `RmEffects.AddEffects` | vendor-baseline-4.19/drivers/platform/msm/ipa/ipa_rm_resource.c:609-676 | Adding a dependency, in every case: both entries carry the pointer of the other side and the owner, the producer's demand grows by the consumer's maximum, an active producer's consumer is asked, the producer waits for it only if the answer comes later, and the code is that answer |
| `RmEffects.DeleteEffects` | vendor-baseline-4.19/drivers/platform/msm/ipa/ipa_rm_resource.c:688-789 | Deleting a dependency, in every case: nothing for another owner, else both entries are gone, the producer's demand and pending count shrink and it is granted if it waited for nobody else, and a consumer in use is let go; with the codes |
| `RmEffects.OwnedEdge` | vendor-baseline-4.19/drivers/platform/msm/ipa/ipa_rm_resource.c:703-722 | An edge that one side adds outlives every run without a deletion by that side or of an endpoint; the other side's deletion then does nothing, and that side's own removes both entries |
| `RmUpkeep.CreateEffects` | vendor-baseline-4.19/drivers/platform/msm/ipa/ipa_rm.c:71-120 | Creating a resource, in every case: a fresh record under a new pointer with an empty peers list that no other list mentions, or the error code and no change |
| `RmUpkeep.ProfileEffects` | vendor-baseline-4.19/drivers/platform/msm/ipa/ipa_rm_resource.c:1062-1103 | Setting a maximum, in every case: the name gets it, the demand of exactly its peers that count it moves by the difference, and those of them that are granted, itself included, vote the smaller of maximum and demand |
| `RmUpkeep.TimerRequestEffects` | vendor-baseline-4.19/drivers/platform/msm/ipa/ipa_rm.c:471-515 | A request with a timer, in every case: no user is counted, the consumer's state, votes and promise follow the answers, and a delayed release is scheduled unless the driver fails |
| `RmUpkeep.DelayedReleaseEffects` | vendor-baseline-4.19/drivers/platform/msm/ipa/ipa_rm.c:432-462 | A delayed release, in every case: it lets go of the consumer that then has the name, if no user is left |
| `RmUpkeep.CompleteEffects` | vendor-baseline-4.19/drivers/platform/msm/ipa/ipa_rm.c:704-730 | A completion call queues the event last and a grant settles the driver's promise; for a producer's name an error |
| `RmUpkeep.StartEffects` | vendor-baseline-4.19/drivers/platform/msm/ipa/ipa_rm.c:790-842 | The thread takes the oldest item, and a resume takes or a suspend drops one clock vote of its consumer and of nobody else |
| `RmUpkeep.FinishEffects` | vendor-baseline-4.19/drivers/platform/msm/ipa/ipa_rm.c:733-858 | What each kind of item does under the lock with each driver answer: who is granted, whose pending count falls, what a failing handler takes back, which profile the IPA driver gets |
| `RmRemoval.DeletionEffects` | vendor-baseline-4.19/drivers/platform/msm/ipa/ipa_rm.c:132-168 | Deleting a resource, in every case (of a consumer, while its sums are exact): the consumers of an active producer are let go one by one and its votes are cleared; the producers of a consumer lose its maximum and one they waited for, and its last user's release drops its clock vote or queues one suspend; no other name changes |
| `ResourceManager.Manager.constructor` | vendor-baseline-4.19/drivers/platform/msm/ipa/ipa_rm.c:937-968 | Starts in the initial state |
| `ResourceManager.Manager.ListAddPeer` | vendor-baseline-4.19/drivers/platform/msm/ipa/ipa_rm_peers_list.c:118-131 | Writes the slot of that name and counts it; nothing else changes |
| `ResourceManager.Manager.ListRemovePeer` | vendor-baseline-4.19/drivers/platform/msm/ipa/ipa_rm_peers_list.c:97-109 | Clears the slot of that name and uncounts it; nothing else changes |
| `ResourceManager.Manager.ListCheckDependency` | vendor-baseline-4.19/drivers/platform/msm/ipa/ipa_rm_peers_list.c:188-217 | Finds an edge known to either list, and the flag of the consumer's entry if there is one |
| `ResourceManager.Manager.MaxVolt` | vendor-baseline-4.19/drivers/platform/msm/ipa/ipa_rm.c:1138-1145 | The loop computes the maximum of the voltage votes |
| `ResourceManager.Manager.SideSums` | vendor-baseline-4.19/drivers/platform/msm/ipa/ipa_rm.c:1147-1152 | The loop computes the two 32-bit sums |
| `ResourceManager.Manager.PerfProfileChange` | vendor-baseline-4.19/drivers/platform/msm/ipa/ipa_rm.c:1089-1172 | Updates one vote and the aggregates and queues a notification exactly when they change |
| `ResourceManager.Manager.ProducerCb` | vendor-baseline-4.19/drivers/platform/msm/ipa/ipa_rm_resource.c:931-989 | In-place form of the producer's completion |
| `ResourceManager.Manager.ConsumerCb` | vendor-baseline-4.19/drivers/platform/msm/ipa/ipa_rm_resource.c:997-1050 | In-place form of the consumer's completion with its loop over producers |
| `ResourceManager.Manager.ConsumerRequestWork` | vendor-baseline-4.19/drivers/platform/msm/ipa/ipa_rm_resource.c:111-139 | In-place form, with all driver results |
| `ResourceManager.Manager.ConsumerReleaseWork` | vendor-baseline-4.19/drivers/platform/msm/ipa/ipa_rm_resource.c:76-109 | In-place form, with all driver results |
| `ResourceManager.Manager.RequestConsumer` | vendor-baseline-4.19/drivers/platform/msm/ipa/ipa_rm_resource.c:141-207 | In-place form of the consumer request |
| `ResourceManager.Manager.ReleaseConsumer` | vendor-baseline-4.19/drivers/platform/msm/ipa/ipa_rm_resource.c:209-264 | In-place form of the consumer release |
| `ResourceManager.Manager.LinkResources` | vendor-baseline-4.19/drivers/platform/msm/ipa/ipa_rm_resource.c:609-676 | In-place form of adding a dependency |
| `ResourceManager.Manager.UnlinkResources` | vendor-baseline-4.19/drivers/platform/msm/ipa/ipa_rm_resource.c:688-789 | In-place form of deleting a dependency |
| `ResourceManager.Manager.RequestProducer` | vendor-baseline-4.19/drivers/platform/msm/ipa/ipa_rm_resource.c:797-863 | In-place form of the producer request with its loop and early exit |
| `ResourceManager.Manager.ReleaseProducer` | vendor-baseline-4.19/drivers/platform/msm/ipa/ipa_rm_resource.c:872-929 | In-place form of the producer release with its loop |
| `ResourceManager.Manager.ChangeProfile` | vendor-baseline-4.19/drivers/platform/msm/ipa/ipa_rm_resource.c:1062-1103 | In-place form of setting the maximum bandwidth |
| `ResourceManager.Manager.GetResource` | vendor-baseline-4.19/drivers/platform/msm/ipa/ipa_rm_dependency_graph.c:67-93 | Finds exactly the live resources under names that an index function accepts |
| `ResourceManager.Manager.CreateResource` | vendor-baseline-4.19/drivers/platform/msm/ipa/ipa_rm.c:71-120 | In-place form, with its error codes |
| `ResourceManager.Manager.DeleteResource` | vendor-baseline-4.19/drivers/platform/msm/ipa/ipa_rm.c:132-168 | In-place form with the loop over peers |
| `ResourceManager.Manager.AddDependencyByName` | vendor-baseline-4.19/drivers/platform/msm/ipa/ipa_rm_dependency_graph.c:150-188 | Checks kinds and existence, then adds the dependency |
| `ResourceManager.Manager.DeleteDependencyByName` | vendor-baseline-4.19/drivers/platform/msm/ipa/ipa_rm_dependency_graph.c:201-242 | Checks kinds and existence, then deletes the dependency |
| `ResourceManager.Manager.RequestResource` | vendor-baseline-4.19/drivers/platform/msm/ipa/ipa_rm.c:399-429 | In-place form, with its error codes |
| `ResourceManager.Manager.ReleaseResource` | vendor-baseline-4.19/drivers/platform/msm/ipa/ipa_rm.c:526-556 | In-place form, with its error codes |
| `ResourceManager.Manager.RequestWithTimer` | vendor-baseline-4.19/drivers/platform/msm/ipa/ipa_rm.c:471-515 | Requests a consumer without counting a user and schedules the delayed release |
| `ResourceManager.Manager.RunDelayedRelease` | vendor-baseline-4.19/drivers/platform/msm/ipa/ipa_rm.c:432-462 | The delayed release, of the resource that then has the name |
| `ResourceManager.Manager.SetPerfProfile` | vendor-baseline-4.19/drivers/platform/msm/ipa/ipa_rm.c:654-691 | In-place form, with its error code |
| `ResourceManager.Manager.NotifyCompletion` | vendor-baseline-4.19/drivers/platform/msm/ipa/ipa_rm.c:704-730 | Queues the completion, for consumers only |
| `ResourceManager.Manager.TakeWork` | vendor-baseline-4.19/drivers/platform/msm/ipa/ipa_rm.c:790-842 | Takes the oldest item; a resume takes and a suspend drops the clock vote before the lock is taken |
| `ResourceManager.Manager.RunHandler` | vendor-baseline-4.19/drivers/platform/msm/ipa/ipa_rm.c:733-858 | The locked regions of the three handlers and the notification of the IPA driver |
| `ResourceManager.Manager.Perform` | vendor-baseline-4.19/drivers/platform/msm/ipa/ipa_rm.c:71-858 | One step of the program is one step of the model |
| `ResourceManager.Manager.PerformAll` | vendor-baseline-4.19/drivers/platform/msm/ipa/ipa_rm.c:71-858 | A run of the program is a run of the model, so every statement about runs holds of it |
| `InactivityTimer.TraceExplained` | vendor-baseline-4.19/drivers/platform/msm/ipa/ipa_rm_inactivity_timer.c:62-92 | After any sequence of calls and expiries: work is queued if and only if the in-progress flag is set, then the wake lock is held, a held lock means queued work or a request, and the flags tell the last call |
| `InactivityTimer.NeverEarly` | vendor-baseline-4.19/drivers/platform/msm/ipa/ipa_rm_inactivity_timer.c:62-92 | An expiry releases the resource only when the last call was a release made at least one timeout ago |
| `InactivityTimer.InactivityWindow` | vendor-baseline-4.19/drivers/platform/msm/ipa/ipa_rm_inactivity_timer.c:257-274 | If work expires at most a latency late, a release call that no call follows leads to a release between one timeout and two timeouts (plus two latencies) after it |
| `InactivityTimer.LockExactly` | vendor-baseline-4.19/drivers/platform/msm/ipa/ipa_rm_inactivity_timer.c:62-92 | In every trace the wake lock is held if and only if some release call has not been followed by an expiry that released: a request in between keeps it |
| `InactivityTimer.FiresOnce` | vendor-baseline-4.19/drivers/platform/msm/ipa/ipa_rm_inactivity_timer.c:62-92 | And to no second one |
| `TimerCalls.HistoryIsTrace` | vendor-baseline-4.19/drivers/platform/msm/ipa/ipa_rm_inactivity_timer.c:62-277 | In any history of calls on all timers, expiries and manager steps, what one timer sees between its start and its destruction is a trace of it |
| `TimerCalls.ReleasedLate` | vendor-baseline-4.19/drivers/platform/msm/ipa/ipa_rm_inactivity_timer.c:62-92 | A release reaches the resource manager from a timer only if the last call on the timer was a release, at least one timeout ago |
| `TimerCalls.ReleaseArrives` | vendor-baseline-4.19/drivers/platform/msm/ipa/ipa_rm_inactivity_timer.c:257-274 | With expiries at most a latency late, a release call that no call on the timer follows reaches the resource manager between one timeout and two (plus two latencies) later |
| `InactivityTimers.Handles.ServeAll` | vendor-baseline-4.19/drivers/platform/msm/ipa/ipa_rm_inactivity_timer.c:62-277 | The table run through a history: the timers are as the history says, and the manager has run exactly what they and its other callers sent |
| `InactivityTimers.Handles.InitTimer` | vendor-baseline-4.19/drivers/platform/msm/ipa/ipa_rm_inactivity_timer.c:107-146 | Starts an unused timer; refuses bad names and used timers |
| `InactivityTimers.Handles.DestroyTimer` | vendor-baseline-4.19/drivers/platform/msm/ipa/ipa_rm_inactivity_timer.c:157-180 | Cancels and clears a used timer; refuses bad names and unused timers |
| `InactivityTimers.Handles.RequestResource` | vendor-baseline-4.19/drivers/platform/msm/ipa/ipa_rm_inactivity_timer.c:195-221 | Marks the request, then requests from the resource manager |
| `InactivityTimers.Handles.ReleaseResource` | vendor-baseline-4.19/drivers/platform/msm/ipa/ipa_rm_inactivity_timer.c:239-277 | Queues the delayed work, or marks it for rescheduling if it is queued |
| `InactivityTimers.Handles.Expire` | vendor-baseline-4.19/drivers/platform/msm/ipa/ipa_rm_inactivity_timer.c:62-92 | Reschedules, stops or releases in the resource manager, by the flags |
| `Qmi.Find` | vendor-init/qmi.c:48-65 | Terminates within the buffer and finds the first element of the kind in the parsed message, with its value and place; none if and only if there is none |
| `Qmi.OffsetOfFirst` | vendor-init/qmi.c:48-65 | The offset the scan computes is the one of the first element of the kind among those parsed, and there is one if and only if some element has the kind |
| `Qmi.FirstFound` | vendor-init/qmi.c:48-65 | First means: no earlier element has the kind |
| `Qmi.EncodeParsed` | vendor-init/qmi.c:51-63 | The parsed elements, encoded, are the bytes from the start up to the first place where no whole element is |
| `Qmi.ParseLongest` | vendor-init/qmi.c:51-63 | Every list of elements that the bytes start with is a prefix of the parsed list |
| `Qmi.ParseEncoded` | vendor-init/qmi.c:17-26 | Parsing what was encoded gives the elements back |
| `Qmi.BuiltIsRead` | vendor-init/qmi.c:5-84 | A header followed by any elements is read as exactly those elements |
| `Qmi.U32Survives` | vendor-init/qmi.c:39-83 | A u32 that was appended is read back, if no earlier element has its kind |
| `Qmi.HeaderBytes` | vendor-init/qmi.c:5-15 | The seven bytes of a request header: flag, transaction, message, body length, each number low byte first |
| `Qmi.ElementBytes` | vendor-init/qmi.c:17-26 | The bytes of an element: kind, length with the low byte first, value |
| `Qmi.U32Bytes` | vendor-init/qmi.c:39-46 | The four bytes of a u32, the low byte first |
| `Qmi.U32AsSent` | vendor-init/qmi.c:75-83 | Of a message whose first element of the kind has any value, the u32 is made of its first four bytes, the low byte first; a shorter one gives nothing |
| `Qmi.ResultAsSent` | vendor-init/qmi.c:67-73 | The error code is made of the third and fourth byte of the first result element, the low byte first; -1 if it is shorter than four bytes |
| `Qmi.GetU32` | vendor-init/qmi.c:75-83 | The little-endian value of the first element of the kind, if it has four bytes |
| `Qmi.Result` | vendor-init/qmi.c:67-73 | The error code of the first result element, -1 if it is missing or short |
| `Qmi.HdrReq` | vendor-init/qmi.c:5-15 | Writes the header and nothing else |
| `Qmi.TlvBytes` | vendor-init/qmi.c:17-26 | Appends exactly one element to the message and leaves the rest of the buffer |
| `Qmi.TlvU8` | vendor-init/qmi.c:28-31 | Appends a one-byte element |
| `Qmi.TlvU16` | vendor-init/qmi.c:33-37 | Appends a little-endian u16 |
| `Qmi.TlvU32` | vendor-init/qmi.c:39-46 | Appends a little-endian u32 |
| `ServingSystem.Decode` | vendor-init/stage_nas_rat.c:194-219 | LTE if an area code is present or an LTE interface is listed, else UMTS if listed, else the first listed interface; none on an error code or without a list |
| `ServingSystem.LteExactly` | vendor-init/stage_nas_rat.c:198-201 | A direct consequence of the decoding: the answer is LTE if and only if the area code is present or LTE is listed |
| `ServingSystem.UmtsExactly` | vendor-init/stage_nas_rat.c:207-219 | For every response: UMTS if and only if the code is 0, no area code is present, LTE is not listed and UMTS is |
| `ServingSystem.FirstOtherwise` | vendor-init/stage_nas_rat.c:209-219 | With neither listed and a non-empty list, the first interface as a signed char |
| `ServingSystem.NoneExactly` | vendor-init/stage_nas_rat.c:194-209 | No answer if and only if the code is not 0, or no area code is present and the list is empty or starts with interface zero and holds neither |
| `ServingSystem.ListedTooShort` | vendor-init/stage_nas_rat.c:203-206 | An element too short for a count lists nothing |
| `ServingSystem.ListedAsBuilt` | vendor-init/stage_nas_rat.c:203-209 | A list that lies inside its element is read as it was built, whatever elements of other kinds precede it and whatever follows |
| `ServingSystem.ListedBeyondElement` | vendor-init/stage_nas_rat.c:207-209 | The count is checked against the message only: a list that overruns its element takes its interfaces from the next one |
| `ServingSystem.BuildPreference` | vendor-init/stage_nas_rat.c:89-116 | The request parses as the four preference elements and its header carries the length of the body |

## Left out

- Failing allocations (`kzalloc`, `wakeup_source_register`): every allocation succeeds.
- Driver error returns are modelled in every function, and sums, grants and pending counts are proved under them. Votes in the table, clock votes and promises are claimed only for runs in which no driver fails: a failing request keeps the clock vote it took, a failing release has given its own away, and neither casts the table votes anew.
- Client notification callbacks and listener lists: a producer's notification is a queue item without effect; clients do not call back into the manager.
- `complete_all` and the waiting in `ipa_rm_add_dependency_sync`: releasing a consumer completes the same object, so being woken does not mean being granted.
- `ipa_resume_resource` and the pipe work inside the suspend calls: only their effect on clock votes is modelled.
- Spin locks: locked regions are atomic steps. The timer's lock and the manager's lock are taken in the source's order, and their nesting is not modelled.
- `ipa_rm_stat`, logging, string tables, `ipa_rm_exit` and the memory of freed objects.
- RmRuns.SettledStates: says nothing about a consumer whose driver never reports a promised grant.
- QRTR sockets, polling, state files and the stage runner: the model starts from the received bytes.
- Sizes of `int` offsets in the QMI code: lengths are unbounded naturals, element lengths are 16 bits.
