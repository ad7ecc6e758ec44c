# Verification of the harmostes kernel

A Dafny model of the parts of harmostes that decide: the graph executor with its trust and capability
policy, the review-claim ledger and the gate sweep that works on it, the controller's trigger slot, the
bounded status ledgers, the CRD conformance walk, the turn budget and the agent loop. The API server, the
clock, node executors, the review evaluation and the agent are oracles: arbitrary inputs, with time never
going backwards. Code that changes objects step by step is a class or a loop here too, proved against a
specification function; the laws are lemmas about those functions, for every input and every run.

`dafny verify dfyconfig.toml` checks everything.

| files | what they model |
|---|---|
| Glob, Trust, Capability | glob matching; demotion and promotion of claims; capability bindings |
| Kernel, Executor | the queue walk as a step machine, and as it runs; the latter is proved to compute the former |
| Termination, RunLaws, TrustRun, Background, BackgroundTrust, FeedbackLoop, Workflows | laws over whole runs: length, conservation, causes, verdicts, trust, side work, feedback loops, compiled workflows |
| Claims, ClaimRuns, ClaimHistory, ClaimServer | the claim ledger: atomic writes, operations cut off anywhere, whole histories, and the operations as they run |
| SweepRuns, SweepFacts, Sweep, Pointers | the gate sweep over that ledger; pull-request pointers and scope |
| StatusLedger, StatusRecord | compaction of an attempt's status against the ledger that is never compacted |
| CrdWalk, CrdPrune | the walk over a Go type and its schema, and structural pruning |
| TriggerSlot | the compare-and-set on a workflow's last run under stale reads |
| TurnBudget, Refusals | the turn-budget decision machine; the memo of refused reviews and the gate's time bounds |
| AgentLoop, Rpc | the prompt and gate loop; usage accounting and log lines |

Where the code differs from what its comments say, the model follows the code. What that turned up:

- A limited edge past its retries is not taken and does not fail the pipeline by itself, although the
  comment on `enqueueEdge` says it does (internal/graph/executor.go:717-718): on a green path the run just goes on
  (`SpentEdgeIsNoFailure`).
- A background gate can promote foreground claims, so side work can decide trust (`BackgroundGateDecidesTrust`). The
  exact condition, `EnvelopesDoNotInterfere`, is about runs; what can be checked on the graph beforehand is
  `NoPatternsNoInterference` (no background node declares a pattern) and, where one does and is reached,
  `BackgroundPatternInterferes`.
- Arm and release overlapping on one object leave a live claim the filtered list does not show
  (`OverlapBreaksIndex`): the ledger laws are for one sequential gate, cut off anywhere. They also
  assume what the gate does, that it releases only claims it listed as live.
- Unreleased claims without the kind label are dropped on the client side (internal/attempt/claim.go:662), although
  the comment above the list (640-649) wants them visible. Arming an existing object that lacks it leaves a claim no
  sweep sees, and such a claim is never superseded (`KindlessArmIsUnseen`, `KindlessClaimIsNotSuperseded`); where
  every object carries the kind, which no operation changes, neither happens (`LedgerStaysOk`).
- Evidence keys joined with slashes can stand for different references (`EvidenceKeyIdentifies`). Turn-budget
  fingerprints joined with `&` and `=` stand for different calls whenever there is more than one argument, or an `=`
  in the only one (`FingerprintIdentifies`, `FingerprintsCollide`).
- A renewal of a node result that was already compacted away is stored as a new entry and counted again
  (`RenewalComesLate`; `CompactionSimulates` says by how much).
- The CRD walk is silent about a map's `preserve: false`, untagged fields, embedded structs of unexported type, opaque
  values and nested metadata (`NothingIsPruned` says when that loses something), and its whole-number probe can miss
  a fractional bound (`ProbeIsLegal` says when).
- The refusal memo finds only the head last refused for a pull request (`OlderHeadIsNotSeen`).
- Two trigger slots can be won just over nine seconds apart, since stamps are stored in whole seconds; a run that
  ends within the second of the dispatch never wakes the workflow early; clearing a wake can swallow a newer
  one; and the published reason is not the same test as the slot's, as the comment at
  internal/controller/workflow_controller.go:320 has it.
- File tools are not allowed past every stop (extensions/turn-budget/policy.ts:37-38): two one-shot checkpoints refuse them.
- Cache-only message events are charged twice in the agent's usage, and a compacted conversation again or not at all
  (`CacheOnlyIsChargedTwice`, `CompactionCharge`).

## Model

| member | source | states |
|---|---|---|
| `Glob.MatchGlob` | internal/claim/trust.go:146-171 | the two-pointer loop with one remembered star terminates and answers exactly the recursive meaning of `*` matching, for every pattern and string |
| `Glob.LastStarSuffices` | internal/claim/trust.go:158-163 | once the text between two stars has been matched, no other choice for the first star can help: giving up all but the last star misses no match |
| `Trust.Enforce` | internal/claim/trust.go:77-91 | demotes in place exactly the validated claims of a non-deterministic node, counts them, and touches nothing else |
| `Trust.PromoteEnvelope` | internal/claim/trust.go:101-126 | rewrites one envelope in place: observed claims the scope covers become validated and stamped, each reported once in order; all else is kept |
| `Trust.Promote` | internal/claim/trust.go:101-126 | whatever order the map is visited in, the envelopes end as one closed form of the scope and the validator |
| `Trust.PromoteScopeByScope` | internal/graph/executor.go:973-995 | applying the scopes one after another equals applying them all at once: their order does not matter |
| `Trust.PromoteIdempotent` | internal/claim/trust.go:101-126 | a second pass of the same validator promotes nothing |
| `Capability.Authorize` | internal/capability/policy.go:69-105 | the violations, in the requirements’ order, are exactly the requirements whose last binding of that name does not grant them |
| `Capability.AuthorizeNode` | internal/capability/policy.go:109-115 | the same violations, each stamped with the node |
| `Capability.NoViolationIffAllGranted` | internal/capability/policy.go:69-105 | a node may run if and only if each of its requirements is granted |
| `Executor.Execute` | internal/graph/executor.go:316-714 | the imperative queue walk, with its maps, counters and three failure routes, ends in exactly the result of the step machine the laws below are proved about |
| `Executor.Prepare` | internal/graph/executor.go:338-392 | lookup, adjacency and entry list, or the refusal before any node runs |
| `Executor.IndexEdges` | internal/graph/executor.go:344-358 | out-edges per node in declaration order; a node awaits someone exactly if an unlimited edge from an executable node points at it |
| `Executor.FindNonLeaf` | internal/graph/executor.go:360-378 | finds the first background node with an executable out-edge, or proves there is none |
| `Executor.CollectEntries` | internal/graph/executor.go:381-392 | the entries are the executable nodes nobody must precede, loop-back targets included, in declaration order |
| `Executor.RunNode` | internal/graph/executor.go:443-632 | denied, unregistered or executed with retries: the settled result of one visit |
| `Executor.ExecuteWithRetry` | internal/graph/executor.go:547-617 | the retry loop keeps the outcome of the first attempt that is not transient, affordable and within budget |
| `Executor.DelayFor` | internal/graph/executor.go:955-966 | the backoff loop computes the doubled initial delay per failed attempt, capped |
| `Executor.EnqueueEdge` | internal/graph/executor.go:724-740 | counts per pair of ends, never enqueues past maxRetries, and treats display-only targets as handled |
| `Executor.FollowEdges` | internal/graph/executor.go:677-704 | follows the out-edges in order; handled exactly if one was taken |
| `Executor.IndexNodes` | internal/graph/executor.go:338-341 | later declarations of an id replace earlier ones |
| `Executor.RecordEnvelope` | internal/graph/executor.go:635-697 | the envelope after demotion is stored under the node, and a green deterministic node’s scopes are then applied |
| `Executor.Turn` | internal/graph/executor.go:411-704 | one pass of the loop body over the maps, queue and counters is one step of the machine |
| `Executor.ApplyPromotions` | internal/graph/executor.go:973-995 | the gate’s scopes applied in turn give the closed form of Trust.PromoteBy |
| `Kernel.RetriesOnlyTransients` | internal/graph/executor.go:547-617 | the attempt kept is the first that is not transient, the last the policy allows, or out of time; all before it were transient with time and attempts left |
| `Kernel.GreenWasAuthorized` | internal/graph/executor.go:443-584 | a node ends green only if every required capability is granted, its type has an executor, and the kept attempt returned no error |
| `Kernel.RunEnds` | internal/graph/executor.go:403-409 | every run of every graph ends with a verdict |
| `Kernel.TurnsCounted` | internal/graph/executor.go:403-416 | the number of turns is the number of nodes dequeued |
| `Termination.WeightEquation` | internal/graph/executor.go:699-738 | without a cycle of unlimited edges a node’s weight is one plus the weights of its unlimited targets |
| `Termination.LimitedCyclesEnd` | internal/graph/executor.go:394-412 | if every executable cycle has a limited edge, at most weights(entries) + sum of maxRetries times weight(target) nodes are dequeued, shared parallel-edge counters included; and where that bound is within the iteration limit the safety valve is never the reason a run ends |
| `RunLaws.EveryEnqueuedNodeRunsOnce` | internal/graph/executor.go:412-413 | in every reachable state: entries plus taken edges equal nodes run plus nodes queued, in order |
| `RunLaws.CompletedRunVisits` | internal/graph/executor.go:699-706 | a completed run visited each node once per entry listing and per taken in-edge: there is no visited set |
| `RunLaws.EveryVisitIsCaused` | internal/graph/executor.go:668-704 | every executed node that is no entry has an earlier executed source whose edge held against the results known then |
| `RunLaws.RetryLimitKept` | internal/graph/executor.go:729-734 | a limited edge is taken at most maxRetries times per run, whatever its parallel edges do |
| `RunLaws.VerdictIsExplained` | internal/graph/executor.go:297-314 | a failed run was stopped by a guard or by a foreground failure no edge took, with that message; a background failure never fails one |
| `RunLaws.GreenIffFailuresAbsorbed` | internal/graph/executor.go:668-714 | past the pre-checks and guards a run is green if and only if every foreground failure was taken by some edge |
| `TrustRun.EnvelopesAccounted` | internal/graph/executor.go:635-643 | every stored envelope is its node’s latest recording, up to promotions by gates of this run that finished green with a matching scope |
| `TrustRun.TrustSafety` | internal/graph/executor.go:635-697 | a validated claim was asserted by a deterministic node in its latest visit, or was promoted after it by a confirming gate, whose id it carries; a non-deterministic node’s claim is validated no other way, re-executions included |
| `Background.SideWorkDoesNotInterfere` | internal/graph/executor.go:297-314 | two runs that differ only in what background nodes do dequeue the same nodes in the same order and agree on foreground results, status and message |
| `BackgroundTrust.EnvelopesDoNotInterfere` | internal/graph/executor.go:635-697 | no side work of a graph can ever change a foreground envelope or its trust if and only if in no reachable state a background gate promotes a foreground claim (a condition on runs; the next two rows are the test on the graph) |
| `BackgroundTrust.NoPatternsNoInterference` | internal/graph/executor.go:635-697 | which holds for every graph whose background nodes declare no pattern |
| `BackgroundTrust.BackgroundPatternInterferes` | internal/graph/executor.go:635-697 | and fails wherever a background gate with a pattern is reached, authorized, after a foreground node whose claims no gate may have confirmed since: two worlds then differ in that gate’s outcome alone and in a foreground claim’s trust |
| `BackgroundTrust.BackgroundGateDecidesTrust` | internal/graph/executor.go:691-697 | a concrete such graph, run to the end |
| `FeedbackLoop.RedGateRunsOut` | internal/graph/executor.go:724-740 | worker to gate with a when:failed loop-back of r retries and an always-red gate: each runs exactly r + 1 times, then the run fails, for every r with 2(r + 1) <= 1000 |
| `FeedbackLoop.RedGateHitsValve` | internal/graph/executor.go:404-409 | for every larger r the safety valve ends the run instead |
| `FeedbackLoop.SpentEdgeIsNoFailure` | internal/graph/executor.go:717-740 | a green node looping back to itself with r retries runs r + 1 times; its edge then holds, is not taken, and the run still ends green |
| `Workflows.CompiledIsLine` | internal/graph/compile.go:18-106 | every workflow compiles to a line of its declared stages, the agent only if enabled |
| `Workflows.CompileThenExecute` | internal/graph/compile.go:18-106 | compiling and executing runs prepare, agent, deploy at most once each and in order, the next exactly when all before were green; a failure ends the run failed, a skip green |
| `Claims.ListIsExact` | internal/attempt/claim.go:621-671 | the label-filtered list is exactly the workflow’s unreleased claims if and only if each of those carries the kind and is unmarked; an honest marker leaves the kind alone to decide |
| `Claims.KindStays` | internal/attempt/claim.go:86-105 | no write changes an object’s kind and what is created carries it: a ledger where all objects do stays one |
| `Claims.ArmNeedsUnmarked` | internal/attempt/claim.go:205-216 | an arm’s commit keeps the marker honest if and only if the object is unmarked at that moment |
| `Claims.OverlapBreaksIndex` | internal/attempt/claim.go:574-600 | arm and late release overlapping on one object leave a live but marked claim: why one sequential gate is assumed |
| `ClaimRuns.ArmedIsBelowBounds` | internal/attempt/claim.go:121-200 | what passes the arm’s guards is below both strike bounds |
| `ClaimRuns.ArmCutAnywhere` | internal/attempt/claim.go:86-310 | after any prefix of an arm’s writes, a crash between any two of them, the index, uniqueness and strike invariants hold |
| `ClaimRuns.ArmedAlone` | internal/attempt/claim.go:173-216 | a completed arm leaves its claim unreleased, unmarked and the only one on its pointer that carries the kind; it is listed if and only if its object does, and where all objects do it is the pointer’s only unreleased claim |
| `ClaimRuns.KindlessArmIsUnseen` | internal/attempt/claim.go:649-671 | otherwise: arming an existing object without the kind leaves an unreleased, unmarked claim that is not listed |
| `ClaimRuns.KindlessClaimIsNotSuperseded` | internal/attempt/claim.go:173-191 | and an unreleased claim without the kind is not stood down: arming another head leaves two on the pointer |
| `ClaimHistory.LedgerStaysOk` | internal/attempt/claim.go:385-428 | in every run of arms, releases, dead releases, intents, cancellations and worker writes, each cut anywhere: no claim with the kind is hidden, each pointer has at most one of them, no strike counter passes 3 and every unreleased claim is below 3 on both; the list is exactly the unreleased claims if and only if those carry the kind, and where all objects did at the start it is, with one unreleased claim per pointer at most |
| `ClaimHistory.DismissalRefusesAutomaticArms` | internal/attempt/claim.go:121-143 | after a horizon release at t every automatic arm of the same pointer and head before t + horizon is refused and writes nothing, whatever came between |
| `ClaimHistory.BreakerHolds` | internal/attempt/claim.go:193-200 | whatever happens to a claim released at three dead dispatches: if it ever comes back or forgets them, an arm by a human or for another pointer did it; the age of the budget does not |
| `ClaimHistory.BrokenArmIsRefused` | internal/attempt/claim.go:193-200 | an automatic arm of the same claim leaves it as it is |
| `ClaimHistory.BreakerRefusalStillSupersedes` | internal/attempt/claim.go:173-200 | a breaker refusal has already stood down every other head of the pointer |
| `ClaimHistory.DispatchBelongsToEra` | internal/attempt/claim.go:242-281 | a live claim with a recorded dispatch was given it after its latest revival |
| `ClaimHistory.CancelSparesTheLiving` | internal/attempt/claim.go:523-560 | finishing a cancellation never touches a live claim, a strike counter or a terminal record, and is idempotent |
| `ClaimHistory.DeathCountsOnce` | internal/attempt/claim.go:451-490 | observing one death twice counts it once |
| `ClaimServer.AttemptStatus.Arm` | internal/attempt/claim.go:214-296 | the arm closure, mutating the status in place, is the arm’s change of the protocol |
| `ClaimServer.AttemptStatus.Release` | internal/attempt/claim.go:386-421 | likewise the release closure, with the churn strike and the dismissal where they belong |
| `ClaimServer.AttemptStatus.ReleaseDead` | internal/attempt/claim.go:451-474 | likewise the dead release; reports a death exactly for a live dispatched claim |
| `ClaimServer.AttemptStatus.Intent` | internal/attempt/claim.go:334-346 | likewise the dispatch intent |
| `ClaimServer.AttemptStatus.Dispatched` | internal/attempt/claim.go:353-363 | likewise the recorded dispatch |
| `ClaimServer.AttemptStatus.FinalizeCancelled` | internal/attempt/claim.go:523-558 | likewise the end of a cancellation |
| `ClaimServer.ApiServer.Commit` | internal/attempt/lifecycle.go:314-332 | one version-checked read-modify-write replaces the whole value, or nothing happens |
| `ClaimServer.ApiServer.OthersOnPointer` | internal/attempt/claim.go:180-187 | the other live claims of the pointer, each once and no more |
| `ClaimServer.ApiServer.SupersedeAll` | internal/attempt/claim.go:184-191 | the loop of two-write releases stops at the first that fails, leaving exactly the writes before it |
| `ClaimServer.AttemptStatus.RearmReview` | internal/attempt/claim.go:218-283 | the field-by-field re-arm equals the arm rule: fresh, refreshed or revived, clocks and counters restarted exactly when they may be |
| `ClaimServer.AttemptStatus.FinalizeRunningRuns` | internal/attempt/claim.go:492-508 | fails every running record in place and no other, and tells whether there was one |
| `ClaimServer.ApiServer.LiveReviewClaims` | internal/attempt/claim.go:621-671 | returns each listed claim once and nothing else |
| `ClaimServer.ApiServer.CheckGuards` | internal/attempt/claim.go:112-166 | the nested checks of dismissal, claim age and the two budget windows answer exactly the protocol’s refusal and budget expiry |
| `ClaimServer.ApiServer.CheckBreaker` | internal/attempt/claim.go:193-200 | the breaker’s test on the object as it was read, for the asking pointer only |
| `ClaimServer.ApiServer.ReleaseClaim` | internal/attempt/claim.go:385-428 | two writes, either of which may be the last, leave exactly the ledger of the protocol step |
| `ClaimServer.ApiServer.ReleaseClaimDead` | internal/attempt/claim.go:451-490 | the dead release likewise; the marker follows only a recorded death |
| `ClaimServer.ApiServer.ArmClaim` | internal/attempt/claim.go:86-310 | creation, supersession loop, unmarking and commit, cut anywhere, leave exactly the ledger of the protocol step, with the answer telling which guard refused |
| `SweepFacts.ClassifiedReasons` | internal/gate/sweep.go:1374-1424 | a verdict on a claim never spends the churn budget, and cancels only for a closed or moved pull request |
| `Sweep.Sweeper.JudgeQueued` | internal/gate/sweep.go:550-672 | a queued claim is handed out if and only if green at its own head, released if and only if given up, for its reason, which is never a strike, and shielded otherwise: the churn guard on the way never fires |
| `Sweep.Sweeper.JudgeDispatched` | internal/gate/sweep.go:673-724 | a dispatched claim is released exactly when stood down, counted dead exactly when overdue with no job seen alive |
| `Sweep.Sweeper.JudgeClaims` | internal/gate/sweep.go:547-723 | section A: every claim handed out is queued, green at its own head, untouched, shielded and not the requesting wake’s |
| `Sweep.Sweeper.ReleaseDeadJobs` | internal/gate/sweep.go:724-755 | counts dead exactly the listed claims dispatched past the grace whose job is neither alive nor completed, and reaches nothing handed out |
| `Sweep.Sweeper.ReleaseNeverDispatched` | internal/gate/sweep.go:774-853 | releases exactly the queued claims no pass has released, unshielded and past the grace, as a strike unless an abort explains it; nothing on an aborted sweep or an unread job list |
| `Sweep.Sweeper.Relist` | internal/gate/sweep.go:839-853 | the slots counted are exactly the live dispatched claims |
| `Sweep.Sweeper.Candidates` | internal/gate/sweep.go:856-906 | one candidate per pointer, and only the wake can be a request |
| `Sweep.Sweeper.FindClaim` | internal/gate/sweep.go:1320-1327 | finds a claim of the pointer, or there is none |
| `Sweep.Sweeper.Supersede` | internal/gate/sweep.go:983-1024 | stands a claim down exactly if the head moved or a human retries a dead one, and frees a slot only when it held one |
| `Sweep.Sweeper.Fill` | internal/gate/sweep.go:1042-1147 | arms exactly the green and the labelled or human-backed waiting candidates, at the decided head; what is handed out was green and is live on its pointer |
| `Sweep.Sweeper.Drain` | internal/gate/sweep.go:909-1147 | section C: each dispatch stands within capacity at its moment, and no arm or supersession reaches a claim already handed out |
| `Sweep.Sweeper.CancelJobs` | internal/gate/sweep.go:1149-1240 | deletes only live owned jobs of claims released as superseded or closed |
| `Sweep.Sweeper.Run` | internal/gate/sweep.go:336-1293 | whole sweep, any API call failing: it is a run of the claim protocol; nothing handed out in A is released later; everything handed out ends live; each claim gains at most one strike over both counters, never while its job is seen alive; and whenever C dispatches, its dispatches so far plus the listed dispatched claims, all unreleased ones where every object carries the kind, are within capacity |
| `SweepRuns.SweepStrikesOnce` | internal/gate/sweep.go:724-853 | a run of releases followed by a drain adds at most one strike to any claim |
| `SweepRuns.DrainTakesNoSlot` | internal/gate/sweep.go:1014-1070 | no arm puts a claim in flight, and a supersession frees its slot |
| `SweepRuns.ArmSpares` | internal/attempt/claim.go:173-191 | an arm releases only the other live claims of its pointer |
| `Pointers.ReadsBack` | internal/gate/sweep.go:1637-1652 | a written pointer parses back to itself if and only if its repository has a path and its number is a positive machine integer |
| `Pointers.NormalizeSettles` | internal/gate/sweep.go:1590-1603 | normalizing qualifies every bare name, and a second pass changes nothing |
| `Pointers.ConfiguredIsInScope` | internal/gate/sweep.go:1606-1635 | every configured repository is in scope once normalized |
| `StatusLedger.LongestFit` | internal/attempt/lifecycle.go:177-199 | the kept tail is the longest suffix that fits count and weight |
| `StatusLedger.CompactionSimulates` | internal/attempt/lifecycle.go:362-370 | for every sequence of upserts and compactions: distinct keys, the exact number of dropped entries and the latest time among them, live plus compacted equal to the uncompacted ledger plus the late renewals, and the tail is what follows the dropped entries if and only if no renewal came late |
| `StatusLedger.RenewalComesLate` | internal/attempt/lifecycle.go:362-370 | a run in which one does: 201 light results, a compaction, and the first put again |
| `StatusLedger.WrittenFits` | internal/attempt/lifecycle.go:314-332 | after a write at most 200 entries stay, 32 or fewer or within 1 MiB, and one more would not have fit |
| `StatusLedger.EnvelopeBytes` | internal/attempt/lifecycle.go:156-168 | the loops add up the estimate over every slice element |
| `StatusRecord.AttemptRecord.CompactNodeResults` | internal/attempt/lifecycle.go:177-199 | the two eviction loops with a running size do exactly that compaction, counters and watermark included |
| `StatusRecord.AttemptRecord.EvictByWeight` | internal/attempt/lifecycle.go:182-191 | evicts the head while the rest does not fit by weight and is above the floor, keeping count and watermark |
| `StatusRecord.AttemptRecord.EvictByCount` | internal/attempt/lifecycle.go:192-199 | evicts exactly the entries past the count |
| `StatusRecord.AttemptRecord.UpsertRunRecord` | internal/attempt/lifecycle.go:373-385 | replaces in place by name, or appends |
| `StatusRecord.AttemptRecord.AppendUniqueEvidence` | internal/attempt/lifecycle.go:389-402 | the loop over a set of seen keys adds each new key once |
| `StatusRecord.AttemptRecord.CompactStatus` | internal/attempt/lifecycle.go:177-212 | runs and evidence keep their last 400 and 200, the totals stay derivable, and the count returned is what was dropped |
| `StatusRecord.AttemptRecord.UpsertNodeResult` | internal/attempt/lifecycle.go:362-370 | replaces in place on a key match, appends otherwise: one step of the history |
| `StatusRecord.AttemptRecord.RecordRunOutcome` | internal/attempt/lifecycle.go:255-302 | one write records run, bounded results, new evidence, phase and clipped message, then compacts: the tail fits |
| `StatusRecord.BoundedEnvelope` | internal/attempt/lifecycle.go:219-226 | clamping bounds what an entry’s text weighs, is idempotent, and keeps key, time and claims |
| `StatusRecord.UpsertRunKeeps` | internal/attempt/lifecycle.go:373-385 | names stay distinct, other runs stay, and a finished run keeps the start recorded for it |
| `StatusRecord.AddEvidenceKeeps` | internal/attempt/lifecycle.go:389-402 | every added key is there once, nothing recorded moves |
| `StatusRecord.AddEvidenceAgain` | internal/attempt/lifecycle.go:389-402 | adding references whose keys are all recorded changes nothing |
| `StatusRecord.EvidenceKeyIdentifies` | internal/attempt/lifecycle.go:404-406 | the joined key tells a reference apart from all others if and only if none of its parts has a slash |
| `CrdWalk.Generate` | internal/crdwalk/crdwalk.go:163-349 | the accumulating walk builds the probe, its leaves and its issues as specified, in order |
| `CrdWalk.GenerateStruct` | internal/crdwalk/crdwalk.go:212-258 | the loop over fields, embedded ones merged into the same node, skipped and missing ones left zero |
| `CrdWalk.CollectsWhatWasProbed` | internal/crdwalk/crdwalk.go:99-119 | collecting the probe returns exactly the leaves its generation recorded, in order |
| `CrdWalk.ProbeIsLegal` | internal/crdwalk/crdwalk.go:697-742 | the probe takes the registered value, the enumeration’s first or a fitting length; the real probe is within the bounds if anything is, the whole one if and only if the truncated maximum it is capped to was not rounded up and reaches the minimum or, uncapped, the minimum is at most 7 or whole |
| `CrdWalk.FractionalBoundIsMissed` | internal/crdwalk/crdwalk.go:734-742 | with a fractional bound the whole-number probe can fall outside it |
| `CrdPrune.NothingIsPruned` | internal/crdwalk/crdwalk.go:106-109 | if the walk reports nothing, structural pruning changes no encoded value of the type, at any depth, if and only if what the walk leaves open (a recursive predicate on type and schema) is lossless |
| `CrdPrune.LosslessIsExact` | internal/crdwalk/crdwalk.go:106-109 | with or without the walk: pruning changes no encoded value if and only if every member the encoder may write is specified or preserved, and so on below |
| `CrdPrune.PlainLeavesNothing` | internal/crdwalk/crdwalk.go:163-349 | on types without opaque, untagged or metadata fields and nodes used one way the walk leaves nothing open |
| `CrdPrune.CleanCheckLosesNothing` | internal/crdwalk/crdwalk.go:106-109 | the same if and only if for a root object, its own metadata aside |
| `CrdPrune.UsualRootLosesNothing` | internal/crdwalk/crdwalk.go:106-109 | so a root with metadata in the usual places and otherwise such fields loses nothing when its check is silent |
| `CrdPrune.FalseMarkHidesLoss` | internal/crdwalk/crdwalk.go:289-297 | a map’s node marked preserve: false is taken for preserving: silent loss |
| `CrdPrune.UntaggedFieldIsLost` | internal/crdwalk/crdwalk.go:137-150 | an untagged exported field is encoded but never checked: silent loss |
| `CrdPrune.EmbeddedUnexportedIsLost` | internal/crdwalk/crdwalk.go:228-230 | the fields of an embedded struct of unexported type are encoded and never looked at: silent loss |
| `CrdPrune.OpaqueContentIsLost` | internal/crdwalk/crdwalk.go:197-217 | opaque values and nested metadata are assumed kept wherever they stand: silent loss without a preserve mark |
| `TriggerSlot.WonSlotsApart` | internal/controller/workflow_controller.go:308-355 | under racing writers and stale reads any two won slots are the webhook interval apart, and the poll interval unless the later read saw an unprocessed wake or a pending completion: from stored stamp to stamp, and between whole-second stamps; as instants up to a second less |
| `TriggerSlot.SubSecondGap` | internal/controller/workflow_controller.go:337-340 | the missing second is reachable: two wins 9.001 s apart |
| `TriggerSlot.RunWakesOnce` | internal/controller/attempt_trigger.go:97-118 | each terminal run makes at most one won slot eligible |
| `TriggerSlot.PassedRunNeverWakes` | internal/controller/attempt_trigger.go:97-118 | a run that ended within the second of the last dispatch never makes a slot eligible |
| `TriggerSlot.FirstDispatchWins` | internal/controller/workflow_controller.go:337-339 | a workflow never dispatched, and reported by nobody else, is won if and only if some claim of the run reads it unchanged; the first to do so makes the first win, with its stamp |
| `TriggerSlot.WakeSurvives` | internal/controller/workflow_controller.go:142-144 | a wake whose revision no later one repeats still stands if and only if no later wake or clear was written, whoever won or reported in between |
| `TriggerSlot.AnnotationIsTheLastWord` | internal/controller/workflow_controller.go:142-144 | after any run the annotation is what the last wake or clear wrote, or the initial one |
| `TriggerSlot.NewerWakeIsSwallowed` | internal/controller/workflow_controller.go:211-242 | the winner’s clear removes a newer wake that was neither published nor processed |
| `TriggerSlot.ReasonIsNotTheSlotTest` | internal/controller/workflow_controller.go:426-440 | the published reason and the slot’s own test agree exactly when a manual wake is one already processed and a pushed one is not |
| `TriggerSlot.RequeuesLater` | internal/controller/workflow_controller.go:360-424 | no reconcile requeues at once, and one not yet due comes back no later than its cooldown ends |
| `TriggerSlot.WorkflowStore.TryClaim` | internal/controller/workflow_controller.go:310-345 | one read, check, stamp and patch with others writing in between: won as the last event, refused by a newer version, or on cooldown at the version read |
| `TriggerSlot.WorkflowStore.ClaimTriggerSlot` | internal/controller/workflow_controller.go:308-355 | the retrying compare-and-set tells a win, its last event, from a cooldown and from giving up on conflicts |
| `TurnBudget.BudgetState.Decide` | extensions/turn-budget/policy.ts:268-356 | the in-place decision follows the ordered rules and changes the state as they say |
| `TurnBudget.RefusalIsNoWork` | extensions/turn-budget/policy.ts:351-355 | a refusal changes neither the memory nor the count |
| `TurnBudget.StateRecords` | extensions/turn-budget/policy.ts:219-237 | over any session the state counts its own allowed calls and fired checkpoints |
| `TurnBudget.SessionBounds` | extensions/turn-budget/policy.ts:268-356 | at most two stagnation, one wall and one count checkpoint; calls allowed outside the lane within the cap; at most two lane calls ever refused |
| `TurnBudget.LaneIsOpen` | extensions/turn-budget/policy.ts:37-39 | a lane call is refused if and only if a one-shot checkpoint still has to fire |
| `TurnBudget.NoRepeatOutsideLane` | extensions/turn-budget/policy.ts:304-314 | with the loop breaker on no call allowed outside the lane repeats one allowed before |
| `TurnBudget.PastTheMarginOnlyTheLane` | extensions/turn-budget/policy.ts:316-331 | once the finalize margin was found passed only lane calls are allowed |
| `TurnBudget.FingerprintIdentifies` | extensions/turn-budget/policy.ts:110-126 | for one tool: no other call has the fingerprint if and only if the call has at most one argument, with no equals sign in its key or value; every call of two or more arguments shares its fingerprint, keys distinct and in order included |
| `TurnBudget.OneLegible` | extensions/turn-budget/policy.ts:118-126 | among all calls that share a fingerprint exactly one is legible (no equals sign in a key, no ampersand in a later key, no ampersand with an equals sign after it in a value): the one the fingerprint is read as, so every other collides |
| `TurnBudget.FingerprintsTellApart` | extensions/turn-budget/policy.ts:118-126 | two calls share a fingerprint if and only if it is read alike; two legible calls never share one |
| `TurnBudget.FingerprintsCollide` | extensions/turn-budget/policy.ts:118-126 | a concrete pair of calls with the same one, one of them legible |
| `Refusals.MemoIsTheRecent` | api/v1alpha1/reviewready.go:323-346 | after any history the memo’s keys are distinct and exactly the first 16 of the unbounded most-recent-first list |
| `Refusals.NoticeCarries` | api/v1alpha1/reviewready.go:325-328 | a re-refusal keeps the notice if and only if the head is remembered, notified, with the same verdict |
| `Refusals.OneNoticeWhileRemembered` | api/v1alpha1/reviewready.go:312-322 | a notified head stays notified as long as it is remembered with the same verdict |
| `Refusals.CoversEachOther` | api/v1alpha1/reviewready.go:404-413 | an entry covers a head exactly when both are known and agree, case aside, as far as the shorter goes |
| `Refusals.OlderHeadIsNotSeen` | api/v1alpha1/reviewready.go:351-358 | after any history the lookup finds a remembered head if and only if no other head of its pull request was refused after it |
| `Refusals.LookupFindsTheLatest` | api/v1alpha1/reviewready.go:351-358 | it finds the head last refused for the pull request or, once the memo has let that go, nothing |
| `Refusals.TwoHeads` | api/v1alpha1/reviewready.go:351-358 | the shortest history in which a remembered head is not found |
| `Refusals.NeverPresumedDeadAlive` | api/v1alpha1/reviewready.go:246-256 | whatever is configured no run is presumed dead while it may be alive; a timeout is honoured exactly when it leaves the margin |
| `Rpc.Session.AbsorbAgentEnd` | internal/agent/rpc.go:511-563 | charges the fresh messages only if the events carried no input or output, takes the last fresh text, and moves the watermark |
| `Rpc.ChargedOnce` | internal/agent/rpc.go:511-563 | a turn is charged what its own messages add if and only if its events carried nothing, or everything with some input or output in it |
| `Rpc.TotalsAreTheSnapshots` | internal/agent/rpc.go:511-563 | over snapshots that only extend the totals are the last snapshot’s assistant sum: nothing twice, nothing missed |
| `Rpc.CacheOnlyIsChargedTwice` | internal/agent/rpc.go:530-547 | events with cache tokens alone are charged again |
| `Rpc.CompactionCharge` | internal/agent/rpc.go:520-529 | a turn whose snapshot keeps a prefix of the old one is charged the usage of the new messages if and only if its events make up the difference between the kept prefix and what lies before the watermark or, with input or output in them, equal it |
| `Rpc.SessionChargesNew` | internal/agent/rpc.go:511-563 | a session so charged in every turn reports what all its messages used, replaced ones included |
| `Rpc.ShrunkIsChargedAgain` | internal/agent/rpc.go:520-529 | a snapshot shorter than the watermark charges its kept message a second time |
| `Rpc.GrownBackIsMissed` | internal/agent/rpc.go:520-529 | one that was replaced and grew back never charges its messages before the old watermark |
| `Rpc.LineLogWriter.Write` | internal/agent/rpc.go:462-478 | the buffer loop keeps the log equal to that of everything written so far, however it was cut, and buffers the unfinished line |
| `Rpc.LoggedInTwo` | internal/agent/rpc.go:462-478 | a text in two pieces logs the same lines as in one |
| `AgentLoop.RunTask` | internal/agent/agent.go:157-306 | the loop’s outcome, ending by ending: turns, prompts, gates, attempts, usage |
| `AgentLoop.OutcomeIsUnique` | internal/agent/agent.go:157-306 | that outcome leaves no freedom: it fixes the whole result |
| `AgentLoop.TaskBounds` | internal/agent/agent.go:142-156 | without errors at most N prompts and N + 1 gates, exactly that many if the gate stays red; green is the last gate’s verdict and usage the sum over turns |
| `AgentLoop.UsageIsTheConversation` | internal/agent/rpc.go:511-563 | a finished task reports the last snapshot’s assistant sum |

## Left out

- Claims as shared slices: envelopes hold claims as values, so the backing array `Promote` relies on is not modelled.
- Message prose: run messages and refusals are structured values; log lines, timeline events, dead letters and telemetry are not modelled.
- Widths of durations: backoff doubles without bound here; the 64-bit overflow would need a maximal delay of over a century.
- `Executor.EnqueueEdge`: traversals are counted per pair of ends; the source joins the two ids with an arrow, so ids that contain one could share a counter there.
- Clock readings inside one arm: the age of the claim and of its dismissal are read at one instant, the two budget checks later ones.
- Whole seconds in the claim ledger and the sweep: stored times are truncated by the API; only the trigger slot models that.
- The janitor (`GCAttempts`, `ReapStuckAttempts`, `SupersedePriorAttempts`), attempt naming and owner references: attempts are named by the reviewed head through an arbitrary function.
- Hold notes, the verdict convergence, refusal notices to the host and section D's aggregates: they touch neither claims nor dispatches.
- `Sweep.Sweeper.Run`: within one sweep the ledger changes only by the sweep itself; section A hands out queued claims without asking for capacity, as the code does, so only section C is bounded.
- `Sweep.Sweeper.Fill`: whether a pull request's refusal memo matches is an input of the sweep; the memo itself is in Refusals.
- `ClaimHistory.DispatchBelongsToEra`: nothing is said about `DispatchedJob`, which a revival does not clear.
- `CrdPrune.NothingIsPruned`: fields that hide one another by equal names, embedded well-known types and the types inside object metadata, whose known members may hold anything here; a schema lists its properties, the first of a name counting.
- `CheckReverse` and `SchemaLeaves` (internal/crdwalk/crdwalk.go:351-632): the opposite direction, schema to Go, is not modelled; nor are arrays, maps with other keys and pointers to pointers.
- `CrdWalk.Generate`: a registered pattern on a non-text scalar, on which the code panics, takes the scalar's ordinary probe.
- `TurnBudget.FingerprintIdentifies`: compares calls of one tool; the tool's name and `::` in front of the arguments are not modelled, and a call whose values the source would trim first counts as one of the others.
- `runTerminalPredicate`: only filters events; the slot laws hold whatever wakes the reconcile.
- Cron parsing: the next activation is an input of `IsDue`.
- `TurnBudget.BudgetState.Decide`: margins are compared in exact milliseconds instead of doubles; the environment parsers and message builders are not modelled, and whitespace in arguments is taken as already collapsed.
- `Rpc.TotalsAreTheSnapshots`: costs are exact reals, so rounding of sums is not modelled.
- `Rpc.LineLogWriter.Write`: trims ASCII white space; further Unicode spaces are not modelled.
- Sessions, credentials, subprocesses, webhooks, the UI and the command mains: wiring.
