# Verified models of the TiProxy control plane

This Dafny project models five stateful parts of TiProxy's control bridge and router and proves
what they promise over every run:

- **Metering.** The consumer of absolute traffic counters: staging with 64-bit wrap-around, the
  state file, and the protocol with a durable sink under crashes, failed writes and replays.
- **Backend group.** The tables of one router group and every event under the group lock: routing,
  creation, redirects, closing, failover and removal.
- **Balance policies.** Factor scores packed into one word, migration and routing decisions, the
  CPU factor over the reals, and the simple policy.
- **Transport and snapshots.** The bounded outbound lanes with their weighted schedule and wakeup
  tokens, and the snapshot publisher whose `Sync` runs in separate critical sections.
- **Observation recorder.** The shared record and byte budget, the arena pool, and the per-owner
  sequences under concurrent producers.

Protocols are state machines: a state, the events that are enabled in it, the next state, and runs
from the initial state. The classes hold the fields that the Go types hold. The methods of the
metering consumer, the group, the outbound queues, the publisher and the recorder's owners are proved
to take the steps of their state machine, so what is proved of all runs holds of them; the other
methods are proved against a specification function or a property of their own. Pure decisions are
functions. Beside what must never happen stands what must: which batches are taken and answered, which
backends enter failover, who ranks first, when a record is admitted, and when a snapshot goes out.

## Layout

| files | content |
|---|---|
| `Common`, `Listings` | 64-bit words, options, listings of maps |
| `MeteringStaging`, `MeteringAdmission`, `MeteringDisk`, `MeteringProtocol`, `MeteringBooks`, `MeteringInvariant`, `MeteringRuns`, `MeteringProgress`, `MeteringWitness`, `MeteringConsumer`, `MeteringLegacy` | metering |
| `GroupModel`, `GroupInvariant`, `GroupRuns`, `GroupWitness`, `GroupFailover`, `GroupStall`, `RouterGroup`, `GroupDuties` | backend group |
| `ScoreBits`, `FactorScores`, `FactorBalance`, `FactorRouting`, `FactorList`, `FactorPriority`, `FactorFailover`, `CpuFactor`, `CpuAdvice`, `SimplePolicy` | balance policies |
| `LaneQueue`, `LaneProtocol`, `LaneSpace`, `LaneSchedule` | outbound lanes |
| `SnapshotTopology`, `SnapshotProtocol`, `SnapshotRefresh`, `SnapshotProgress`, `SnapshotPublisher` | snapshot publisher |
| `RecorderModel`, `RecorderInvariant`, `RecorderRuns`, `RecorderAdmission`, `Recorder` | observation recorder |

## Assumptions

- The metering producer replays its oldest unanswered batch first: it offers the next sequence only
  once the one before was answered, or was completed by the same consumer incarnation. Without it
  the accounting fails, and `LeftoversCountTwice` says exactly when.
- The sink is the repository's own: one batch per producer and sequence, its books and checkpoint
  stored together. A write either takes effect or not, whether or not it reports an error.
- One `Finish` settles one reservation and one result settles one accepted redirect; identities of
  backend objects are not reused.
- `Sync` runs one at a time and for epochs that never decrease; request identities are not zero.
- The snapshot builder, where it succeeds, carries the lists that it was given, sorted. In lists that
  are in order, entries under one identity do not differ; otherwise an unstable sort decides.
- Real numbers stand for floating point; the routing ticket is a nonnegative number.

## Where the code does not do what one would expect

- A redirect result that arrives after its connection closed looks both endpoints up before it
  looks at the phase, so it can put an already removed backend back as a placeholder
  (`LateResultRevives` gives the exact condition, `RevivalHappens` a whole run, `RevivedStays` that
  nothing but a new registration of the ID changes it).
- The score clamp is the nearest value in range only up to 62 bits; at 63 and 64 bits the bound
  itself overflows (`ClampIsNearest`). The widths in use are far below.
- Random routing does not look up the position of a single routeable backend but answers with
  position 0. For an arbitrary factor list that is right exactly if that backend ranks first
  (`RandomSoundIff`); for the configured lists it always does (`BackendToRoute`).
- The byte guard of a lane adds modulo 2^64 and is right for all loads exactly for limits below
  2^63 (`RoomGuardExact`). The default limits are far below.
- With the simple policy, an unhealthy backend without connections stops the balancing of the
  healthy ones (`RestMeans`, `StallHappens`); a backend that a late result put back is one, so it
  stops the balancing of its group (`RevivedStopsBalancing`).
- The single space token can leave a second waiting producer asleep although its message fits,
  until the next message leaves. `SpaceWakesIff` says on which lanes; with the default limits it is
  all of them, as soon as two producers can wait.
- `RefreshTopology` is documented to stage nothing for an unchanged topology. It compares the
  provider's lists by position with those that the builder sorted, so that holds exactly for lists
  that the provider gives in order of identity (`RefreshSettlesIff`). Given out of order, the same
  topology uses up a generation on every refresh (`RefreshesUse`, `RestagingHappens`). The failing
  input needs a configured provider: the one production caller, pkg/server/rust_dataplane.go:58,
  passes none, and then a refresh returns at once.

## Model

| member | source | states |
|---|---|---|
| `MeteringStaging.CounterDeltaIsGrowth` | pkg/controlbridge/metering_absolute.go:392-416 | a counter update is accepted if and only if the counter, read as epoch * 2^64 + bytes, grew by 0 to 2^64-1 (from 0 for a new source), and the result is that growth |
| `MeteringStaging.SnapshotDeltaIsGrowth` | pkg/controlbridge/metering_absolute.go:187-234 | an accepted snapshot yields, on both meters, the growth of its source since the ledger's last reading |
| `MeteringStaging.StageOneAgrees` | pkg/controlbridge/metering_absolute.go:187-258 | staging one snapshot adds its growth to pending and totals under its own key and to no other, and keeps sources and ledger in step |
| `MeteringStaging.StageAllAgrees` | pkg/controlbridge/metering_absolute.go:184-258 | staging a whole batch adds exactly what the ledger of all incarnations grew by, for every key and meter |
| `MeteringStaging.RetireTracks` | pkg/controlbridge/metering_absolute.go:173-183 | sources of an older process generation leave the live ones, and their bytes stay in the sum over all incarnations |
| `MeteringStaging.StageAllWellFormed` | pkg/controlbridge/metering_absolute.go:173-258 | whatever staging accepts can be written to the state file and read back |
| `MeteringAdmission.StageAllIff` | pkg/controlbridge/metering_absolute.go:187-258 | a batch is staged if and only if every report is attributed, of a known source with its attribution, and grew by at most one word, no source reports twice, and no aggregate overflows |
| `MeteringStaging.KeysTellApart` | pkg/controlbridge/metering_absolute.go:235-239 | bytes are billed apart if and only if keyspace, backend or kind of endpoint differ |
| `MeteringDisk.LoadInvertsPersist` | pkg/controlbridge/metering_absolute.go:472-531 | every image that encodes a state passes validation and decodes to exactly that state |
| `MeteringDisk.LoadedIsWellFormed` | pkg/controlbridge/metering_absolute.go:472-568 | every image that passes validation decodes to a well-formed state which it encodes |
| `MeteringDisk.PersistImage` | pkg/controlbridge/metering_absolute.go:570-667 | the image lists every source, total and pending entry once, in sorted order |
| `MeteringDisk.TotalsFromDisk` | pkg/controlbridge/metering_absolute.go:545-568 | rejects a list if and only if a key repeats or is malformed, and else gives the map it lists |
| `MeteringDisk.SourcesFromDisk` | pkg/controlbridge/metering_absolute.go:492-507 | the same for the list of sources |
| `MeteringDisk.LoadState` | pkg/controlbridge/metering_absolute.go:472-531 | accepts if and only if the image is valid, and then gives its state |
| `MeteringBooks.AcceptKeepsBooks` | pkg/controlbridge/metering_absolute.go:173-265 | an accepted batch extends the log by one and keeps totals, sources and sequence equal to what the log says |
| `MeteringInvariant.StepKeepsInv` | pkg/controlbridge/metering_absolute.go:126-347 | every action, with any outcome of any write, keeps the invariant of file, sink and memory |
| `MeteringInvariant.CheckIsWindow` | pkg/controlbridge/metering_absolute.go:312-347 | the checkpoint check passes if and only if the sink is at the last sequence, or one behind with bytes pending, and of the same producer |
| `MeteringRuns.ExactlyOnce` | pkg/controlbridge/metering_absolute.go:126-310 | in every state of every run, for every key and meter, bytes ingested plus durable bytes not yet ingested equal the sum over all incarnations, and each total is that sum capped at one word |
| `MeteringRuns.AnswersAreDurable` | pkg/controlbridge/drain_metering.go:149-180 | once a sequence was answered, the durable state and the sink's checkpoint are at or past it for good |
| `MeteringRuns.ReopenSucceeds` | pkg/controlbridge/metering_absolute.go:312-347 | after a crash at any point of any run: a file loads to exactly the persisted state, the checkpoint check passes, and the consumer opens; before the first file exists opening succeeds exactly if its first write does, and a failed first write loses nothing |
| `MeteringRuns.RefusalChangesNothing` | pkg/controlbridge/metering_absolute.go:126-172 | a batch that is not accepted changes no source, total, pending entry or sequence, in memory or on disk |
| `MeteringProgress.DeliveryIsDecided` | pkg/controlbridge/metering_absolute.go:126-258 | in every state of every run with a healthy idle consumer: a batch is taken if and only if it is proper and fresh; a replay is answered, after a drain if it is the latest and still pending; anything else changes nothing |
| `MeteringProgress.ReplayCompletes` | pkg/controlbridge/metering_absolute.go:148-156 | the latest batch again, with a sink that accepts and writes that succeed: answered, nothing pending, and every accepted byte on the sink's account |
| `MeteringProgress.FreshCompletes` | pkg/controlbridge/metering_absolute.go:126-275 | the same for a fresh batch in order |
| `MeteringProgress.CrashThenReplay` | pkg/controlbridge/metering_absolute.go:90-156 | after a crash at any point of any run, reopening and replaying the latest durable batch put every accepted byte on the sink's account |
| `MeteringRuns.LeftoversCountTwice` | pkg/controlbridge/metering_absolute.go:173-310 | staging on pending bytes that the sink already ingested leaves a meter exact if and only if nothing was pending for it |
| `MeteringWitness.DoubleCountHappens` | pkg/controlbridge/metering_absolute.go:173-310 | a run of the protocol from its start, with one crash and one delivery out of order: seven bytes were sent and twelve are on the sink's account |
| `MeteringProtocol.SinkAppliesOnce` | pkg/manager/meter/meter.go:141-190 | what the sink accepted it accepts again without effect; its books move only by the next sequence and exactly that batch, checkpoint and journal together; a refusal changes nothing |
| `MeteringConsumer.DurableSink.ApplyMeteringBatch` | pkg/manager/meter/meter.go:141-190 | computes exactly the sink of the protocol, with every outcome of its write |
| `MeteringConsumer.DropRetired` | pkg/controlbridge/metering_absolute.go:173-183 | the loop removes exactly the sources of older process generations |
| `MeteringConsumer.StageSnapshot` | pkg/controlbridge/metering_absolute.go:187-258 | one snapshot is staged as the staging function says, or refused with its reason |
| `MeteringConsumer.StageBatch` | pkg/controlbridge/metering_absolute.go:184-258 | the loop stages all snapshots in order, stops at the first refusal, and works on copies |
| `MeteringConsumer.MeteringConsumer.Open` | pkg/controlbridge/metering_absolute.go:87-119 | opening loads or creates the file and takes the protocol's step, with its failures |
| `MeteringConsumer.MeteringConsumer.ValidateSinkCheckpoint` | pkg/controlbridge/metering_absolute.go:312-347 | passes if and only if the sink is at the last sequence, or one behind with bytes pending, and of the same producer |
| `MeteringConsumer.MeteringConsumer.Persist` | pkg/controlbridge/metering_absolute.go:570-627 | writes an image of the state; the outcome decides between stored, lost and poisoned |
| `MeteringConsumer.MeteringConsumer.DrainPending` | pkg/controlbridge/metering_absolute.go:277-310 | hands pending bytes to the sink and clears them, as protocol steps, or fails at the step that failed |
| `MeteringConsumer.MeteringConsumer.ClearPending` | pkg/controlbridge/metering_absolute.go:305-309 | clears what the sink has and writes the file, as one protocol step |
| `MeteringConsumer.MeteringConsumer.Examine` | pkg/controlbridge/metering_absolute.go:126-172 | decides on a batch exactly as the protocol does |
| `MeteringConsumer.MeteringConsumer.Commit` | pkg/controlbridge/metering_absolute.go:260-269 | commits a staged batch to memory and file as one protocol step |
| `MeteringConsumer.MeteringConsumer.ApplyAbsolute` | pkg/controlbridge/metering_absolute.go:126-275 | a whole call is a sequence of protocol steps, so what holds of all runs holds of it; if nothing gets in the way it succeeds exactly for the batches that are owed an answer, and then the latest is in the sink |
| `MeteringLegacy.StageDeltas` | pkg/controlbridge/drain_metering.go:346-404 | the staged totals are the exact sums, or some meter would overflow |
| `MeteringLegacy.DeltaConsumer.Apply` | pkg/controlbridge/drain_metering.go:346-404 | applied if and only if it is the next sequence and no meter overflows; all or nothing |
| `GroupInvariant.StepKeepsInv` | pkg/balance/router/group.go:220-797 | every event of the group keeps the invariant of tables, lists, scores, phases and redirects in flight |
| `GroupInvariant.BusyIsFound` | pkg/balance/router/group.go:656-681 | looking up a backend that is listed, scored or reserved finds that very object |
| `GroupInvariant.EndpointsFound` | pkg/balance/router/group.go:695-718 | for an open connection, both endpoints of its redirect are found, and are its two owners |
| `GroupRuns.ScoreAccounting` | pkg/balance/router/group.go:352-389 | in every reachable state a backend's score is the number of connections it scores plus its reservations, and its list holds exactly, once each, the connections it physically owns |
| `GroupRuns.OwnersFollowPhase` | pkg/balance/router/group.go:603-742 | outside the notify and closed phases both owners agree; a closed connection has neither; while notified, the two owners are the endpoints of the redirect in flight |
| `GroupRuns.LateEventsChangeNoCount` | pkg/balance/router/group.go:695-742 | a late redirect result or a repeated close changes no list, no score and no owner |
| `GroupRuns.OnlyIdleIsRemoved` | pkg/balance/router/group.go:220-238 | a backend is removed if and only if nothing is listed, scored or reserved on it |
| `GroupRuns.NoRecoveryWhileInUse` | pkg/balance/router/group.go:656-742 | the recovery branch of the lookup is unreachable for reserved backends and for open connections |
| `GroupRuns.LateResultRevives` | pkg/balance/router/group.go:695-718 | a result for a closed connection puts a backend back into the group if and only if an endpoint had left it |
| `GroupRuns.RevivedStays` | pkg/balance/router/router_score.go:340-361 | such a placeholder stays, unhealthy, until its ID is registered anew |
| `GroupStall.RevivedStopsBalancing` | pkg/balance/router/group.go:431-443 | over any run until its ID is registered anew, such a placeholder keeps the simple policy from every migration among healthy backends, and the policy rests exactly when no unhealthy backend has connections or none is healthy |
| `GroupStall.UnregisteredIsIdle` | pkg/balance/router/group.go:656-681 | a backend that is in the group but not registered is unhealthy and has score zero |
| `GroupWitness.RevivalHappens` | pkg/balance/router/group.go:695-718 | a concrete run that ends with a removed backend back in the group |
| `GroupRuns.SubjectFollows` | pkg/balance/router/group.go:695-742 | what a result, a close and a force-close make of their connection, for every state they can meet it in |
| `GroupRuns.StepTouches` | pkg/balance/router/group.go:501-797 | an event leaves every connection alone but its subject |
| `GroupRuns.OneRedirectAtATime` | pkg/balance/router/group.go:744-797 | an attempt never finds another redirect of its connection in flight |
| `GroupRuns.NoRedirectAfterForceClose` | pkg/balance/router/group.go:431-495 | after an accepted force-close a connection is never redirected |
| `GroupRuns.NoQuickRetry` | pkg/balance/router/router.go:72-78 | no retry within three seconds of the start of a failed attempt |
| `GroupRuns.KeyspaceIsKept` | pkg/balance/router/group.go:744-797 | while keyspaces do not change, both owners of a connection keep the keyspace it was created in, over any run |
| `GroupRuns.ForceCloseWaitsForTimeout` | pkg/balance/router/group.go:557-597 | with a constant timeout, a connection is force-closed only if its backend has been in failover without a break for at least that long |
| `GroupDuties.AttemptIffMovable` | pkg/balance/router/group.go:475-490 | in every run a redirect may be attempted if and only if the connection is open, not redirecting, not closing and did not fail within three seconds; having moved before does not matter |
| `GroupDuties.RoundIsExact` | pkg/balance/router/group.go:473-494 | a round attempts a connection of the source if and only if it is movable, was looked at, and fewer than the quota agreed before it |
| `GroupDuties.SweepIsExact` | pkg/balance/router/group.go:557-597 | after a sweep a connection is closing if and only if it was, or is open on a backend in failover for the whole timeout and agrees |
| `GroupDuties.RegisteredIsFresh` | pkg/balance/router/group.go:212-218 | a registered backend is found under its ID and takes new connections |
| `GroupDuties.ReportsTakeEffect` | pkg/balance/router/group.go:277-284 | health, keyspace, fail list and timeout are what was reported or configured last |
| `GroupFailover.FailoverKeepsAvailable` | pkg/balance/router/group.go:286-340 | for any routing policy: if something is routeable with the list ignored, something is routeable with failover in force |
| `GroupFailover.FailoverKeepsRoutes` | pkg/balance/router/group.go:248-340 | for policies that judge backends one by one, a healthy suitable backend exists after the update if and only if an observed-healthy suitable one exists |
| `GroupFailover.IgnoredIff` | pkg/balance/router/group.go:286-316 | the list is ignored if and only if it names every observed-healthy suitable backend, and there is one |
| `GroupFailover.FailoverIsExact` | pkg/balance/router/group.go:269-340 | after an update a backend of the group is in failover if and only if the list names its pod or its address and is not ignored; it keeps the time it entered, and nothing else changes |
| `FactorFailover.FactorFailoverKeepsRoutes` | pkg/balance/router/group.go:248-340 | the same for the factor-based policy with every configuration: a healthy backend with the label exists after the update if and only if an observed-healthy one with the label exists |
| `FactorFailover.FactorFailoverIsExact` | pkg/balance/router/group.go:248-340 | the same for the factor-based policy with every configuration: suitable is what carries the label |
| `RouterGroup.RoundQuotaPaces` | pkg/balance/router/group.go:460-472 | a round's quota fills the round at the given interval and no more; slow migration moves one connection if and only if its interval has passed |
| `RouterGroup.RouterGroup.RemoveBackendIfIdle` | pkg/balance/router/group.go:222-238 | removes exactly the idle backend, and reports whether the group is empty |
| `RouterGroup.RouterGroup.Untried` | pkg/balance/router/group.go:352-389 | the loop collects exactly the healthy backends that were not tried |
| `RouterGroup.RouterGroup.Route` | pkg/balance/router/group.go:352-389 | reserves the policy's choice among those, as one event, or changes nothing; for a policy that chooses from every nonempty set, it answers if and only if a healthy backend was not tried |
| `RouterGroup.RouterGroup.OnCreateConn` | pkg/balance/router/group.go:501-522 | settles the reservation as one event and never recovers a backend |
| `RouterGroup.RouterGroup.OnConnClosed` | pkg/balance/router/group.go:721-742 | closes the connection as one event |
| `RouterGroup.RouterGroup.OnRedirectFinished` | pkg/balance/router/group.go:695-718 | settles the redirect as one event; for an open connection the table of backends does not change |
| `RouterGroup.RouterGroup.RedirectConn` | pkg/balance/router/group.go:744-797 | starts the redirect if and only if the connection agrees and the keyspaces match |
| `RouterGroup.RouterGroup.Balance` | pkg/balance/router/group.go:431-495 | given the policy's choice, a round makes exactly the attempts of the model: none without a choice or across keyspaces, else in list order up to the quota of the interval, or until it is cancelled; the time of the last migration is kept; the target need not be healthy any more |
| `RouterGroup.RouterGroup.OnFailList` | pkg/balance/router/group.go:269-292 | the loop collects exactly the backends that the list names by pod or address |
| `RouterGroup.RouterGroup.UpdateFailover` | pkg/balance/router/group.go:286-340 | puts the list in force, or ignores it exactly when it would leave nothing to route to |
| `RouterGroup.RouterGroup.CloseTimedOutFailoverConnections` | pkg/balance/router/group.go:557-597 | asks to close exactly the connections of timed-out backends that are neither closed nor closing |
| `ScoreBits.PackOrder` | pkg/balance/factor/factor_balance.go:151-183 | comparing packed words is comparing the scores lexicographically by priority, both ways |
| `ScoreBits.ExtractInvertsPack` | pkg/balance/factor/factor_balance.go:391-394 | the pair of shifts reads back exactly the score that was packed, for any widths up to 64 bits together |
| `ScoreBits.PackIsValue` | pkg/balance/factor/backend.go:29-44 | packing is the number with the scores as digits; no shift and no addition loses anything |
| `FactorScores.ClampFits` | pkg/balance/factor/backend.go:34-44 | the clamped score fits the factor's bits, for every score and every width up to 64 |
| `FactorScores.ClampIsNearest` | pkg/balance/factor/backend.go:34-44 | the clamp gives the nearest value in range for every score if and only if the width is at most 62 |
| `FactorScores.ReadsBack` | pkg/balance/factor/factor_balance.go:431-442 | with the remaining width, the shifts on a backend's word give that factor's clamped score |
| `FactorScores.BitsMeanPriority` | pkg/balance/factor/factor_balance.go:178-180 | words compare as the factor scores do by priority, and are equal if and only if all scores are |
| `FactorScores.ApplyFactor` | pkg/balance/factor/factor_balance.go:164-170 | one factor shifts every word and adds its clamped score |
| `FactorScores.UpdateScore` | pkg/balance/factor/factor_balance.go:151-183 | the result is a sorted permutation of the backends with their packed scores |
| `FactorBalance.CanBeRouted` | pkg/balance/factor/factor_balance.go:431-442 | true if and only if every factor lets its own score through |
| `FactorBalance.Weigh` | pkg/balance/factor/factor_balance.go:389-427 | finds the first factor that drains a backend, if and only if one does |
| `FactorBalance.BackendsToBalance` | pkg/balance/factor/factor_balance.go:348-429 | a migration is chosen if and only if the idlest backend is routeable and some backend with connections is drained toward it by a factor that no earlier factor objects to; it starts at the highest-ranked such backend |
| `FactorBalance.FlatIsBalanced` | pkg/balance/factor/factor_balance.go:376-378 | the shortcut on equal ends is right: then nothing is drained |
| `FactorBalance.MigrationIsDownhill` | pkg/balance/factor/factor_balance.go:384-427 | a migration goes from a strictly higher to a strictly lower word, and the reverse is never chosen on the same scores |
| `FactorBalance.AdviceIsFollowed` | pkg/balance/factor/factor_balance.go:376-425 | what has connections is drained if a factor finds it busier and advises so, and the factors before find no difference and do not mind |
| `FactorBalance.ObjectionIsHeard` | pkg/balance/factor/factor_balance.go:376-425 | it is not drained if a factor objects or ranks it lower and none before ranks it higher |
| `FactorBalance.NoAdviceNoDrain` | pkg/balance/factor/factor_balance.go:376-425 | nothing is drained without positive advice or without connections |
| `FactorRouting.DrainedIsEvicted` | pkg/balance/factor/factor_balance.go:302-330 | what balancing would drain toward the idlest, prefer-idle evicts |
| `FactorRouting.LevelIsKept` | pkg/balance/factor/factor_balance.go:287-343 | what no factor ranks above the idlest is not evicted |
| `FactorRouting.EveryOneIsDrawn` | pkg/balance/factor/factor_balance.go:270-343 | every position is drawn by some ticket, by both policies that draw |
| `FactorRouting.RoutePreferIdle` | pkg/balance/factor/factor_balance.go:287-343 | answers if and only if the idlest is routeable, and draws from the idlest and those not evicted |
| `FactorRouting.RouteIdlest` | pkg/balance/factor/factor_balance.go:238-253 | the first routeable position, or none if there is none |
| `FactorRouting.RouteRandom` | pkg/balance/factor/factor_balance.go:255-285 | draws from all routeable positions; with a single one the answer is position 0 |
| `FactorRouting.RandomSoundIff` | pkg/balance/factor/factor_balance.go:255-285 | for any factor list, random routing is sound for all tickets if and only if a single routeable backend ranks first |
| `FactorRouting.RouteableComeFirst` | pkg/balance/factor/factor_balance.go:431-442 | when the gates come first, whatever ranks below a routeable backend is routeable |
| `FactorRouting.BackendToRoute` | pkg/balance/factor/factor_balance.go:186-215 | for all three policies and every ticket: an answer if and only if some input is routeable, and then a routeable input; idlest gives a least one; prefer-idle gives none that balancing would drain toward the idlest |
| `FactorRouting.RouteableBackends` | pkg/balance/factor/factor_balance.go:217-236 | exactly the routeable inputs, idlest first |
| `FactorList.ListFits` | pkg/balance/factor/factor_balance.go:138-148 | every configured list fits in the word |
| `FactorList.RouteableMeansSuits` | pkg/balance/factor/factor_label.go:37-75 | what passes a configured list is what is healthy and carries the proxy's label value |
| `FactorPriority.WordsMeanStanding` | pkg/balance/factor/factor_balance.go:65-136 | for every configuration: one word is below another if and only if the first score that differs is smaller, in the order label, status, then health, memory, CPU, location for resource, location, health, memory, CPU for location, and connections last |
| `FactorPriority.MigrationGoesAhead` | pkg/balance/factor/factor_balance.go:348-429 | a configured migration goes to a backend that is ahead in that order |
| `FactorPriority.Route` | pkg/balance/factor/factor_balance.go:186-343 | for healthy backends and any configuration, routing finds a backend with the label if and only if there is one, and never gives another; idlest gives one that no suitable one is ahead of |
| `FactorPriority.ConnectionsDecide` | pkg/balance/factor/factor_conn.go:60-73 | balanced by connections alone: drained if and only if it has connections and more than the ratio of the other's plus one, and for the same reason evicted by prefer-idle |
| `FactorPriority.GatesDecide` | pkg/balance/factor/factor_status.go:108-113 | what lacks the label is drained toward what carries it, and what is unhealthy toward what is healthy, whatever the other factors say |
| `FactorPriority.ConnSpeedMeetsRatio` | pkg/balance/factor/factor_conn.go:60-73 | after two minutes at the speed it advises, the source has the ratio of what the target then has |
| `FactorList.ConnDoesNotPingPong` | pkg/balance/factor/factor_conn.go:60-73 | after one connection moved on positive advice, the advice is not to move it back |
| `CpuFactor.CalcAvgUsage` | pkg/balance/factor/factor_cpu.go:190-212 | the loop gives the smoothed usage, capped at one, and the latest sample |
| `CpuFactor.SmoothedStaysBetween` | pkg/balance/factor/factor_cpu.go:190-212 | the smoothed usage lies between the smallest and the largest sample |
| `CpuFactor.AdviceGoesDown` | pkg/balance/factor/factor_cpu.go:264-293 | positive advice goes from a strictly higher to a strictly lower average, whatever the connection counts |
| `CpuFactor.NoPingPong` | pkg/balance/factor/factor_cpu.go:248-293 | under one snapshot the reverse advice is never positive, however many connections moved |
| `CpuFactor.NoCycle` | pkg/balance/factor/factor_cpu.go:248-293 | no chain of advised moves under one snapshot returns to a backend it left |
| `CpuFactor.NoMetricsNoTarget` | pkg/balance/factor/factor_cpu.go:248-258 | a backend without metrics is never advised as a target |
| `CpuAdvice.AdviceIff` | pkg/balance/factor/factor_cpu.go:264-293 | the advice is positive if and only if both usage gaps are wide: the target at most 1.2 times the source less 26 percent, with room for one more connection |
| `CpuAdvice.SensitiveWhenBusy` | pkg/balance/factor/factor_cpu.go:279-285 | 95% against 80% calls for a migration unless one connection is nearly a tenth of a backend; 25% against 10% never does |
| `CpuAdvice.SpeedOfAdvice` | pkg/balance/factor/factor_cpu.go:286-293 | the configured speed, or else a whole backend in ten minutes |
| `CpuAdvice.EstimateFollows` | pkg/balance/factor/factor_cpu.go:248-258 | every connection adds its share to the latest estimate, within nothing and full; the average is the metrics' own |
| `CpuAdvice.EstimateIsMean` | pkg/balance/factor/factor_cpu.go:218-245 | the usage per connection is the mean if that is believable, else the one before, and never zero |
| `CpuAdvice.SmoothingHalvesTheGap` | pkg/balance/factor/factor_cpu.go:190-216 | after a jump the smoothed usage closes half of the gap with every sample |
| `CpuAdvice.LatestIsLast` | pkg/balance/factor/factor_cpu.go:190-216 | the latest usage is the last sample that is there |
| `CpuAdvice.RenewedIff` | pkg/balance/factor/factor_cpu.go:150-180 | with one report per backend, a snapshot is the report's if and only if that has a sample and is newer |
| `CpuFactor.FactorCPU.PositiveAdviceHasEstimate` | pkg/balance/factor/factor_cpu.go:218-293 | whenever the advice is positive, the usage per connection and the count are positive |
| `CpuFactor.FactorCPU.UpdateCpuPerConn` | pkg/balance/factor/factor_cpu.go:218-245 | the estimate is the mean over the backends that count, with the idle-cluster exception, and is positive |
| `CpuFactor.FactorCPU.TakeReports` | pkg/balance/factor/factor_cpu.go:150-180 | the loop renews exactly the snapshots with a newer usable report; averages stay usages, backends without a report keep theirs |
| `CpuFactor.FactorCPU.Refresh` | pkg/balance/factor/factor_cpu.go:121-188 | new metrics keep the invariant, and leave exactly the renewed snapshots that have not expired |
| `CpuFactor.FactorCPU.Update` | pkg/balance/factor/factor_cpu.go:121-143 | the state is renewed only for metrics other than those seen last, not at all with one backend or without a result; metrics past their expiration give no scores |
| `CpuFactor.UsageScore` | pkg/balance/factor/factor_cpu.go:144-147 | the score of any usage is its step of five percent, within 0 to 20, and so is never clamped |
| `SimplePolicy.SortBackends` | pkg/balance/policy/simple_policy.go:85-92 | in place: a permutation, healthy first and then by score |
| `SimplePolicy.BackendToRoute` | pkg/balance/policy/simple_policy.go:36-45 | the least loaded healthy backend, if and only if one is healthy |
| `SimplePolicy.BackendsToBalance` | pkg/balance/policy/simple_policy.go:57-83 | chooses a largest and a smallest backend, and nothing if and only if the backends are at rest |
| `SimplePolicy.RestMeans` | pkg/balance/policy/simple_policy.go:57-83 | exactly when rebalancing rests; with all healthy, every score is at most 1.2 times any other plus one |
| `SimplePolicy.StallHappens` | pkg/balance/policy/simple_policy.go:57-83 | scores 100 and 0 rest beside an unhealthy backend without connections, and do not without it |
| `SimplePolicy.MoveProgresses` | pkg/balance/policy/simple_policy.go:57-83 | a chosen move conserves the total, and lowers the score on unhealthy backends or else the sum of squares |
| `SimplePolicy.RebalancingTerminates` | pkg/balance/policy/simple_policy.go:57-92 | every run of chosen moves conserves the total and makes at most as many moves as the potential of its first state |
| `SimplePolicy.RestIsReached` | pkg/balance/policy/simple_policy.go:57-92 | from every state some run of chosen moves ends at rest |
| `LaneQueue.RoomGuardExact` | pkg/controlbridge/transport/queue.go:79-84 | the wrapping byte guard is right for all loads if and only if the limit is below 2^63 |
| `LaneQueue.BulkDiscipline` | pkg/controlbridge/transport/queue.go:104-188 | metering batches sent are a prefix of those accepted, metrics sent an in-order subsequence, and nothing but metrics is lost |
| `LaneQueue.AcceptKeepsOrder` | pkg/controlbridge/transport/queue.go:79-84 | accepting keeps the history in order |
| `LaneQueue.SendKeepsOrder` | pkg/controlbridge/transport/queue.go:165-188 | sending the first metering batch, or else the front, keeps the history in order |
| `LaneQueue.EvictKeepsOrder` | pkg/controlbridge/transport/queue.go:132-145 | evicting any metric keeps the history in order |
| `LaneQueue.Lane.Push` | pkg/controlbridge/transport/queue.go:72-98 | queued if and only if both limits allow; byte count and limits stay exact; first in, first out |
| `LaneQueue.Lane.MakeRoom` | pkg/controlbridge/transport/queue.go:111-113 | the loop sheds the oldest metrics until the item fits, and no more of them |
| `LaneQueue.Lane.PushMetering` | pkg/controlbridge/transport/queue.go:104-130 | sheds the oldest metrics until the batch fits and no more of them; waits if and only if everything but metrics leaves no room; a space token is left if and only if one was there or something was shed |
| `LaneQueue.Lane.EvictOldestMetric` | pkg/controlbridge/transport/queue.go:132-145 | removes the oldest metric, if and only if there is one |
| `LaneQueue.Lane.Pop` | pkg/controlbridge/transport/queue.go:147-163 | the oldest item; the token is left if more is queued |
| `LaneQueue.Lane.PopMeteringFirst` | pkg/controlbridge/transport/queue.go:165-188 | the oldest metering batch if there is one, else the oldest item |
| `LaneSchedule.BuildSchedule` | pkg/controlbridge/transport/queue.go:207-222 | sixteen critical slots, eight control slots, one bulk slot |
| `LaneSchedule.OutboundQueues.Enqueue` | pkg/controlbridge/transport/queue.go:224-253 | the lane by priority; bulk metrics never wait; oversized messages are refused; other lanes are untouched; only metering evicts; in the interleaving model it is its evictions, then an append and its signal |
| `LaneSchedule.OutboundQueues.Visit` | pkg/controlbridge/transport/queue.go:258-270 | one look at one slot is one step of the interleaving model, and takes that lane's next item |
| `LaneSchedule.OutboundQueues.Scan` | pkg/controlbridge/transport/queue.go:255-273 | without interference: visits until one serves; serves the first slot from the cursor whose lane is not empty, takes that lane's next item and nothing else, and finds nothing only if all lanes are empty |
| `LaneProtocol.NoLostWakeup` | pkg/controlbridge/transport/queue.go:255-294 | in every interleaving, when the consumer waits with a message queued, its lane has a token or a producer is about to signal |
| `LaneProtocol.NoStarvation` | pkg/controlbridge/transport/queue.go:255-273 | while a lane stays nonempty and unserved, at most 9, 17 or 24 messages of other lanes leave |
| `LaneProtocol.GapIsReached` | pkg/controlbridge/transport/queue.go:207-222 | for each lane a run from the initial state in which exactly that many other messages leave |
| `LaneSpace.SpaceWakesIff` | pkg/controlbridge/transport/queue.go:72-145 | for each lane and its use: the space token never leaves a producer waiting that would fit, with no token and nobody about to try, if and only if fewer than two producers can wait, or the lane holds one message at a time and, on the bulk lane, metering and other messages do not both wait |
| `LaneSpace.OneIsWoken` | pkg/controlbridge/transport/queue.go:72-130 | with one producer that may wait, and any number of metrics offered beside it: whenever it waits and its message would fit, a space token is there |
| `LaneSpace.LossWithRoom` | pkg/controlbridge/transport/queue.go:88-97 | on every lane with room for two messages: a run after which the second of two producers waits although its message fits |
| `LaneSpace.LossWhenMixed` | pkg/controlbridge/transport/queue.go:104-145 | on every bulk lane where metering and other messages wait: a run in which the token wakes the one that metrics keep out, while the other would displace them |
| `LaneSpace.Attempt` | pkg/controlbridge/transport/queue.go:249-252 | one attempt of a producer, by the push its message calls for, is one step of the space model |
| `LaneSpace.OfferMetric` | pkg/controlbridge/transport/queue.go:72-89 | metrics on the bulk lane are queued or dropped, as one step of the space model |
| `LaneSpace.Take` | pkg/controlbridge/transport/queue.go:262-266 | what the consumer takes is one removal of the space model |
| `SnapshotProtocol.StepKeepsInv` | pkg/controlbridge/snapshot_publisher.go:115-348 | every event, in whatever order, keeps the invariant |
| `SnapshotProtocol.AtMostOneOutstanding` | pkg/controlbridge/snapshot_publisher.go:216-279 | at most one request of the current epoch is unanswered, and it is the pending one |
| `SnapshotProtocol.SentIncreases` | pkg/controlbridge/snapshot_publisher.go:216-279 | sent generations strictly increase within an epoch, and each message is the snapshot staged under its generation, whole or shrunk |
| `SnapshotProtocol.AnsweredIsNotResent` | pkg/controlbridge/snapshot_publisher.go:216-348 | whatever is committed after an answer is newer than the answered generation, in the same epoch |
| `SnapshotProtocol.CommitIsNewer` | pkg/controlbridge/snapshot_publisher.go:252-264 | at the second decision the generation is newer than all sent and answered ones of the epoch |
| `SnapshotProgress.SyncIffDue` | pkg/controlbridge/snapshot_publisher.go:225-239 | in every state of every run a Sync takes up the desired snapshot if and only if the epoch is new, or nothing is pending and that generation was not answered in it |
| `SnapshotProgress.DueIsSent` | pkg/controlbridge/snapshot_publisher.go:225-279 | a Sync that is due and undisturbed puts exactly the desired snapshot on the wire and waits for its answer |
| `SnapshotProgress.ReconnectResends` | pkg/controlbridge/snapshot_publisher.go:212-279 | after a reconnect, in every run, the new peer gets the desired snapshot, whatever was sent and answered before |
| `SnapshotProgress.FailedSendIsDue` | pkg/controlbridge/snapshot_publisher.go:266-279 | a failed send without an answer is due again at the next Sync of its epoch |
| `SnapshotProgress.WhatGoesOut` | pkg/controlbridge/snapshot_publisher.go:280-307 | all of the snapshot to a peer that owns nothing; without configuration and namespaces to one that owns those; the backends stay unless it owns routing |
| `SnapshotProgress.AnswerIsAccepted` | pkg/controlbridge/snapshot_publisher.go:311-348 | the answer to the outstanding request settles its generation, frees the publisher, and is counted as applied or rejected |
| `SnapshotProgress.OtherAnswerIsIgnored` | pkg/controlbridge/snapshot_publisher.go:311-335 | an answer to anything else, or for another generation, changes nothing |
| `SnapshotTopology.KeptIffSorted` | pkg/controlbridge/snapshot.go:345-379 | sorting by identity, nil first, returns a list as it was given if and only if it was in that order |
| `SnapshotRefresh.RefreshSettlesIff` | pkg/controlbridge/snapshot_publisher.go:156-210 | a second refresh with one topology changes nothing, whatever the builder answers, if and only if there was nothing to do, the build failed, generations are exhausted, or both lists were given in order |
| `SnapshotRefresh.StagingForgetsRefusals` | pkg/controlbridge/snapshot_publisher.go:139-149 | after a successful staging a topology is up to date if and only if it is the one staged, so one turned down before is tried again |
| `SnapshotRefresh.RefreshesUse` | pkg/controlbridge/snapshot_publisher.go:151-186 | any number of successful refreshes with one topology: in order they use up at most one generation, out of order each of them uses one |
| `SnapshotRefresh.RestagingHappens` | pkg/controlbridge/snapshot_publisher.go:151-186 | for every n a run of the publisher from its start in which n refreshes with one topology of two backends stage n generations |
| `SnapshotPublisher.Envelope.Clone` | pkg/controlbridge/snapshot_publisher.go:234-239 | a deep copy that shares nothing |
| `SnapshotPublisher.ShrinkRustOwnedSnapshot` | pkg/controlbridge/snapshot_publisher.go:286-307 | removes what Rust owns, in place, and adds the capabilities |
| `SnapshotPublisher.SnapshotPublisher.StageLocked` | pkg/controlbridge/snapshot_publisher.go:115-149 | stages as the protocol does; on failure the stored envelope is the same object |
| `SnapshotPublisher.SnapshotPublisher.RefreshTopology` | pkg/controlbridge/snapshot_publisher.go:156-186 | stages only if the topology differs from the desired one and from the one last turned down |
| `SnapshotPublisher.SnapshotPublisher.SyncStart` | pkg/controlbridge/snapshot_publisher.go:225-239 | the first critical section: a fresh copy of what is to be sent, if anything is |
| `SnapshotPublisher.SnapshotPublisher.SyncCommit` | pkg/controlbridge/snapshot_publisher.go:241-264 | addressing and shrinking the copy leave the stored snapshot as it was; the second critical section decides as the protocol does |
| `SnapshotPublisher.SnapshotPublisher.SyncFinish` | pkg/controlbridge/snapshot_publisher.go:266-279 | a failed send takes back its own request only |
| `SnapshotPublisher.SnapshotPublisher.HandleResult` | pkg/controlbridge/snapshot_publisher.go:311-348 | accepts exactly the correlated result, and changes nothing otherwise |
| `RecorderInvariant.CreditMeansRoom` | pkg/balance/observation/recorder.go:65-77 | a credit that is live and not queued leaves room in the queue |
| `RecorderInvariant.FinishFindsRoom` | pkg/balance/observation/recorder.go:177-196 | an Emit or a publication that is about to send always queues its record |
| `RecorderInvariant.StepKeepsInv` | pkg/balance/observation/recorder.go:87-315 | every step of every interleaving keeps the invariant |
| `RecorderRuns.BudgetConserved` | pkg/balance/observation/evaluation.go:165-220 | in every interleaving the counters are exactly the live credits and idle arenas, both limits hold, and the arena index stays inside its array |
| `RecorderRuns.OnlyLoansRemain` | pkg/balance/observation/recorder.go:293-315 | in every run, once stopped and drained: every credit still charged is lent to a capture or the writer, its return is possible, and the counters are exactly those loans |
| `RecorderRuns.DrainReturnsQueued` | pkg/balance/observation/recorder.go:307-315 | the loop of Close returns exactly the queued credits and leaves the others as they were |
| `RecorderRuns.ReturnsEndAtZero` | pkg/balance/observation/lease.go:51-64 | once stopped and drained, returning the loans in any order ends with both counters at zero |
| `RecorderRuns.CloseThenReturns` | pkg/balance/observation/recorder.go:293-315 | from any stopped state of any run, the loop of Close and then the returns of what was lent, in any order, end with an empty queue and both counters at zero |
| `RecorderRuns.CloseEndsAtZero` | pkg/balance/observation/recorder.go:293-315 | from any stopped state of any run, with the loop of Close, returns, deliveries and refused operations interleaved in any way: each return takes one record off, one is possible while any is charged, and after the last both counters are zero |
| `RecorderRuns.DrainedStaysDrained` | pkg/balance/observation/recorder.go:293-315 | after the budget stops, over any further run: no credit is added, nothing is queued, and a drained queue stays empty |
| `RecorderRuns.QueueNeverFull` | pkg/balance/observation/evaluation.go:124-163 | neither Emit nor publication ever finds the queue full; each queues its record with the next sequence |
| `RecorderAdmission.EmitIsAdmitted` | pkg/balance/observation/recorder.go:161-197 | in every run a valid owner's Emit goes to the queue if and only if the batch is well formed, the sequence has room, and the credits that are out leave room for one more; idle arenas never stand in the way |
| `RecorderAdmission.CaptureIsGranted` | pkg/balance/observation/evaluation.go:43-59 | the same for a capture, with or without pooled storage |
| `RecorderAdmission.EvictIsLeast` | pkg/balance/observation/evaluation.go:203-209 | arenas are evicted until the charge fits or none is idle, and not one more |
| `RecorderAdmission.OwnersWithin` | pkg/balance/observation/recorder.go:87-121 | never more owners than the limit; one more is made if and only if the recorder is open and below it |
| `RecorderAdmission.QueueIsTail` | pkg/balance/observation/recorder.go:274-281 | in every run records leave in the order of admission, and what is queued is the latest part of what was admitted |
| `RecorderRuns.SequencesHaveNoGaps` | pkg/balance/observation/recorder.go:161-197 | each owner's admitted records have no gap and end at its sequence |
| `RecorderRuns.StopsForGood` | pkg/balance/observation/recorder.go:199-208 | an owner that is invalid, with nothing under way, never admits again |
| `Recorder.Owner.Emit` | pkg/balance/observation/recorder.go:161-197 | the two steps of the model in one call: admitted with the next sequence if and only if the owner is valid, the batch well formed, the sequence not exhausted and the charge fits beside the credits that are out; else the owner is invalid; the branch for a full queue is proved dead |
| `Recorder.Owner.PublishEvaluation` | pkg/balance/observation/evaluation.go:124-163 | admitted with the next sequence if and only if it is the owner's own, sealed, still lent, and the owner valid and not exhausted; else the owners involved are invalid and storage still lent is back with its recorder, which may be another one; the branch for a full queue is proved dead |
| `Recorder.Evaluation.Release` | pkg/balance/observation/evaluation.go:112-119 | storage comes back once, a second release changes nothing, and a release before publication invalidates the owner |
| `Recorder.NewRecorder` | pkg/balance/observation/recorder.go:65-77 | made if and only if the identity is nonzero and the limits are within their bounds |
| `Recorder.Recorder.EvictEvaluationStorage` | pkg/balance/observation/evaluation.go:203-209 | idle arenas yield their bytes until the charge fits, and no more of them |
| `Recorder.Recorder.ReserveCharge` | pkg/balance/observation/recorder.go:252-265 | granted if and only if the budget runs, a record is left and the charge fits beside everything but the idle arenas |
| `Recorder.Recorder.ReleaseCharge` | pkg/balance/observation/recorder.go:267-272 | returns one record and its bytes |
| `Recorder.Recorder.AcquireEvaluationStorage` | pkg/balance/observation/evaluation.go:165-187 | the arena released last, or newly charged storage |
| `Recorder.Recorder.ReleaseEvaluationStorage` | pkg/balance/observation/evaluation.go:189-199 | back into the pool, or uncharged once stopped |
| `Recorder.Recorder.CloseEvaluationStorage` | pkg/balance/observation/evaluation.go:211-220 | stops the budget and empties the pool |
| `Recorder.Recorder.DrainQueue` | pkg/balance/observation/recorder.go:307-315 | the loop empties the queue and returns every queued credit, as the model does |

## Left out

- JSON, protobuf and file names: an image stands for the file, and characters for bytes; size and UTF-8 limits appear as predicates on values.
- The metering path without a durable sink, and the flush loop behind the sink.
- The reconcile watermark of the control handler, which is tied neither to durability nor to a drain.
- `RehydrateConn`, `RedirectConnections`, group matching, CIDR lists and the selector around a group: they add easier cases to the same invariant.
- Health, memory and location metrics, and the status factor's memory of balance counts: they enter as arbitrary scores and advice.
- Observation capture inside the group and the policies, logging, metrics and status texts.
- Object identity of backends and connections in the group: they are records in tables under identities, so a stale reference is an identity that the table no longer lists.
- Sorting is stated by its result, a sorted permutation; which of equal elements comes first is open.
- Context cancellation and the closing of lanes appear as outcomes of one attempt; the waiting loop around it is the environment.
- Request identity allocation, capability negotiation and the contents that the snapshot builder accepts are parameters.
- Clock projections, native metadata and the contents of evaluations in the recorder.
- Random routing before 1970, where the ticket is negative.
- LaneQueue.Lane.Push: states one attempt under the lock; waiting, waking and retrying are events of the space model, and cancellation ends them.
- LaneQueue.Lane.PushMetering: states one attempt under the lock, as for a push.
- LaneSchedule.OutboundQueues.Scan: states a scan without interference; with producers in between, each visit is one event of the interleaving model.
- RouterGroup.RouterGroup.Balance: takes the policy's choice and the interval between two migrations as parameters; the policies' own choices are the subject of FactorBalance and SimplePolicy, and the division that gives the interval is left out.
- CpuFactor.FactorCPU.UpdateCpuPerConn: sums in some order of the snapshots, which over the reals is any order.
