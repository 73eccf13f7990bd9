# Berth in Dafny

Berth is a distributed lease service. A control plane hands out leases with fencing tokens over a
compare-and-swap store. Sidecars and an operator keep workloads gated unless they hold the lease.
This project models five connected parts of it and proves what they promise together:

- **Lease protocol.** `LeaseRecord` holds the record, the version compare-and-swap and the decision each
  operation takes from one record read and one clock read. `MemStore` and `Manager` are the code as it is
  written: loops and early returns over a shared store, where each method takes the writes other clients make
  between its micro-steps. `LeaseRuns`, `LeaseInvariant`, `LeaseTheorems`, `LeaseRelease`, `LeaseCrowding` and
  `SweepInvisible` are the step system of any number of replicas and the theorems over all its interleavings;
  `LeaseAnswers` says over the fields of the record what each operation answers and stores. `K8sStore`
  implements the same compare-and-swap over Kubernetes Lease objects and `SqlPrecision` looks at the time
  precision of the SQL stores. The step system is proved for the three kinds of store there are: `Exact`, which
  keeps nanoseconds (in memory, SQLite); `Micros`, which rounds stored times down to microseconds (Postgres, MySQL),
  while answers report unrounded expiries; and `Shared` (Kubernetes), which rounds in the same way and keeps records in
  objects other writers edit, so that an update which keeps losing to such edits is reported as a conflict though the
  record has not moved. `LeaseCrowding` shows what that does to callers. `Manager` runs on the in-memory store.
- **Runtime sidecar.** `Renewer` is the timed loop of one sidecar, `Exclusion` composes any number of them with
  the server runs, `Heartbeats` follows one sidecar through its ticks, `Enforcer` is signal escalation.
- **Operator epochs.** `Operator` is the step system of phases, registered Pods, gates, target patches and
  admission, with every write optimistic and possibly late. `OperatorFrames`, `OperatorInvariant` and
  `OperatorSteps` carry the inductive invariant, `OperatorTheorems` and `StopFence` the guarantees,
  `OperatorStops` when the operator must stop and what that does, `OperatorWitness` the runs that show they are about
  something, and `Reconciler` the imperative code of one reconcile.
- **Pod injection and workload admission.** `Paths`, `PodSpecs`, `Injection` and `Webhook` are the mutating Pod
  webhook and the final validator, `InjectedPods` what an admitted Pod looks like, `Probes` and `Durations` what the
  injected probe command does in it, `HelperConfig` the environment contract between the webhook and the injected
  helper, `Expansion` what a container runtime does to the values on the way, `Json`, `Binding` and `Admission` the
  stamping of managed objects.
- **Identity strings.** `Identity` and `KeyNames`; `Decimal` is the integer formatting the others share.

Step systems have one total step function; an event that is not possible in a state leaves it unchanged. A
theorem over all event sequences is therefore a theorem over all runs. A *schedule* parameter of a method (`turns`,
`env`, `others`, `between`) is what other clients do between its micro-steps, so its contract speaks about every
interleaving of that operation.

## Assumptions

- One clock, shared by everyone, that does not go back. Times are integers in nanoseconds. A store keeps an instant
  exactly or rounds it down to the microsecond.
- Sidecars on one key have distinct holders. Each holder name is used with one time to live, in whole seconds, which
  is what the API carries, so no store rounds it. It is released only after its sidecar entered shutdown. Every other
  name is free.
- A live sidecar serves its deadline when due, enforcer calls succeed, and straight-line code between two clock
  reads takes no time. A sidecar that entered shutdown counts as finished. The gate of a crashed sidecar is the
  probe's business: `ProbeFailsAfterDeath` bounds it.
- One lease reconcile at a time per BerthLease. The Pod reconciler, admission and delayed API writes interleave
  freely. UIDs are not reused, terminal Pods stay terminal, and the managed binding of a Pod does not change.
- Kubernetes objects are a map guarded by resource versions. A write may be delivered late or never.
- The composed system starts with closed gates. The init container acquires and leaves a fresh marker before that; the
  first thing a sidecar does is remove it, and until then that marker is not part of this model.

## Where the code and its promises differ

- A Release that returns nil "either way the caller no longer holds" (`internal/lease/manager.go:264-269`) need not.
  One case is an Acquire or Renew of the same holder that overlaps it: from every state in which the holder has the
  lease `OverlappedReleaseLies` gives such a run, and `ReleaseCanLieWhenOverlapped` one from the empty store. The other
  is the Kubernetes store, which reports a conflict after four updates lost to edits of other fields, with the record
  and its version unchanged (`RelabellingConflicts`): then a Release of the holder returns nil with nobody else calling
  and nothing written (`CrowdedReleaseLies`). `ReleaseIsFinal` proves the promise whenever nothing of that holder is in
  flight during the call and its write was not crowded out so, and `ReleaseFinalIff` says exactly when it holds: unless
  the write lost with the lease in place, to commits of its own holder alone or to no commit at all.
- For the same reason a Renew on Kubernetes can be refused in favour of its own caller (`CrowdedRenewLies`), and an
  Acquire can give up without one write by anybody (`CrowdedAcquireGivesUp`). On the other stores a lost renewal lost to
  a commit and giving up takes eight: `RefusalIsTrue`, `ExhaustionNeedsEightWrites`. Fencing, atomic grants and the gates
  do not suffer: their theorems are over all three kinds.
- A sidecar's local deadline lies within the server's expiry for every call if and only if the time to live is a
  number of whole seconds, because the client truncates it: `DeadlineCoveredIffWholeSeconds`.
- The operator's deadline lies within the SQL expiry if and only if the time to live is whole milliseconds, which
  whole seconds are: `DeadlineHoldsIff`. A sidecar's deadline is not rounded down and can outlive a
  microsecond-truncated expiry by less than a microsecond: `SidecarDeadlineGap`.
- On a store that rounds to microseconds two gates can therefore be open together. `TwoGatesOpen` is such a run for every
  two waiting sidecars and every start between two microseconds. It is never more than that: at every clock value the
  store can represent at most one gate is open (`AtMostOneOpenGate`), and an overlap lies within the last microsecond
  before one of the two deadlines (`GatesOverlapBriefly`). On a store that keeps nanoseconds there is none.
- Garbage collection is invisible thanks to its grace window alone; a sweep at the instant of expiry would not be:
  `ZeroGraceIsVisible`.
- A stamp reports success even where metadata is not an object and could not be written. `MetadataInTheWay` shows it
  for a Deployment whose Pod template has null metadata; `StampIsValidIff` gives the exact condition under which the
  stamp passes the CREATE check.
- The helper parses exactly the settings the webhook resolved, whatever other variables its container has, if and only
  if no text holds `$$` or a complete `$(...)` and the enforcement grace is at most 9223372036 seconds:
  `HelperReadsBackIff`. A container runtime expands references in values (`ReferenceIsReplaced`). The webhook admits any
  non-negative grace, and the helper multiplies it in 64 bits (`GraceSurvivesIff`). It may wrap to a negative duration,
  which the helper refuses (`OversizedGraceStopsHelper`), or to a short positive one, which it accepts
  (`OversizedGraceShrinks`). `HelperStartsAsResolvedIff` says exactly when it starts with the grace that was meant.

## Model

| member | source | states |
|---|---|---|
| KeyNames.LeaseNameInjective | internal/lease/k8sstore.go:190-192 | over all keys the validation accepts, two dot-joined names are equal exactly when the keys are |
| KeyNames.ValidKeyIff | internal/lease/validate.go:42-56 | a key is accepted if and only if its namespace is a dot-free text of at most 63 characters and the joined name is a DNS subdomain of at most 253 |
| KeyNames.SubdomainIff | internal/lease/validate.go:47-50 | DNS subdomain syntax, character by character, is the label syntax of every segment |
| KeyNames.DottedNamespaceCollides | internal/lease/validate.go:42-56 | without the label rule for namespaces two keys would share one object |
| MemStores.VersionNamesRecord | internal/lease/memstore.go:57-80 | whatever others write meanwhile, a compare-and-swap on a version once read holds exactly while the record is the one then read |
| MemStores.MemStore.Get | internal/lease/memstore.go:28-40 | returns the stored record or nothing |
| MemStores.MemStore.List | internal/lease/memstore.go:43-54 | a snapshot with every record exactly once |
| MemStores.MemStore.Put | internal/lease/memstore.go:57-80 | succeeds exactly when the version predicate holds, and then stores the record one version up; otherwise changes nothing |
| Managers.Manager.AcquireOnce | internal/lease/manager.go:84-151 | one attempt is a grant atomic at its write, an answer atomic at its read, or was overtaken by another write to the key; what it grants, refuses and stores over the fields of the record is LeaseAnswers.AcquireAnswers |
| Managers.Manager.Acquire | internal/lease/manager.go:73-153 | under every schedule: a grant is one atomic step at the write of its attempt, a refusal one at its read, and giving up means all eight attempts were overtaken |
| Managers.Manager.Renew | internal/lease/manager.go:161-234 | under every schedule: a renewal is one atomic step at its write, or reports the winner (or the stale record) after a lost race, having written nothing |
| Managers.Manager.Release | internal/lease/manager.go:243-273 | under every schedule: the tombstone is written only over the very record that was read; a lost race still returns nil |
| Managers.SweepSparesNewerWrites | internal/lease/ttl.go:83-125 | a sweep buries a scanned record exactly when it was expired for the whole grace window and nobody wrote the key since the scan; the token survives |
| Managers.BurialsAre | internal/lease/ttl.go:94-125 | the reported count is the number of scanned records that were dead and still stored as scanned when their turn came |
| Managers.QuietSweep | internal/lease/ttl.go:83-125 | with nobody else writing, a sweep turns exactly the non-tombstone records it scanned that were expired for the whole grace window into tombstones under their tokens |
| Managers.TTLEnforcer.constructor | internal/lease/ttl.go:43-57 | the grace window is always positive |
| Managers.TTLEnforcer.Collect | internal/lease/ttl.go:83-125 | one pass over a snapshot of all records while others write, and the count of records it buried |
| LeaseInvariant.WriteIsLegal | internal/lease/manager.go:97-128 | every write a decision asks for is a fresh grant with a higher token, an extension by its holder, or a burial that keeps the token |
| LeaseInvariant.TokensInRange | internal/lease/manager.go:112-137 | the stored token of every key with a legal history lies in 1..2^31-1 |
| LeaseInvariant.StepKeeps | internal/lease/manager.go:73-273 | every micro-step of every operation keeps the log legal, the store equal to its latest commits and every call explained |
| LeaseInvariant.RunKeeps | internal/lease/manager.go:73-273 | the same over every interleaving |
| LeaseInvariant.KeyStep | internal/lease/manager.go:97-137 | how one micro-step can change the record of a key |
| LeaseTheorems.FencingTokens | internal/lease/manager.go:97-137 | per key over every run: tokens stay in 1..2^31-1 and never decrease, a fresh grant exceeds every earlier token, one token never names two holders or acquisition times, no version gates two writes |
| LeaseTheorems.VersionsCount | internal/lease/memstore.go:64-79 | the stored version is the number of successful writes to the key |
| LeaseTheorems.OneHolderPerToken | internal/lease/manager.go:97-137 | no two callers are ever told they hold one key under one token as different holders |
| LeaseTheorems.GrantIsAtomic | internal/lease/manager.go:73-153 | an Acquire or Renew that reports success is one step of the sequential service at a commit of its own between call and return; it reports the unrounded expiry and stores the rounded one |
| LeaseTheorems.RefusalIsTrue | internal/lease/manager.go:161-234 | a refusal was true of the key during the call, or is a renewal that lost to at least one other write committed during the call, or, on Kubernetes only, one whose write was crowded out |
| LeaseTheorems.ExhaustionNeedsEightWrites | internal/lease/manager.go:84-151 | running out of attempts means at least eight other writes to the key committed during the call, less the attempts that were crowded out, of which there are none but on Kubernetes |
| LeaseRelease.ReleaseIsFinal | internal/lease/manager.go:243-273 | a nil Release of a granted token with no Acquire or Renew of that holder in flight is final in every continuation, unless its write was crowded out, which only Kubernetes does and which means that the holder had the lease when it returned |
| LeaseRelease.ReleaseFinalIff | internal/lease/manager.go:264-273 | over every run and kind of store a nil Release of a granted token is true from its return onward exactly when its write did not lose with the lease in place: to commits of its own holder alone, which belong to Acquire or Renew calls of that holder, or crowded out with none |
| LeaseRelease.OverlappedReleaseLies | internal/lease/manager.go:264-269 | from every state in which a holder has the lease unexpired, for every key, holder, token and time to live, a Renew of that holder committed between the Release's read and write makes it return nil while the holder keeps the token |
| LeaseRelease.ReleaseCanLieWhenOverlapped | internal/lease/manager.go:264-269 | such a run from the empty store, for every key, holder and time to live |
| LeaseAnswers.AcquireAnswers | internal/lease/manager.go:97-149 | over the fields of the record: Acquire is granted exactly to the holder or on a lease nobody has below the ceiling, extends under the same token or takes the next one, hits the ceiling exactly there, and is refused otherwise with the four fields of the record in the way; the stored record field by field |
| LeaseAnswers.RenewAnswers | internal/lease/manager.go:190-211 | Renew is granted exactly to the holder of an unexpired lease under its token and changes the times alone; otherwise the refusal reports the record |
| LeaseAnswers.ReleaseAnswers | internal/lease/manager.go:243-273 | Release buries exactly the lease that it names, expired or not, keeps the token, and writes nothing otherwise |
| LeaseAnswers.SweepAnswers | internal/lease/ttl.go:94-125 | a sweep buries exactly a lease that has been over for the whole grace window |
| LeaseAnswers.UndisturbedIsAtomic | internal/lease/manager.go:73-273 | from every reachable state and on every kind of store, any operation that is left alone is one step of the sequential service |
| LeaseAnswers.HolderReacquires | internal/lease/manager.go:102-105 | from every reachable state an undisturbed Acquire of the holder of an unexpired lease is granted the same token and acquisition time until now plus its time to live, and stores that, rounded |
| LeaseAnswers.HolderRenews | internal/lease/manager.go:190-211 | so is an undisturbed Renew under its token |
| LeaseAnswers.ReleaseHandsOver | internal/lease/manager.go:243-273 | an undisturbed Release of the holder ends the lease, and the next undisturbed Acquire of anybody is granted the next token |
| LeaseAnswers.OthersAreRefused | internal/lease/manager.go:122-129 | while the lease is held an undisturbed Acquire of anybody else is refused with the holder, token, expiry and acquisition time of the record, and nothing is written |
| LeaseCrowding.CrowdedReleaseLies | internal/lease/manager.go:264-269 | on Kubernetes, from every state in which a holder has the lease, a Release whose write is crowded out returns nil with nothing written and no other call |
| LeaseCrowding.CrowdedRenewLies | internal/lease/manager.go:199-234 | on Kubernetes a Renew of the holder whose write is crowded out is refused in favour of the holder itself |
| LeaseCrowding.CrowdedAcquireGivesUp | internal/lease/manager.go:84-151 | on Kubernetes an Acquire that could take or extend the lease gives up after eight crowded attempts with no write by anybody |
| SweepInvisible.Simulation | internal/lease/ttl.go:83-125 | a run with sweeps is simulated by the run without them |
| SweepInvisible.SweepsAreInvisible | internal/lease/ttl.go:94-125 | sweeps inserted anywhere change no Acquire answer, no renewal success, token or ceiling error; only what a refused renewal reports and a mismatched Release may differ |
| SweepInvisible.ZeroGraceIsVisible | internal/lease/ttl.go:43-57 | with a zero grace window a sweep takes a lease its holder could still renew |
| K8sStores.ReadsBack | internal/lease/k8sstore.go:197-286 | a record written into a Lease object reads back rounded, at its version, on fresh and on existing objects |
| K8sStores.RoundedExactly | internal/lease/k8sstore.go:237-297 | a Lease object keeps a record as the Shared kind of the step system does exactly when the time to live is whole seconds, and loses nothing exactly when the times are whole microseconds as well |
| K8sStores.SameVersionSameObject | internal/lease/k8sstore.go:157-180 | whatever others do, a resource version names one state of the object |
| K8sStores.K8sLeaseStore.Attempt | internal/lease/k8sstore.go:157-180 | one pass of the loop stores onto the object it finds, reports a real version change, was overtaken, or fails for a reason it names: the object is gone or the API server refuses the lease duration |
| K8sStores.K8sLeaseStore.UpdateLoop | internal/lease/k8sstore.go:157-183 | the bounded loop: one winning update, a real conflict, or four overtaken updates |
| K8sStores.K8sLeaseStore.Put | internal/lease/k8sstore.go:140-184 | under every schedule of other writers: what was written, and why not more; an error other than a conflict only when the call was cancelled, the object is gone, or the lease duration is refused |
| K8sStores.PutRefinesCas | internal/lease/k8sstore.go:140-184 | Put refines the abstract compare-and-swap: nil is one successful swap at its deciding instant; a conflict changes nothing and is a real one, or an update that lost all four of its attempts |
| K8sStores.AcceptableIff | internal/lease/k8sstore.go:287-297 | the API server takes a written record if and only if it lasts at least a second or is a tombstone |
| K8sStores.ServerWritesAcceptable | internal/lease/k8sstore.go:287-297 | every record the lease service writes with a time to live of a second or more is one of those |
| K8sStores.UndisturbedPutStores | internal/lease/k8sstore.go:140-184 | when others leave the key alone between the steps, Put of a record that can be taken succeeds exactly if the version holds, and then the record is stored |
| K8sStores.RelabellingConflicts | internal/lease/k8sstore.go:157-183 | the latter happens with the abstract store unchanged: whatever the object holds, writers that touch only its labels make Put report a conflict while the swap would hold |
| K8sStores.StoredIsOneCas | internal/lease/k8sstore.go:266-286 | writing onto the object at the expected version is exactly one swap of the abstract store, and no other key moves |
| K8sStores.ConflictIsReal | internal/lease/k8sstore.go:164-173 | the version test on the object agrees with the abstract predicate |
| K8sStores.ForeignMetadataSurvives | internal/lease/k8sstore.go:266-286 | labels and annotations Berth does not own survive a write, and the managed-by label is repaired |
| SqlPrecision.SqlPrecisionIff | internal/lease/sqlstore/dialect.go:136-138 | a SQL store is a store of its dialect's precision exactly for whole-millisecond times to live |
| SqlPrecision.DeadlineHoldsIff | internal/operator/reconciler.go:161-166 | the floored deadline is within the stored expiry for every call and response delay exactly when the time to live is whole milliseconds |
| SqlPrecision.GrantDeadlineWithinStore | internal/lease/sqlstore/sqlstore.go:300-319 | through the whole Acquire: for every whole-second time to live and delay, the operator's deadline is within the life of the record as scanned back |
| SqlPrecision.SidecarDeadlineGap | internal/lease/sqlstore/dialect.go:136-138 | an unrounded deadline can outlive the truncated expiry by less than a microsecond, and exactly when the call started after the last boundary |
| Renewers.Renewer.Begin | internal/acquire/renew.go:51-72 | a handoff is trusted only for its own holder and a positive token, gives no lifetime, and the gate is closed first |
| Renewers.Renewer.TickHeld | internal/acquire/renew.go:126-163 | every outcome of a renewal, including late successes: a success before its deadline keeps the gate open under the token the server reported until one time to live after the call began, a failure before the deadline changes nothing, everything else closes the gate and gives up the lease |
| Renewers.Renewer.TickReacquire | internal/acquire/renew.go:169-200 | gated first; opened only by a success that still proves ownership, and then under the token and until the deadline it gives |
| Renewers.DeadlineCoveredIffWholeSeconds | pkg/client/leases.go:32-44 | every grant outlasts the caller's deadline exactly when the time to live is whole seconds |
| Exclusion.CoverageKept | internal/acquire/renew.go:113-200 | nothing any replica, client or sweep does shortens the record behind a deadline that has not passed |
| Exclusion.NewGrantKept | internal/lease/manager.go:84-151 | a call that comes back granted covers its caller's deadline, rounded down to the store's precision, from the moment of its commit, and reports an expiry no earlier than that deadline |
| Exclusion.MoveKeeps | internal/acquire/renew.go:67-208 | every move of the composed system keeps the invariant |
| Exclusion.AtMostOneOpenGate | internal/acquire/renew.go:113-200 | in every reachable world of any number of sidecars on any kind of store, at every clock value the store can represent, at most one live gate is open; on an exact store that is every clock value |
| Exclusion.GatesOverlapBriefly | internal/acquire/renew.go:113-200 | two live gates are open together only on a microsecond store, only between two microseconds and only within the last microsecond before one of the two deadlines |
| Exclusion.TwoGatesOpen | internal/lease/sqlstore/dialect.go:136-138 | on a microsecond store, for any two waiting sidecars and any start between two microseconds, a run in which both gates are open |
| Exclusion.OpenGateHoldsLease | internal/acquire/renew.go:126-163 | up to its local deadline rounded down to the store's precision an open gate has the stored record behind it, under the very token the sidecar keeps, expiring no earlier than that; the rounding costs less than one unit |
| Exclusion.ProbeNeverFailsSpuriously | internal/acquire/state.go:173-183 | while a live sidecar keeps the marker, a probe bounded by one time to live passes |
| Exclusion.ProbeFailsAfterDeath | internal/acquire/state.go:173-183 | whenever a sidecar dies, every probe from one heartbeat after the expiry the server last reported to it on fails |
| Exclusion.GateOpens | internal/acquire/renew.go:169-200 | from an empty store an undisturbed acquisition opens the gate of any waiting sidecar |
| Heartbeats.RenewalKeepsOpen | internal/acquire/renew.go:126-163 | in every reachable world an undisturbed renewal leaves an open gate open, confirmed until now plus the time to live, with the stored record extended under the same token |
| Heartbeats.TickDoes | internal/acquire/renew.go:113-200 | what a tick asks the server: a holding sidecar past its deadline closes instead, one before it renews under its token, any other acquires with its gate closed, and no call lasts beyond a heartbeat or a confirmed deadline |
| Heartbeats.LossCloses | internal/acquire/renew.go:126-163 | a refused, conflicting or hopeless renewal closes the gate and gives up the lease |
| Heartbeats.FailureIsRiddenOut | internal/acquire/renew.go:126-163 | a failed call before the deadline changes nothing |
| Heartbeats.DeadlineCloses | internal/acquire/renew.go:67-108 | the loop closes an open gate at its deadline |
| Heartbeats.NoGrantStaysShut | internal/acquire/renew.go:169-200 | a waiting sidecar whose Acquire fails, is refused or comes too late stays gated |
| Heartbeats.RestartIsGated | internal/acquire/renew.go:51-72 | a restarted sidecar resumes a positive token stored under its own name, but no lifetime, and is gated |
| Enforcers.SignalEnforcer.Hold | internal/acquire/enforce.go:71-107 | the health marker goes first whatever becomes of the signals; one pass over the process list; an error exactly when the marker or the list failed or a signal was refused for another reason than a process that is gone |
| Enforcers.SignalEnforcer.Release | internal/acquire/enforce.go:109-116 | a new episode starts with no memory, the marker is restored, and an error exactly when it could not be |
| Enforcers.KillFollowsTerm | internal/acquire/enforce.go:71-116 | over every sequence of calls each SIGKILL follows a SIGTERM sent to that process at least the grace period earlier with no release between |
| Enforcers.OneTermPerEpisode | internal/acquire/enforce.go:71-116 | a process gets at most one SIGTERM per gated episode |
| Enforcers.EveryProcessTreated | internal/acquire/enforce.go:71-107 | no listed process is spared: first pass terminates, every pass after the grace period kills |
| OperatorInvariant.IssueKeeps | internal/operator/workload.go:185-223 | a write issued from a snapshot keeps the invariant whenever it is justified by that snapshot |
| OperatorSteps.LandStatusKeeps | internal/operator/workload.go:208-213 | a status write that lands late, of whatever kind, keeps the registry, the recorded identity and what the reconciler knows |
| OperatorSteps.AdmitKeeps | internal/operator/admission.go:396-410 | admission lets a gate removal through only for a Pod the active lease already names |
| OperatorSteps.KeptAll | internal/operator/workload.go:239-255 | pruning keeps exactly the registered Pods that are alive |
| OperatorSteps.PruneOk | internal/operator/workload.go:239-255 | pruning forgets only incarnations that can never run again |
| OperatorSteps.NoneAlive | internal/operator/workload.go:124-154 | a listing without a live Pod means none runs and no late gate removal can start one |
| OperatorSteps.StepKeeps | internal/operator/reconciler.go:80-273 | every event of the operator, the world and the API server keeps the invariant |
| OperatorSteps.RunKeeps | internal/operator/reconciler.go:80-273 | the same over every run |
| OperatorTheorems.RegistryCoversRunningPods | internal/operator/workload.go:185-223 | over every run each ungated non-terminal managed Pod is in the durable registry, which never exceeds 1024 entries |
| OperatorTheorems.RecordedIsLastActivation | internal/operator/reconciler.go:172-176 | the history variable is the identity of the most recent Active status |
| OperatorTheorems.QuiescentStays | internal/operator/admission.go:396-410 | while the lease is not Active no step, late or not, starts a Pod |
| OperatorTheorems.ReleaseIsSafe | internal/operator/reconciler.go:212-253 | a central Release is sent only when no managed Pod runs, names exactly the lease, holder and token of the last activation, and no Pod runs before a later Active epoch |
| OperatorWitness.PodRuns | internal/operator/workload.go:185-223 | for every configuration a run in which the target is admitted, the lease activated, a Pod registered, permitted and running |
| OperatorWitness.EpochEndsInRelease | internal/operator/reconciler.go:212-253 | and its continuation in which the deleted lease is closed, the target stopped under the fence, the Pod seen ended, and the identity of the epoch released |
| OperatorWitness.ReleaseHappens | internal/operator/reconciler.go:213-253 | a run in which a deleted lease of the legacy kind is closed, drained and released |
| OperatorStops.ActiveAtIs | internal/operator/workload.go:180-183 | a lease permits Pods exactly while it is not deleted, its epoch open under a positive token and the deadline ahead |
| OperatorStops.CheckDecides | internal/operator/reconciler.go:96-131 | what a reconcile decides before asking: stop, leave alone, or ask, over the fields of the lease and the checks |
| OperatorStops.AnswerDecides | internal/operator/reconciler.go:131-176 | what the central answer decides: a lease held by somebody else is stopped; without an answer exactly an epoch that has run out is; a bad answer ends the reconcile; a grant with no whole second left or under another token than the open epoch stops; any other opens the epoch under the granted identity |
| OperatorStops.DeadlineIs | internal/operator/reconciler.go:161-166 | the deadline is the last whole second within one time to live of the request and within the reported expiry |
| OperatorStops.StopCloses | internal/operator/reconciler.go:212-226 | a reconcile that must stop issues the Stopping status for the very version it read, with identity and registry kept, unless it read one |
| OperatorStops.ClosingLands | internal/operator/reconciler.go:220-226 | that write lands exactly while nobody else has written the lease, and then no Pod is permitted |
| OperatorStops.LostLeaseStops | internal/operator/reconciler.go:142-150 | told that somebody else holds the lease, the operator closes it |
| OperatorStops.SpentEpochStops | internal/operator/reconciler.go:96-131 | so it does an Active lease past its deadline, under another holder name, or without a valid spec or a verified target |
| StopFence.CommitStales | internal/operator/actions.go:116-139 | once a patch committed, every other pending patch of that incarnation is stale |
| StopFence.FenceStep | internal/operator/actions.go:58-139 | every event keeps the order between stop fences, activations and lease versions |
| StopFence.FenceShuts | internal/operator/workload.go:94-112 | a stop that writes nothing because its own fence is in place is as good as one that writes |
| StopFence.ShutStays | internal/operator/actions.go:97-107 | while the lease is not Active a stopped target stays stopped |
| StopFence.StoppedTargetStaysStopped | internal/operator/actions.go:58-139 | once a stop patch of the target committed while the lease is not Active, however late and even if its reconcile was aborted, or a reconcile found its own fence, no activation patch prepared earlier can commit and the target stays at zero until the lease is Active again |
| Reconcilers.PruneCompleted | internal/operator/workload.go:239-255 | the registry becomes the entries alive in the listing |
| Reconcilers.PrunedIs | internal/operator/workload.go:239-255 | pruning keeps exactly the registered Pods that the listing shows as not finished, and every other field |
| Reconcilers.DrainPods | internal/operator/workload.go:124-154 | done exactly when everything accountable is terminal; deletes exactly the accountable Pods not yet deleting, in order; an error exactly when one of these deletions fails, and then a prefix of them |
| Reconcilers.DrainJobs | internal/operator/workload.go:156-178 | suspends and deletes every managed Job, in order; an error exactly when one of these calls fails, and then a prefix of them; done exactly on an empty listing |
| Reconcilers.ToDeleteIs | internal/operator/workload.go:124-154 | a deletion is asked for exactly for a listed Pod that is bound to the lease or registered under its name and UID, and is not being deleted yet |
| Reconcilers.ByNameIs | internal/operator/workload.go:125-130 | of two registered Pods with one name the later counts |
| Reconcilers.ToDrainIs | internal/operator/workload.go:156-178 | every Job not yet deleting is deleted, right after its suspension unless it is suspended already, and nothing is done to any other |
| Reconcilers.DrainSeesEveryPod | internal/operator/workload.go:124-154 | a finished drain over a complete listing is the guard of the release step |
| Reconcilers.CloseAdmission | internal/operator/reconciler.go:213-226 | the Stopping phase is written once, taking over the legacy identity when there is no workload record |
| Reconcilers.Drain | internal/operator/reconciler.go:212-241 | the calls are a prefix of close, fenced stop, Jobs, Pods, and all of it without an error; an error exactly when one of the answers is one; the stop is asked for once the Stopping phase is durable, whatever follows; done exactly when the answers show everything drained |
| Reconcilers.StopAndRelease | internal/operator/reconciler.go:212-273 | every call, the status left and the error, from the answers; a Release only after a durable Stopping phase, the fenced stop and a finished drain, under the recorded identity; cleanup state is cleared only after the Release is settled |
| Reconcilers.ReleasedIff | internal/operator/reconciler.go:212-253 | stopping sends a Release if and only if the recorded identity is complete, the Stopping phase durable, the target stopped, no Job left, every listed Pod of the lease finished and no deletion failed; the fenced stop was sent before |
| Reconcilers.PlanKeeps | internal/operator/reconciler.go:212-241 | no call of the drain releases the lease or gives up its record |
| Reconcilers.PermitPod | internal/operator/workload.go:185-223 | every call, the lease left and the error in every case; a gate is removed only under an active lease and after the registry naming the Pod is durable; the registry stays bounded |
| Reconcilers.UngatedIff | internal/operator/workload.go:185-223 | the gate comes off if and only if the lease is active, the Pod is gated, live and its own, and on record or durably put there, of which there are at most 1024 |
| Reconcilers.Activate | internal/operator/reconciler.go:131-195 | each outcome over the answer and the fields of the lease, and that it is the protocol's decision: a lease held by another stops, so does an epoch that has run out, a grant with no whole second left, or a changed token; ownership is durable before anything is activated; the deadline lies after now, within one time to live of the request and within the reported expiry |
| Reconcilers.SameVersionUntouched | internal/operator/actions.go:116-139 | a target version names one state of one incarnation |
| Reconcilers.TargetServer.ApplyFencedAction | internal/operator/actions.go:39-140 | every outcome, with absent and malformed fields, missing targets and empty actions: the patch commits only on the state it was prepared from, and with a fence it always leaves the fence |
| Reconcilers.StopActionStops | internal/operator/workload.go:94-112 | the stop action for either kind of target is the protocol's stop: no activity, under the fence, and nothing to write exactly when both hold already |
| Reconcilers.ReconcilePod | internal/operator/pod_controller.go:19-45 | late Pods are deleted when the lease is gone, replaced, deleted or stopping, permitted as PermitPod does under an active one, and left alone otherwise |
| Paths.BelowDirectory | internal/webhook/inject.go:658-663 | every plain path written below an absolute directory is found to lie below it after cleaning |
| Paths.BelowFile | internal/webhook/inject.go:658-677 | whatever cleans to a file of a directory, or below it, is found to lie below the directory and is not the directory itself |
| Paths.FileFound | internal/webhook/inject.go:577-607 | a file projected under its base name into a volume mounted at its directory lies where the cleaned path points |
| PodSpecs.Resolve | internal/webhook/inject.go:433-511 | only validated settings come out, and signal enforcement never against an explicit opt-out |
| InjectedPods.ResolveIff | internal/webhook/inject.go:433-511 | settings are resolved if and only if they are what the annotations, or the defaults for absent ones, and the controlling owner say, they can be worked with, and signals are not against an explicit opt-out |
| InjectedPods.HelpersStart | internal/webhook/inject.go:515-575 | an admitted Pod starts with the acquiring init container, in runtime mode followed by the renewing sidecar that restarts always, with their images, arguments and writable state mount |
| InjectedPods.HelperNamesUnique | internal/webhook/inject.go:354-363 | nobody else in an admitted Pod carries a helper's name |
| InjectedPods.ValidPodShows | internal/webhook/validate.go:17-59 | what the final validation guarantees of a Pod, spelled out: helpers, state volume, probes and read-only mounts |
| InjectedPods.OrdinaryPodIsAdmitted | internal/webhook/inject.go:354-403 | every Pod that touches nothing reserved, brings no probes or init containers of its own in runtime mode and asks for workable settings is admitted |
| InjectedPods.DebugAllowedIff | internal/webhook/inject.go:270-324 | on the debug path a Pod passes if and only if nobody but a helper mounts the state volume writable |
| InjectedPods.HelpersFindCredentials | internal/webhook/inject.go:577-607 | every helper of an admitted Pod finds the configured API key and CA bundle at the very paths its environment names |
| Injection.EnforcedIsGated | internal/webhook/inject.go:639-654 | a container that passed preflight carries the unmodified probe and the complete read-only state mount |
| Injection.AdmittedIsValid | internal/webhook/validate.go:17-59 | every Pod the mutating webhook admits passes the final validation unchanged, in both modes and both enforcement kinds |
| Injection.OnlyHelpersWrite | internal/webhook/inject.go:270-324 | only the injected helpers hold a writable mount of the state volume, whatever names the author chose |
| Injection.AuthorsSurvive | internal/webhook/inject.go:515-575 | author containers survive in order; only probe and state mounts change |
| Injection.NeverInjectedTwice | internal/webhook/inject.go:354-363 | an injected Pod submitted again is refused |
| Injection.ProbeFilesUnshadowed | internal/webhook/inject.go:656-677 | no accepted container mounts anything at or below the marker, the check binary or any other state file, however the path is spelled |
| Durations.ParseOfText | internal/webhook/inject.go:617-622 | the age bound the webhook writes is read back by the check command as the time to live, for every number of seconds that 64 bits of nanoseconds hold |
| Probes.WorkloadProbe | cmd/berth-acquire/main.go:113-143 | the command injected into a workload container passes exactly when the marker in the state directory is there and no older than one time to live |
| Probes.AdmittedProbePasses | internal/acquire/state.go:159-183 | while the sidecar of an admitted Pod keeps its gate open, every workload container of the Pod passes its probe |
| Probes.AdmittedProbeFails | internal/acquire/state.go:159-183 | from one heartbeat after the expiry last reported to the sidecar on, every probe of every workload container fails, whatever became of the sidecar |
| Probes.DeadSidecarEndsWorkload | internal/webhook/inject.go:609-637 | with the injected period a probe that fails for good runs within two seconds of that instant |
| Webhook.PodInjector.CheckStateVolumeMounts | internal/webhook/inject.go:270-324 | what is repaired, accepted or refused, on the create and on the debug path |
| Webhook.PodInjector.ValidateProbeMounts | internal/webhook/inject.go:658-677 | accepts exactly the containers whose probe sees the trusted mount |
| Webhook.PodInjector.Preflight | internal/webhook/inject.go:354-403 | accepts exactly the Pods that can be injected |
| Webhook.PodInjector.ApplyEnforcement | internal/webhook/inject.go:639-654 | every container in place with the probe and the mount that Injection.EnforcedIsGated and Probes.WorkloadProbe speak of, and shared process ids exactly for signals |
| Webhook.PodInjector.Mutate | internal/webhook/inject.go:515-575 | volumes, helpers, enforcement and the marker annotation |
| Webhook.PodInjector.Default | internal/webhook/inject.go:192-251 | on the create path a success leaves a Pod that passes the final validation; the debug path changes nothing |
| Webhook.PodInjector.ValidateCreate | internal/webhook/validate.go:17-59 | accepts exactly the valid final Pods |
| Expansion.VerbatimIff | internal/webhook/inject.go:680-706 | a value reads as written whatever the other variables are exactly when it holds no escape and no complete reference |
| Expansion.VerbatimText | internal/webhook/inject.go:680-706 | those are the texts in which no two dollar signs are adjacent and no closing parenthesis follows an opened reference |
| Expansion.ReferenceExpands | internal/webhook/inject.go:680-706 | a reference is replaced by the value of its variable, and what follows is expanded on its own |
| Expansion.EscapeExpands | internal/webhook/inject.go:680-706 | two dollar signs become one, and what follows is expanded on its own |
| HelperConfig.EnvReads | internal/webhook/inject.go:680-706 | every variable reads what the webhook wrote for it, as its value arrives |
| HelperConfig.HelperReadsBackIff | internal/acquire/env.go:47-117 | the environment round trip: whatever the other variables are, the helper parses exactly the settings the webhook resolved, if and only if the texts are verbatim and the grace is at most 9223372036 seconds |
| HelperConfig.AdmittedHelpersReceive | internal/webhook/inject.go:515-575 | both helpers of an admitted Pod parse the settings resolved for it, under that condition |
| HelperConfig.HelperHolderIs | internal/acquire/config.go:199-246 | the holder of an injected helper, spelled from the annotation, the cluster id, the controlling workload and what the downward API fills in |
| HelperConfig.PodsNeverShareHolder | internal/acquire/config.go:155-168 | the helpers of two runtime Pods that start without an explicit holder never share one, across clusters, settings and workloads |
| HelperConfig.GraceSurvivesIff | internal/acquire/env.go:107-117 | through the whole round trip the grace arrives as resolved exactly up to 9223372036 seconds |
| HelperConfig.ReferenceIsReplaced | internal/webhook/inject.go:680-706 | a holder that refers to the Pod's name, which an earlier variable carries, arrives as that name |
| HelperConfig.SecondsSurviveIff | internal/acquire/env.go:107-117 | a number of seconds survives the 64-bit conversion exactly up to 9223372036 |
| HelperConfig.WrapIs | internal/acquire/env.go:107-117 | the multiplication is taken modulo 2^64 into the signed range |
| HelperConfig.HelperStartsIff | internal/acquire/config.go:131-188 | with verbatim texts the helper accepts its configuration exactly with an API server, a namespace, a valid identity and a grace that is not negative after wrapping to 64 bits |
| HelperConfig.HelperStartsAsResolvedIff | internal/acquire/config.go:131-188 | and it starts with the settings that were resolved exactly with an API server, a namespace, a valid identity and a grace of at most 9223372036 seconds |
| HelperConfig.OversizedGraceStopsHelper | internal/acquire/env.go:107-117 | a grace period the webhook admits and the helper refuses, because it wraps to a negative one |
| HelperConfig.OversizedGraceShrinks | internal/acquire/env.go:107-117 | a grace period both accept, which wraps from centuries to a third of a second |
| HelperConfig.HelperSettings.Validate | internal/acquire/config.go:131-188 | accepts exactly the valid configurations, after defaulting |
| HelperConfig.StartsIff | internal/acquire/config.go:131-188 | the helper starts if and only if what it was given, before defaulting, meets these conditions; without a heartbeat interval a time to live of three nanoseconds |
| HelperConfig.DefaultsAre | internal/acquire/config.go:104-126 | what each missing setting becomes |
| HelperConfig.DefaultsSettle | internal/acquire/config.go:104-126 | defaulting is idempotent and changes nothing that was set |
| Binding.StampedIs | internal/operator/admission.go:202-216 | stamping changes the metadata alone, and nothing when that is not an object |
| Binding.GateOnce | internal/operator/admission.go:241-257 | the gate is on, once, and the rest of the template is untouched |
| Binding.StampIsIdempotent | internal/operator/admission.go:226-275 | a successful stamp is a fixed point, for every kind including the nested CronJob templates |
| Binding.StampIsValidIff | internal/operator/admission.go:292-336 | its result passes the CREATE check exactly when metadata could be written at every level and the template names no node |
| Binding.MetadataInTheWay | internal/operator/admission.go:202-216 | a Deployment, with any metadata of its own, whose template metadata is null: the stamp succeeds and the check fails |
| Admission.Unstructured.StampBinding | internal/operator/admission.go:226-275 | the in-place edit with copied-out templates is the stamp, a fixed point, and valid exactly when prepared |
| Admission.Unstructured.ValidateManagedObject | internal/operator/admission.go:292-336 | accepts exactly the validly stamped objects at CREATE |
| Identity.BuildHolder | internal/acquire/config.go:199-246 | the collected parts make the holder |
| Identity.HolderSpelled | internal/acquire/config.go:199-246 | a derived holder is its root and, behind a slash, the other components joined by colons, down to the Pod name and UID in runtime mode; an explicit one is used as it is |
| Identity.GateHolderShared | internal/acquire/config.go:216-222 | behind the startup gate all Pods of a workload share one holder |
| Identity.ValidIdentityIff | internal/acquire/config.go:155-168 | a derived runtime holder is accepted if and only if the central service accepts it and the UID holds no separator or white space |
| Identity.UsualUidIsValid | internal/acquire/config.go:155-168 | every UID of lower-case letters, digits and dashes passes |
| Identity.HoldersDistinct | internal/acquire/config.go:155-168 | validated runtime configurations with different Pod UIDs derive different holders whatever else they contain |
| Identity.OneTenant | internal/tenant/authorizer.go:76-98 | any holder is authorized for at most one tenant |
| Identity.HolderOwner | internal/tenant/authorizer.go:76-98 | every holder belongs to exactly the tenant named before its first slash, when that is not empty |
| Identity.DerivedHolderOwner | internal/acquire/config.go:230-246 | a derived holder belongs to exactly the tenant before the first slash of its root, when that is not empty |
| Identity.RootSameInBothModes | internal/acquire/config.go:199-215 | both modes share one root |
| Decimal.ParseOfFormat | internal/lease/k8sstore.go:197-203 | formatting and parsing a 64-bit integer is a round trip |

## Left out

- HTTP routing, JSON decoding of requests, authentication, TLS, metrics, logging and status conditions: plumbing around the modelled decisions.
- Clock skew between replicas: the code promises no exclusion under it.
- Overlapping operator leaders, and exclusion of operator-run Pods after a partition: the operator drains after its deadline and does not promise to finish by expiry.
- Progress: apart from GateOpens, PodRuns, EpochEndsInRelease and ReleaseHappens nothing is proved about what must eventually happen.
- BerthLeases without a target, and the finalizer being added: they touch no managed Pod.
- K8sLeaseStore transport errors: a failed read or write of the API server is modelled as one error that ends the call, together with cancellation and rejected durations.
- Record versions beyond 64 bits, and out-of-band edits or deletions of the record itself in a shared object: the step system knows only edits that leave it alone.
- K8sStores.PutRefinesCas: an object without Berth's key annotations counts as a record of its name, as it does for Put; Get and List report an error for it or skip it.
- HelperConfig.HelperReadsBackIff: speaks of every mapping of references. A container runtime gives earlier and service variables their values and leaves an undefined reference as written, so with one given set of variables a text with a reference may arrive unchanged.
- Operator.Do: raising a target's activity by anybody but the operator is not a step, because the stop fence is promised for Berth's own writes only.
- Reconcilers.TargetServer.ApplyFencedAction: a patch that fails for another reason than a conflict is not modelled, and the fence annotation is a version number or absent.
- Reconcilers.Activate: the central Acquire itself is a parameter, and the fields of the status that no later decision reads are not modelled.
- resolveBinding and the UPDATE branches of workload admission: owner chains appear as one flag of PermitPod.
- Json: nulls inside label and annotation maps read as empty strings, as in the Kubernetes client library; other library behaviour of unstructured objects is modelled as its accessors document it.
- Injection: container fields the injector neither reads nor writes are one opaque value; the operator-side checks of InjectorConfig are not part of this model.
- Strings are sequences of characters: byte lengths equal character counts only for ASCII.
- SQL engines and transactions: only the precision of the stored columns. MySQL and Postgres times to live below a second do not reach them through the API.
- Durations.ParseDuration: signs, fractions and the micro sign are not read, because the webhook writes none.
- Probes.ReadArgs: the age bound is read only in the spelling with the value as the next argument, which is the one the webhook writes; configuration flags of the check command are not modelled.
- Reading /proc and renaming files: process lists and the fate of each signal are given, and the marker is one modification time in `Exclusion` and present or absent in `Enforcer`.
