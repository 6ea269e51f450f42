# OCIHood provisioning protocol in Dafny

OCIHood starts one cloud instance per account and target, retrying for as long as capacity is missing. Its promise is
that crashes, restarts, lost answers, failed writes and competing processes never leave two instances behind. This
project models the code that keeps the promise and proves it for all histories: the run (`internal/app`), the launch
orchestrator, the capacity watcher, the state store, the reconciliation decision, and the image listing of discovery.

## How the model is built

* **One automaton per engine, over events.** An event is a call with its answer: a probe, a launch request, a sleep, a
  save. `LaunchSpec.LaunchNext` and `WatchSpec.WatchNext` say which event may come next in the two retry engines;
  `RunnerSpec.Next` says it for a whole run and contains both. Facts such as budgets, rotation and the store protocol
  are proved of every event sequence that an automaton accepts.
* **The same without positions.** `LaunchCalls` and `WatchCalls` define from the answers so far, and from nothing else,
  which call is due next, and prove that an automaton accepts a sequence if and only if it makes the calls that are due.
  `Sequel` says of a whole run what each event may be followed by, what it fails for, and what it returns.
* **The code itself, imperatively.** `Launch`, `Watch` and `Runner` follow the loops and assignments of the source on a
  class `World.Env` whose script fixes every answer of provider, store, sleeper, clock and random source. Quantifying over
  scripts quantifies over all environments. The run's context is cancelled at an arbitrary tick, so every finite part of
  a run that would go on for ever is covered. Each method is proved to leave a trace that its automaton accepts and that
  reports the durable record as it is, so everything proved of the automata holds of the loops.
* **The protocol.** `Protocol` composes any number of runner automata with the durable record, the run lock and the cloud
  (token to instance), and adds crashes, power losses and terminations by others at any point.
  `Refinement.InterleavedIsRun` connects the
  two levels: whatever several processes that keep the promise of `Runner.Run` do, interleaved in any order, is a run of
  the protocol, although each of them is verified as if it were alone with the record. `Safety` holds the inductive
  invariant and the theorems over whole histories; `Exactness`, `Listings` and `Returns` put
  histories together move by move (`Scenarios`) to show what cannot be promised, and exactly when.
* **The store.** `Store.Locked.Save` goes through the replace sequence step by step on a disk with a cache, so an error,
  a crash or a power loss may strike between any two steps. `Store.ReadModifyWrite` shows that a client's cycle on that
  disk has exactly the effect `State.After` that all other modules use, and `Writers` interleaves the clients.

Four clients write the one record: the decision, the replacement of an attempt, the watcher's progress and the launch
results. Each save may be refused, may fail without effect, may fail with the new record already in place, or may
succeed; the process may die at any of these points, and a power loss may then bring back any record whose replacement
was never synced.

## Assumptions

`Protocol.Contract`, `Protocol.Apply` and the hypotheses of the theorems state them; nothing else is assumed.

* A retry token stands for at most one instance ever, a token that has one is never refused for lack of capacity, and the
  effect of a launch call is settled when the call ends. Terminated instances do not revive.
* Instances with our tags come only from launches of this protocol; records are not deleted; instance identifiers are not
  empty; `Get` of an identifier describes that instance.
* Freshly drawn tokens differ from all earlier ones. `Reconcile.NewAttemptIsFresh` reduces that to fresh randomness.
* Looking for the instance behind a service limit finds an instance that a launch of this protocol created
  (`internal/provider/oci/launch/launch.go:32-49` filters by our tags), and the service does not answer a listing or a
  `Get` with a capacity error. The latter is an assumption about the service: the adapter classifies such errors like
  those of a launch and would pass one on (`internal/provider/oci/launch/launch.go:30`,
  `internal/provider/oci/launch/launch.go:48`, `internal/provider/oci/launch/launch.go:122-123`).
* One raw account string: locks and files are keyed on it as given, while tags are normalised. Launching is configured, as
  in `cmd/ocihood/main.go:86`; without it a run takes no run lock.
* A decision that finds an expired attempt and observes no instance must not miss an instance that is alive at that
  moment (`Protocol.Informed`); as it saw nothing, that amounts to nothing being alive
  (`Exactness.InformedMeansNothingLives`). It follows from two facts about the listing behind the decision: it was
  complete when it was made, and no launch created an instance between the listing and the run lock
  (`Listings.ListingInforms`, `Listings.AtMostOneWithCompleteListings`). The second fact does not follow from the code,
  which lists before it takes the lock: `Listings.CompleteListingsDoNotSuffice` gives histories of two processes with
  complete listings that break the assumption, and `Exactness.ExpiredDecisionSafeExactly` shows that breaking it in a
  save that is written, even behind an error, is exactly what makes a second instance possible.
  `Safety.SafeUnderAnyObservation` covers all histories without expired decisions, with arbitrary observations.
* Clock readings are arbitrary in the safety theorems. Within one run time does not go backwards and a completed sleep
  lasts. The theorems about what can still happen (`Exactness`, `Listings`, `Returns`) use continuations on one clock that
  never goes back (`Protocol.Forward`).
* The longest retry delay times 1.2 is at most 2^63 nanoseconds, some 240 years, so that no jittered delay leaves the range
  of machine durations.
* Resuming a watch needs distinct availability-domain names, the same after the restart.

## Where code and documentation differ

* The documentation says that missing state never permits creating an instance (`README.md:100-101`). The code decides
  to create when there is no record (`internal/reconcile/reconcile.go:169-171`); the model does as well, and safety does
  not depend on the sentence. An unreadable record does end the run (`Runner.ReconcileAndPersist`).
* "Finished means running" is not true of the code: the public-address loop overwrites the running instance by whatever
  its lookups return. `LaunchSpec.TerminatedIsFinished` stores a terminated instance as running, and
  `LaunchSpec.FinishesOnlyRunningExactly` gives the exact condition.
* "At most n probes between two sleeps" holds within one `Watch` call (`WatchSpec.SleepDiscipline`). Over a whole run it
  does not, because a lost capacity race enters `Watch` again without a sleep: `Rounds.RoundsKeptExactly` says for which
  configurations it holds, `Rounds.FullRoundAndMore` and `Rounds.ManyRounds` build runs that break it, and
  `Rounds.ProbesAreBounded` gives the bound that always holds.
* A token that was replaced may be sent again after a power loss, if its replacement was saved but reported as failed and
  its attempt has not expired by then. `Returns.ReplacedTokenReturnsExactly` gives the exact condition.
* One-shot mode never sleeps in the watcher (`WatchSpec.OneShot`), but its launch attempt may still back off.

## Model

| member | source | states |
|---|---|---|
| Safety.AtMostOneInstance | internal/app/crash_test.go:220-228 | in every history of any number of processes, with crashes, power losses, restarts, lost answers, failed and half-failed saves, outside terminations and arbitrary clocks, at most one owned instance is alive at every moment, if no expired decision misses a live one |
| Safety.SafeUnderAnyObservation | internal/reconcile/reconcile.go:169-181 | the same with stale, incomplete or invented observations, for histories whose decisions find no record, no attempt or an unexpired one |
| Exactness.ExpiredDecisionSafeExactly | internal/reconcile/reconcile.go:179 | in any history that was informed so far, an expired decision keeps safe all informed continuations whose clock never goes back, if and only if its save is not written or its observation misses no live instance; otherwise a continuation with two live instances is constructed, whatever the save reported |
| Exactness.InformedMeansNothingLives | internal/reconcile/reconcile.go:169-179 | what an expired decision must see is exactly that nothing is alive |
| Listings.AtMostOneWithCompleteListings | internal/app/app.go:173-205 | at most one instance is alive in every history in which the listing behind each expired decision was complete when made and no launch created an instance between that listing and the run lock |
| Listings.ListingInforms | internal/app/app.go:173-205 | such a listing still misses nothing at the decision, whatever was terminated meanwhile: under the lock nobody else launches |
| Listings.LastListing | internal/app/app.go:173-208 | a process that waits for the lock, or holds it undecided, decides on its last listing |
| Listings.CompleteListingsDoNotSuffice | internal/app/app.go:173-205 | for exactly the accounts and targets that can have a record, two processes with complete listings and one clock reach an expired decision that misses a live instance, because the listing precedes the lock |
| Returns.ReplacedTokenReturnsExactly | internal/reconcile/reconcile.go:176-178 | a replaced token is sent again in some continuation whose clock never goes back if and only if a power loss can still bring back a record in which its attempt has not expired |
| Safety.InvStep | internal/app/app.go:204-268 | every move keeps the invariant: one lock holder, each position consistent with the record, tokens in use, blocks of launches, well-formed record |
| Safety.LiveStep | internal/app/app.go:249-263 | every informed move keeps that only the record's token has a live instance |
| Safety.ReplacedWhenNothingLives | internal/app/app.go:410-432 | a save that draws a new token happens only when no instance is alive |
| Safety.WriteAhead | internal/app/app.go:467-480 | at every launch call of every history the request's token is not blank and equals the token in the record and in every record that a power loss could leave, and the caller decided that creating is safe |
| Safety.ReplacedOnlyWhen | internal/app/app.go:249-263 | a recorded token is replaced only after an earlier launch call with exactly this token was answered out of capacity, when it has no instance; by a decision that saw no owned instance after expiry; or by a power loss, when it was never sent |
| Safety.LostMeansRefused | internal/launch/launch.go:93-94 | a run that has lost a capacity race made an earlier launch call with its token that was answered out of capacity |
| Safety.TokensRetire | internal/app/app.go:410-432 | a replaced token is never sent again, unless a power loss can and does bring it back |
| Safety.LaunchesAreConsecutive | internal/app/app.go:249-263 | in every history, power losses included, the launches of one token are consecutive |
| Safety.RecordsStayWellformed | internal/reconcile/reconcile.go:140-142 | every durable record of every history is well formed, and a decision on it conflicts exactly when several owned instances were observed |
| Safety.NoUnrelatedClaim | internal/app/app.go:270-277 | every instance id that is stored or returned was observed earlier with our tags, or created by a launch carrying them |
| Safety.ReturnedIsRecorded | internal/app/app.go:270-277 | in every history, whatever other processes do, the durable record says of an instance that a run returns that it is running |
| Safety.VouchedMeans | internal/reconcile/reconcile.go:55-61 | every id a history vouches for goes back to an earlier sighting with our tags or to a launch carrying them |
| Safety.CreateSafeSettled | internal/app/app.go:463-480 | a stored create-safe decision carries a complete attempt whose token is the one now in the record |
| Refinement.InterleavedIsRun | internal/app/app.go:168-282 | any interleaving of processes whose own traces are truthful and accepted, cut by crashes, is a run of the protocol; that each believes itself alone with the record is justified by the run lock |
| Refinement.InterleavedAtMostOne | internal/app/crash_test.go:220-228 | so at most one instance is alive in any interleaving of processes that run the code, if no expired decision misses a live one |
| Refinement.InterleavedAt | internal/app/app.go:204-210 | at every point of such an interleaving each process is where its own events lead, and whoever holds the run lock sees the record its own trace predicts |
| Refinement.TruthfulPrefix | internal/app/crash_test.go:243-430 | a run that is cut short at any point was truthful as far as it got |
| Runner.Run | internal/app/app.go:168-282 | for every environment a run leaves a truthful trace accepted by the runner automaton and gives up the run lock; it returns an instance if and only if its last call stored that instance as running, and the record then names it; it fails only if a lock, a file, a draw or a save was refused or its last event is a reason to; after a negative policy verdict it does nothing; and with an unreadable key file it neither probes nor launches |
| Sequel.WhatFollows | internal/app/app.go:204-277 | what every event of a run is followed by: the guard by the settlement of its own listing, a settled save by watch, launch or end as observation and record say, a lost capacity race by a new attempt or the end of a one-shot run, a stored running instance by its return, and every error by the end |
| Sequel.ReturnsStored | internal/app/app.go:270-277 | a run that returns an instance has just stored it as running, and one that has just stored an instance as running returns it |
| Sequel.FailsAfter | internal/app/app.go:202-268 | where a run may fail, its last event is a reason to, or decision, next attempt or their locks needed more than was there |
| Sequel.LaunchPart | cmd/ocihood/main.go:86-104 | the launch calls of a run are a behaviour of the orchestrator with the run's own configuration and the instance it was placed for |
| Sequel.WatchPart | cmd/ocihood/main.go:56-77 | the probes of a run are a behaviour of the watcher with the run's own configuration and the progress in the record it loaded |
| Runner.Provision | internal/app/app.go:214-266 | after the decision the run ends with an error or with an exit the automaton allows |
| Runner.Cycle | internal/app/app.go:224-266 | one pass of watch and launch: back to a chosen create-safe decision with a stored new attempt, or to an allowed end |
| Runner.ReconcileAndPersist | internal/app/app.go:436-485 | returns a decision only if the record that goes with it was saved, and fails on a conflict or an unreadable record |
| Runner.Settlement | internal/app/app.go:453-477 | the record built field by field is the one the settlement specification stores, with the decision that was taken on the loaded record |
| Runner.NewAttemptAndPersist | internal/app/app.go:410-432 | returns an attempt only if it is in the saved record, with instance and error cleared |
| Runner.WatchCapacity | cmd/ocihood/main.go:56-77 | loads the record, rebuilds the cursor and watches; its events extend the run's trace |
| Runner.LaunchInstance | cmd/ocihood/main.go:86-104 | launches with the decision's attempt, or an empty one; its events extend the run's trace |
| Launch.Run | internal/launch/launch.go:68-194 | for every environment the orchestrator's trace is a complete behaviour with its own result, made of the calls that were due, so store protocol, budgets and the end after a hopeless answer hold of it |
| LaunchCalls.CallsAreDue | internal/launch/launch.go:68-201 | a sequence of events is a behaviour of the orchestrator if and only if each event is the call that the answers before it make due, and it ends with a result if and only if that return is due |
| LaunchCalls.HopelessEnds | internal/launch/launch.go:113-188 | after a terminated instance, a fatal or service-limit answer of `Get` before any running one, a fatal launch answer, or a service limit with no instance behind it, the failure is stored next, nothing is slept off or asked again, and the result is the cause |
| Rounds.ProbesAreBounded | internal/app/app.go:224-266 | in every single run the probes since the last sleep are at most the domains times one more than the capacity races lost since then |
| Rounds.RoundsKeptExactly | internal/app/app.go:249-263 | a configuration keeps to one probe per domain between two sleeps, over whole truthful runs with fresh tokens in every environment, if and only if it is one-shot, refused by an engine, or has a blank account or target |
| Rounds.FullRoundAndMore | internal/app/app.go:249-263 | for every other configuration a truthful run with fresh tokens that probes every domain and one more without a sleep |
| Rounds.ManyRounds | internal/app/app.go:249-263 | and for any distinct draws a run that uses them all and sends a probe for each but the first, without a sleep |
| Launch.Obtain | internal/launch/launch.go:73-136 | the launch loop ends by itself or with the context, and only with an instance to follow or with the result of the automaton |
| Launch.Attempt | internal/launch/launch.go:74-135 | one launch call and each of its outcomes, among them a passed deadline and an unknown kind, lead where the automaton says |
| Launch.Adopt | internal/launch/launch.go:90-92 | polling starts only if the accepted id was stored |
| Launch.ResolveLimit | internal/launch/launch.go:95-112 | behind a service limit the instance is adopted if found, otherwise the attempt fails for good |
| Launch.BackOff | internal/launch/launch.go:117-132 | exhausted budget fails; otherwise the sleep is the longer of backoff and guidance |
| Launch.Follow | internal/launch/launch.go:137-194 | the poll loop ends with the result of the automaton |
| Launch.Poll | internal/launch/launch.go:138-192 | one `Get` and its outcomes: done, gone, failed or another pause |
| Launch.Complete | internal/launch/launch.go:158-185 | a running instance is stored as finished, after waiting for its address if one is expected |
| Launch.AwaitAddress | internal/launch/launch.go:159-181 | the address loop ends by itself within the doublings of the delay, keeping the last description |
| Launch.LookUp | internal/launch/launch.go:161-179 | one lookup: it goes on only below the maximum delay and without an address |
| Launch.Update | internal/launch/runtime.go:29-63 | the three store calls write the record that the specification says, or leave it and report failure, and they fail only if lock, file or save was refused or there is no record |
| Launch.Fail | internal/launch/launch.go:196-201 | stores the failure and returns the cause whatever becomes of that save |
| LaunchSpec.StoreProtocol | internal/launch/launch.go:72-201 | for every provider, store and sleeper: calls match `Accepted? (Finished or Failed)?`, an out-of-capacity return made none, and success means `Finished` returned nil after some `Get` of the followed id showed a running instance |
| LaunchSpec.LaunchesAreBounded | internal/launch/launch.go:73-136 | whenever the minimum delay doubled k times reaches the maximum, every answer sequence has at most k+1 launch calls, if an instance found behind a service limit has an identifier |
| LaunchSpec.LookupsAreBounded | internal/launch/launch.go:159-181 | under the same condition there are at most k+1 lookups of the public address |
| LaunchSpec.SleepIsBounded | internal/launch/launch.go:117-132 | without provider guidance less than twice the maximum delay is slept between launch calls |
| LaunchSpec.FinishesOnlyRunningExactly | internal/launch/launch.go:171-182 | over all truthful behaviours `Finished` is called with running instances only, if and only if no public address is awaited, the configuration is refused, or no instance is given and none can be stored |
| LaunchSpec.TerminatedIsFinished | internal/launch/launch.go:159-182 | from any poll in any environment, a continuation that calls `Finished` with a terminated instance; if there is a record, it is stored as running and the call succeeds |
| LaunchSpec.SuccessHasEvidence | internal/launch/launch.go:137-185 | every success was preceded by a running answer for the id that was given or stored as accepted |
| Watch.Watch | internal/capacity/capacity.go:100-182 | for every environment the watcher's trace is a complete behaviour with its own result, made of the calls that were due, with no probe before the saved deadline; a placement is what the last probe answered, and no miss ends the watch outside one-shot mode; one-shot mode ends by itself |
| WatchCalls.CallsAreDue | internal/capacity/capacity.go:100-182 | a sequence of events is a behaviour of the watcher if and only if each event is the call that the answers before it make due, and it ends with a result if and only if that return is due |
| WatchCalls.PlacementIsAnswered | internal/capacity/capacity.go:133-139 | a placement names the domain and the kind that the last probe was answered in time, which is available or unprobeable, and which was stored |
| WatchCalls.MissIsFollowed | internal/capacity/capacity.go:147-180 | outside one-shot mode a miss is followed by draw, clock, stored deadline and a sleep of at least the guidance, at the end of a round and whenever the provider asked to wait, and otherwise by the probe of the next domain |
| WatchCalls.MissGoesOn | internal/capacity/capacity.go:147-180 | no unavailable, throttled, transient, failed or overdue probe ends the watch outside one-shot mode: it probes again unless a save fails or a sleep is interrupted |
| Watch.Turn | internal/capacity/capacity.go:116-181 | one probe and its outcomes lead where the automaton says |
| Watch.Miss | internal/capacity/capacity.go:152-181 | after a probe without capacity: next domain, end of a one-shot round, or a backoff |
| Watch.BackOff | internal/capacity/capacity.go:167-180 | one more retry, a saved deadline, and a sleep of the same length |
| Watch.DrawDelay | internal/capacity/capacity.go:168-171 | the delay is never negative and never below the guidance |
| Watch.Wake | internal/capacity/capacity.go:110-114 | a persisted deadline in the future is slept off before the first probe |
| Watch.SaveProgress | internal/capacity/runtime.go:51-72 | progress overwrites its fields of the current record and no others, or the save fails, and it fails only if lock, file or save was refused or there is no record |
| Watch.StatusIsReadBack | internal/capacity/runtime.go:35-72 | the text stored of a probe's kind is read back as that kind, and written back as that text |
| Watch.Rebuild | cmd/ocihood/main.go:66-70 | the cursor is the position after the last domain with the stored name, cyclically, and zero if there is none |
| WatchSpec.RoundRobin | internal/capacity/capacity.go:117-153 | the k-th probe of one watch goes to domain (start + k) mod n |
| WatchSpec.WindowCovers | internal/capacity/capacity.go:117-165 | any n consecutive probes of one watch cover all domains |
| WatchSpec.SleepDiscipline | internal/capacity/capacity.go:164-180 | at most n probes between sleeps, one retry more per backoff sleep, and each such sleep is what the last probe asked for, or at least that and inside the jitter band of its retry, and below the maximum |
| WatchSpec.OneShot | internal/capacity/capacity.go:154-162 | one-shot mode never sleeps, makes at most n probes, and reports no capacity only after each domain was probed exactly once |
| WatchSpec.NoEarlyProbe | internal/capacity/capacity.go:110-114 | outside one-shot mode no probe precedes the deadline that was last saved durably |
| Resume.RestartRefines | cmd/ocihood/main.go:61-70 | a watcher that dies in a backoff sleep and is restarted from a record with its progress can from then on do exactly what the uninterrupted one can: same probes, delays, retry counts, saves and result |
| Resume.ResumeRefines | internal/app/app.go:436-485 | the same when the restart first settles the record, whatever it observes, draws and decides, and whatever becomes of that save |
| Resume.CursorIsRedundant | cmd/ocihood/main.go:66-70 | with distinct names the rebuilt cursor equals the one that was lost |
| Resume.RestingIsDurable | internal/capacity/capacity.go:172-178 | during a backoff sleep the durable record holds the watcher's progress |
| Resume.SettleKeepsProgress | internal/app/app.go:458-480 | settling, whatever it decides and whatever becomes of its save, leaves the watcher's progress alone |
| Events.LaunchBackoff | internal/launch/launch.go:211-223 | equals min(maximum, minimum * 2^retry) on machine integers, with no intermediate overflow |
| Events.WatchDoubling | internal/capacity/capacity.go:195-202 | equals the same formula one doubling behind, with no intermediate overflow |
| Events.WatchBackoff | internal/capacity/capacity.go:194-209 | the jittered and capped delay of that base, on machine durations without overflow |
| Events.DelayShape | internal/launch/launch.go:211-223 | the delay lies between minimum and maximum, never decreases with retries, and equals the maximum exactly from the least sufficient number of doublings on |
| Events.DelayDoubles | internal/launch/launch.go:211-223 | the first delay is the minimum, and each retry doubles it up to the cap |
| Events.DoublingsIsLeast | internal/launch/launch.go:117-119 | that number is the least for which the doubled minimum reaches the maximum |
| Events.JitterBand | internal/capacity/capacity.go:203-208 | for every draw in [0, 1) the delay is at least the floor of (1 - jitter) times the base, at most that of (1 + jitter) times the base, and at most the maximum |
| Events.FactorCovers | internal/capacity/capacity.go:203 | the draw decides alone: every factor of the band below its upper end belongs to a draw, and smaller draws give smaller factors |
| Store.Locked.Save | internal/state/state.go:141-193 | whatever step fails or is the last one reached, the path shows exactly the old or the new record, the new one exactly as the result tells; after nil only the new one survives a power loss, and otherwise nothing but the new one and what could survive before; a writer that does not own the lock changes nothing |
| Store.Locked.Close | internal/state/state.go:131-139 | closing is idempotent, frees the lock only of its owner and never touches the file |
| Store.Files.TryLock | internal/state/state.go:108-129 | at most one writer at a time, and failure changes nothing |
| Store.ReadModifyWrite | internal/launch/runtime.go:29-42 | a client's whole cycle on the disk has the effect of one atomic update or none, as its result tells, and frees the lock; it gets as far as saving exactly if the lock is free and there is something to write, and then goes as the steps of the save go; a file that holds no valid record of this key is left as it is; a power loss can bring back only what it could before, or the record saved now |
| Store.LoadExactly | internal/state/state.go:228-270 | there is no record if and only if there is no file; a file is read as the record it holds if and only if it can be decoded, has the supported schema, belongs to this account and target and is valid; otherwise the first defect is reported |
| Writers.Linearizable | internal/state/state.go:108-193 | however lock, load, save and release of the clients interleave, the file is what the committed updates produce one after the other, and no loaded record is stale |
| Writers.SerialKeepsRecord | internal/app/app.go:410-485 | no sequence of client updates makes a record malformed or loses an attempt |
| State.ClientsKeepRecord | internal/app/app.go:410-485 | every client keeps identity, keeps an attempt wholly absent or complete, never removes one, replaces it only by the one just drawn, and stores running only with an id |
| State.NamesAfter | internal/launch/runtime.go:43-63 | a save stores no instance id but the old one, none, or the one its client names |
| State.WrittenIsFound | internal/launch/runtime.go:43-63 | what a written save leaves: an accepted or finished instance and its address, a failure with its text, a new attempt without instance or error, or the watcher's progress with its phase; and which fields each client leaves alone |
| State.SettledPhaseExactly | internal/app/app.go:458-480 | a settled save leaves a running record if and only if one active owned instance was observed that is not another than the recorded one, and names it; a failed one if and only if no decision is safe; and otherwise a provisioning one with the old id |
| State.LocalConflictsUnreachable | internal/reconcile/reconcile.go:140-142 | on a record the program wrote, a decision conflicts exactly when several counted instances were observed |
| World.Env.Save | internal/launch/runtime.go:41 | what a client sees of a save: refused, failed with or without effect, or stored; `Store.Locked.Save` has the steps |
| Reconcile.Decide | internal/reconcile/reconcile.go:139-182 | the two-list loop and cascade give the decision that depends on the counted instances alone |
| Reconcile.DecisionExactly | internal/reconcile/reconcile.go:139-182 | each of the six decisions is taken if and only if: satisfied, exactly one owned instance was observed, active, and not another than the recorded one; resume, exactly one and unknown or another; create, none and no local state; retry, none and a complete unexpired attempt; new attempt, none and no attempt or an expired one; conflict, otherwise; with the id of that instance and the attempt to retry |
| Reconcile.Split | internal/reconcile/reconcile.go:144-156 | the two lists, one per lifecycle, together hold exactly the counted instances with their multiplicities |
| Reconcile.Cascade | internal/reconcile/reconcile.go:157-181 | the cascade over the two lists gives that decision |
| Reconcile.DecisionIgnoresOrderAndNoise | internal/reconcile/reconcile.go:144-156 | permuting the instances and adding or removing unowned or terminated ones never changes the decision |
| Reconcile.CreateSafeExactly | internal/reconcile/reconcile.go:169-181 | creating is allowed if and only if no counted instance was observed and the local state is absent, or is ours with no attempt or a complete one |
| Reconcile.NamedInstanceIsUnique | internal/reconcile/reconcile.go:160-168 | an id in a decision belongs to the only counted instance observed |
| Reconcile.OwnershipIsExact | internal/reconcile/reconcile.go:47-61 | tags made for one target and account are owned by another if and only if target and normalised account agree |
| Basics.NormalForm | internal/reconcile/reconcile.go:47-52 | a normalised account is the lower-case text without the white space around it, and nothing else is lost |
| Reconcile.NewAttemptIsFresh | internal/reconcile/reconcile.go:70-83 | a drawn attempt is complete and not expired, its id is half its token, and tokens agree exactly when the random bytes do |
| Discovery.All | internal/discovery/discovery.go:178-199 | succeeds if and only if the chain of pages ends before cancellation, with the pages in order and all of them; a repeated token means that it never ends; no page is fetched twice |
| Discovery.FetchesAreBounded | internal/discovery/discovery.go:193-197 | over a finite set of tokens the number of fetches is at most its size plus one |
| Discovery.RepeatedNeverEnds | internal/discovery/discovery.go:193-195 | a chain in which a token comes twice never ends |
| Discovery.SortOrdered | internal/discovery/discovery.go:209-214 | every inventory is put in order, newest first and then by id; with distinct ids the order is strict |
| Discovery.SelectUbuntu | internal/discovery/discovery.go:235-249 | the scan of any ordered inventory yields an image to which no other is preferred: highest version, then newest, then least id; nothing exactly when there is no candidate or the best ones have no id |
| Discovery.VersionIsRead | internal/discovery/discovery.go:259-267 | two numbers with a dot between them, with or without leading zeros, are read as the version they denote if they are machine integers, and not at all otherwise |
| Discovery.LessIsLexicographic | internal/discovery/discovery.go:209-214 | identifiers are compared at the first place where they differ, and a prefix comes first |
| Discovery.ChooseUbuntu | internal/discovery/discovery.go:202-249 | listing, sorting and scanning together yield such an image of the complete listing, whatever it contains |
| Discovery.ChoiceDependsOnlyOnSet | internal/discovery/discovery.go:218-249 | whether there is a choice, its id and its version depend only on which images there are, not on order or page split; so does the image, if ids identify images |

## Left out

- Provider adapters, authentication and circuit breakers: foreign calls; an open breaker is one more transient answer.
- Building a circuit breaker: it cannot fail on a configuration that was validated (`internal/config/config.go:231-237`).
- Notifications, logging, command line, output and exit codes: plumbing. `waitingState` and the resumed flag only feed
  notifications.
- Configuration layering and policy checks: field-by-field assignments and range tests; the policy's verdict is a parameter of `Runner.Run`.
- JSON text, file permissions, path building and SHA-256 (`Target.ID`, the account key): target and account stand for
  the names derived from them.
- `LoadAccount`: read-only, and none of the four clients uses it.
- Error texts: the text stored by `Failed` is arbitrary.
- Events.WatchBackoff: exact reals stand for the floating-point product, so rounding is not captured; and delays whose
  jittered value could leave the range of machine durations are excluded, because converting them is left open by Go.
- Events.JitterBand: rounding of the floating-point product is not captured.
- Reconcile.OwnershipIsExact: trimming and lower-casing are those of ASCII text.
- Discovery.All: a page's content is a function of its token, which loses nothing because no token is fetched twice.
- Discovery.SortOrdered: an insertion sort stands for `sort.Slice`; `Discovery.SelectUbuntu` takes any inventory in order,
  so any other sorting algorithm would do.
- The other selectors of discovery (shape, network, subnet, image by identifier) and its input checks: filters that take
  the only match.
- Runner.Run: runs without launching configured, which take no run lock, and the read-only commands.
- Launch.Run: dependencies are present; the request carries only what identity depends on, the token and the key.
- Resume.ResumeRefines: the crash strikes during a backoff sleep; a crash between a probe and its save repeats that round.
- Liveness: a lost capacity race may repeat for ever by design, so no instance need ever be obtained.
