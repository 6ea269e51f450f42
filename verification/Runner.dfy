/** internal/app/app.go and the closures of cmd/ocihood/main.go: one provisioning run as it executes. */
module Runner {
  import opened Basics
  import opened Reconcile
  import opened State
  import opened Events
  import opened LaunchSpec
  import opened WatchSpec
  import opened RunnerSpec
  import opened Sequel
  import opened World
  import Launch
  import Watch

  /** The longest delay, jitter included, is a machine duration. */
  predicate Ranged(setup: Setup) {
    Convertible(setup.retryMax, Watch.JITTER)
  }

  /** The run has got as far as `pc`, and its events tell the truth. */
  ghost predicate At(w: Env, pc: Pc)
    reads w
  {
    w.Honest() && RunAfter(w.Trace()) == Some(pc)
  }

  /** The run may only end, with an error. */
  ghost predicate Doomed(w: Env)
    reads w
  {
    w.Honest() && RunAfter(w.Trace()).Some? && MayFail(RunAfter(w.Trace()).value)
  }

  /** Between the two traces nothing was probed and nothing launched. */
  predicate Harmless(es: seq<Event>, more: seq<Event>) {
    |es| <= |more| && more[..|es|] == es && forall k | |es| <= k < |more| :: !more[k].Probed? && !more[k].Launched?
  }

  lemma HarmlessTogether(a: seq<Event>, b: seq<Event>, c: seq<Event>)
    requires Harmless(a, b) && Harmless(b, c)
    ensures Harmless(a, c)
  {
    assert c[..|a|] == c[..|b|][..|a|];
    assert forall k | 0 <= k < |b| :: c[k] == c[..|b|][k];
  }

  lemma AppendHarmless(es: seq<Event>, e: Event, more: seq<Event>)
    requires Harmless([], more) && !e.Probed? && !e.Launched?
    ensures Harmless(es, es + [e] + more)
  {
  }

  lemma {:induction false} ExistingIsHarmless(plan: LaunchInput, es: seq<Event>)
    requires LaunchAfter(plan, es).Some? && plan.existing != ""
    ensures !BeforeInstance(LaunchAfter(plan, es).value) && Harmless([], es)
  {
    if es != [] {
      ExistingIsHarmless(plan, es[..|es| - 1]);
      LaunchStepKnows(plan, LaunchAfter(plan, es[..|es| - 1]).value, es[|es| - 1]);
    }
  }

  /** Something was refused on the way, or the last event is a reason to give up. */
  twostate predicate HasReason(w: Env)
    reads w
  {
    w.refusals > old(w.refusals) || Blamed(w.Trace())
  }

  /** One event of the run itself. */
  ghost method Step(w: Env, e: Event)
    requires w.Honest() && Reports(w.key, w.record, e) && RunAfter(w.Trace()).Some?
    requires !e.Saved? && !e.Clock? && !e.Slept? && !e.Probed?
    modifies w`log
    ensures w.Honest() && w.Trace() == old(w.Trace()) + [e]
    ensures RunAfter(w.Trace()) == Next(old(RunAfter(w.Trace())).value, e)
  {
    RunSnoc(w.Trace(), e);
    w.Record(e);
  }

  twostate predicate SavedAs(w: Env, write: Write, now: Time, out: Outcome)
    requires old(RunAfter(w.Trace())).Some?
    reads w
  {
    && Feasible(w.key, write, old(w.record), now, out)
    && RunAfter(w.Trace()) == Next(old(RunAfter(w.Trace())).value, Saved(write, old(w.record), now, out))
  }

  /** `Locked.Save` by the run itself. */
  method Store(w: Env, value: Record, ghost write: Write, now: Time) returns (ok: bool)
    requires w.Honest() && RunAfter(w.Trace()).Some? && Change(w.key, write, w.record, now) == Some(value)
    modifies w
    ensures w.Honest() && w.tick > old(w.tick)
    ensures exists out :: SavedAs(w, write, now, out) && ok == out.ok
    ensures (ok || w.refusals > old(w.refusals)) && w.refusals >= old(w.refusals)
    ensures ok || old(w.record).Some? ==> w.record.Some?
    ensures Harmless(old(w.Trace()), w.Trace())
  {
    hide Faithful, Replay, Timed, Latest, Feasible, After, Change, Next;
    ok := w.Save(value, write, now);
    ghost var out :| w.Writes(write, now, out) && ok == out.ok;
    ghost var e := Saved(write, old(w.record), now, out);
    RunSnoc(old(w.Trace()), e);
    assert w.base + w.log == old(w.Trace()) + [e];
    assert SavedAs(w, write, now, out);
  }

  /** `reconcileAndPersist`: nothing when it fails. */
  method ReconcileAndPersist(w: Env, setup: Setup, seen: seq<Instance>) returns (r: Option<Decision>)
    requires At(w, Holding(setup, seen)) && setup.key == w.key
    modifies w
    ensures w.tick > old(w.tick) && Harmless(old(w.Trace()), w.Trace())
    ensures r.Some? ==> At(w, Chosen(setup, r.value)) && w.record.Some?
    ensures r.None? ==> Doomed(w) && HasReason(w)
    ensures w.refusals >= old(w.refusals)
  {
    hide Faithful, Replay, Timed, Latest, NewAttempt, Blank, Valid, Accept, Verdict;
    var now := w.Now();
    var locked := w.TryLock();
    if !locked {
      return None;
    }
    var loaded := w.Load();
    if loaded.Unreadable? {
      return None;
    }
    var value, decision, draw := Settlement(w, setup, seen, loaded, now);
    if value.None? {
      return None;
    }
    var ok := Store(w, value.value, Settled(seen, draw), now);
    if !ok || decision.kind == Conflict {
      FailsAfter(w.Trace());
    }
    r := if !ok || decision.kind == Conflict then None else Some(decision);
  }

  /** The part of `reconcileAndPersist` between load and save: the decision, and the record to store. */
  method Settlement(w: Env, setup: Setup, seen: seq<Instance>, loaded: LoadAnswer, now: Time)
    returns (r: Option<Record>, decision: Decision, draw: Option<seq<Byte>>)
    requires setup.key == w.key && !loaded.Unreadable?
    requires w.record == if loaded.Have? then Some(loaded.record) else None
    modifies w
    ensures w.tick >= old(w.tick) && w.clock >= old(w.clock) && w.refusals >= old(w.refusals)
    ensures r.None? ==> w.refusals > old(w.refusals)
    ensures w.log == old(w.log) && w.base == old(w.base) && w.record == old(w.record)
    ensures r.Some? ==> Change(w.key, Settled(seen, draw), w.record, now) == r
    ensures decision == WithDraw(VerdictOn(w.key, seen, w.record, now), draw, now) || r.None?
  {
    var value, local := Empty(w.key), None;
    if loaded.Have? {
      value, local := loaded.record, Some(LocalOf(loaded.record));
    }
    decision := Decide(Input(setup.key.target, setup.key.account, local, seen, now));
    value := value.(lastResult := decision.reason, updatedAt := now);
    draw := None;
    match decision.kind {
      case AlreadySatisfied =>
        value := value.(phase := Running, instanceID := decision.instanceID);
      case ResumeReconcile =>
        value := value.(phase := Provisioning);
      case RetrySameAttempt =>
        value := value.(phase := Provisioning);
      case Conflict =>
        value := value.(phase := Failed, lastError := decision.reason);
      case _ =>
        draw := w.Random();
        var attempt := NewAttempt(draw, now, ATTEMPT_VALIDITY);
        if attempt.None? {
          return None, decision, draw;
        }
        decision := decision.(attempt := attempt);
        value := value.(phase := Provisioning, attemptID := attempt.value.id, token := attempt.value.token);
        value := value.(attemptValidTo := attempt.value.validUntil, lastAttempt := now);
    }
    r := Some(value);
  }

  /** `newAttemptAndPersist`: nothing when it fails. */
  method NewAttemptAndPersist(w: Env, setup: Setup, d: Decision, ghost launch: LaunchInput) returns (r: Option<Attempt>)
    requires At(w, Launching(setup, d, launch, CAPACITY_LOST)) && setup.key == w.key
    requires CreateSafe(d.kind) && !setup.once && w.record.Some?
    modifies w
    ensures w.tick > old(w.tick) && w.record.Some? && w.refusals >= old(w.refusals)
    ensures r.Some? ==> At(w, Chosen(setup, d.(attempt := r)))
    ensures r.None? ==> Doomed(w) && w.refusals > old(w.refusals)
  {
    hide Faithful, Replay, Timed, Latest, NewAttempt, Blank, Valid, Accept;
    var now := w.Now();
    var draw := w.Random();
    var attempt := NewAttempt(draw, now, ATTEMPT_VALIDITY);
    AttemptNeedsDraw(draw, now);
    if attempt.None? {
      return None;
    }
    var locked := w.TryLock();
    if !locked {
      return None;
    }
    var loaded := w.Load();
    if !loaded.Have? {
      return None;
    }
    var value := loaded.record;
    value := value.(phase := Provisioning, attemptID := attempt.value.id, token := attempt.value.token);
    value := value.(attemptValidTo := attempt.value.validUntil, lastAttempt := now, updatedAt := now);
    value := value.(instanceID := "", lastError := "");
    var ok := Store(w, value, Rotated(draw), now);
    r := if ok then attempt else None;
  }

  /** The capacity closure: load, rebuild the cursor, watch. */
  method WatchCapacity(w: Env, setup: Setup, d: Decision) returns (r: Option<WatchResult>, ghost watch: WatchInput)
    requires At(w, Chosen(setup, d)) && CreateSafe(d.kind) && setup.key == w.key && Ranged(setup) && w.record.Some?
    modifies w
    ensures w.record.Some? && w.refusals >= old(w.refusals) && (r.None? ==> w.refusals > old(w.refusals))
    ensures w.tick > old(w.tick) && (r.Some? && r.value.Placement? ==> old(w.tick) < w.horizon)
    ensures r.Some? ==> At(w, Watching(setup, d, watch, Watched(r.value)))
    ensures r.None? ==> Doomed(w)
  {
    watch := Watch.WatchPlan(setup, Empty(setup.key));
    var loaded := w.Load();
    if !loaded.Have? {
      return None, watch;
    }
    var record := loaded.record;
    Step(w, Resumed(record));
    var resume := Progress(record.selectedAD, 0, record.retryCount, record.nextAttempt,
                           Watch.StatusOf(record.lastResult));
    resume := Watch.Rebuild(setup.domains, resume);
    var plan := WatchInput(setup.domains, setup.once, resume, setup.complete, setup.timeout, setup.retryMin,
                           setup.retryMax, Watch.JITTER);
    watch := plan;
    ghost var before := w.Trace();
    var result := Watch.Watch(w, plan);
    WatchLifts(w, before, setup, d, plan);
    r := Some(result);
  }

  /** The launch closure. */
  method LaunchInstance(w: Env, setup: Setup, d: Decision, ghost pc: Pc)
    returns (r: LaunchResult, ghost launch: LaunchInput)
    requires At(w, pc) && setup.key == w.key && Ranged(setup)
    requires Next(pc, Placed(d.instanceID)) == Some(EnterLaunch(setup, d))
    modifies w
    ensures w.tick >= old(w.tick) && At(w, Launching(setup, d, launch, Done(r)))
    ensures d.instanceID != "" ==> Harmless(old(w.Trace()), w.Trace())
    ensures w.refusals >= old(w.refusals) && (old(w.record).Some? ==> w.record.Some?)
  {
    hide Harmless, Faithful, Replay, Timed, Latest;
    Step(w, Placed(d.instanceID));
    var attempt := d.attempt;
    if attempt.None? {
      attempt := Some(Attempt("", "", 0));
    }
    var plan := LaunchInput(Request(setup.key, attempt.value.token), setup.publicIP, d.instanceID,
                            setup.timeout, setup.retryMin, setup.retryMax);
    launch := plan;
    ghost var before := w.Trace();
    r := Launch.Run(w, plan);
    LaunchLifts(w, before, setup, d, plan);
    if d.instanceID != "" {
      ExistingIsHarmless(plan, w.log);
      AppendHarmless(old(w.Trace()), Placed(d.instanceID), w.log);
    }
  }

  lemma AllSavesFeasible(w: Env, setup: Setup)
    requires w.Honest() && setup.key == w.key
    ensures AllFeasible(setup.key, w.log)
  {
    forall e | e in w.log && e.Saved?
      ensures Feasible(setup.key, e.write, e.before, e.now, e.out)
    {
      assert e in w.Trace();
      FaithfulIsFeasible(w.key, w.initial, w.Trace(), e);
    }
  }

  lemma WatchLifts(w: Env, before: seq<Event>, setup: Setup, d: Decision, plan: WatchInput)
    requires w.Honest() && setup.key == w.key && w.base == before
    requires RunAfter(before) == Some(Watching(setup, d, plan, WatchStart(plan))) && WatchAfter(plan, w.log).Some?
    ensures RunAfter(w.Trace()) == Some(Watching(setup, d, plan, WatchAfter(plan, w.log).value))
  {
    AllSavesFeasible(w, setup);
    WatchHasNoExit(plan, w.log);
    WatchWithin(before, setup, d, plan, w.log);
  }

  lemma LaunchLifts(w: Env, before: seq<Event>, setup: Setup, d: Decision, plan: LaunchInput)
    requires w.Honest() && setup.key == w.key && w.base == before
    requires RunAfter(before) == Some(Launching(setup, d, plan, LaunchStart(plan))) && LaunchAfter(plan, w.log).Some?
    ensures RunAfter(w.Trace()) == Some(Launching(setup, d, plan, LaunchAfter(plan, w.log).value))
  {
    AllSavesFeasible(w, setup);
    LaunchHasNoExit(plan, w.log);
    LaunchWithin(before, setup, d, plan, w.log);
  }

  lemma {:induction false} LaunchHasNoExit(plan: LaunchInput, es: seq<Event>)
    requires LaunchAfter(plan, es).Some?
    ensures forall e | e in es :: !e.Exited?
  {
    if es != [] {
      LaunchHasNoExit(plan, es[..|es| - 1]);
      assert forall e | e in es :: e in es[..|es| - 1] || e == es[|es| - 1];
    }
  }

  lemma {:induction false} WatchHasNoExit(plan: WatchInput, es: seq<Event>)
    requires WatchAfter(plan, es).Some?
    ensures forall e | e in es :: !e.Exited?
  {
    if es != [] {
      WatchHasNoExit(plan, es[..|es| - 1]);
      assert forall e | e in es :: e in es[..|es| - 1] || e == es[|es| - 1];
    }
  }

  /** The run is about to end as `r` tells: with an error, or with an instance id that may be empty. */
  ghost predicate Ends(w: Env, r: Option<string>)
    reads w
  {
    && w.Honest() && RunAfter(w.Trace()).Some?
    && (r.None? ==> Doomed(w))
    && (r.Some? ==> Next(RunAfter(w.Trace()).value, Exited(true, r.value)) == Some(Idle))
  }

  lemma StopsHere(w: Env, pc: Pc)
    requires At(w, pc) && MayFail(pc)
    ensures Doomed(w)
  {
  }

  lemma DoomedEnds(w: Env)
    requires Doomed(w)
    ensures Ends(w, None)
  {
  }

  lemma NothingToDo(w: Env, setup: Setup, d: Decision)
    requires At(w, Chosen(setup, d)) && !CreateSafe(d.kind) && d.instanceID == ""
    ensures Ends(w, Some(""))
  {
  }

  lemma ResumesInstance(setup: Setup, d: Decision)
    requires !CreateSafe(d.kind) && d.instanceID != ""
    ensures Next(Chosen(setup, d), Placed(d.instanceID)) == Some(EnterLaunch(setup, d))
  {
  }

  lemma PlacedLaunches(setup: Setup, d: Decision, watch: WatchInput, result: WatchResult)
    requires result.Placement? && !(setup.once && result.kind == Unavailable)
    ensures Next(Watching(setup, d, watch, Watched(result)), Placed(d.instanceID)) == Some(EnterLaunch(setup, d))
  {
  }

  lemma NothingAvailable(w: Env, setup: Setup, d: Decision, watch: WatchInput, result: WatchResult)
    requires At(w, Watching(setup, d, watch, Watched(result)))
    requires result.Placement? && setup.once && result.kind == Unavailable
    ensures Ends(w, Some(d.instanceID))
  {
  }

  lemma CapacityLostOnce(w: Env, setup: Setup, d: Decision, launch: LaunchInput)
    requires At(w, Launching(setup, d, launch, CAPACITY_LOST)) && CreateSafe(d.kind) && setup.once
    ensures Ends(w, Some(d.instanceID))
  {
  }

  lemma ReportedEnds(w: Env, setup: Setup, d: Decision, launch: LaunchInput, launched: LaunchResult)
    requires At(w, Launching(setup, d, launch, Done(launched)))
    requires !(launched == LaunchError(Some(OutOfCapacity)) && CreateSafe(d.kind))
    ensures Ends(w, Reported(launched, d))
    ensures launched.LaunchError? ==> Blamed(w.Trace())
  {
    if launched.LaunchError? {
      Erred(w, Launching(setup, d, launch, Done(launched)));
    }
  }

  predicate LostNothing(pc: Pc)
    requires pc.Launching?
  {
    !(pc.l == CAPACITY_LOST && CreateSafe(pc.d.kind))
  }

  /** An engine that failed leaves the reason behind. */
  lemma Erred(w: Env, pc: Pc)
    requires At(w, pc) && MayFail(pc) && (pc.Watching? || (pc.Launching? && LostNothing(pc)))
    ensures Blamed(w.Trace())
  {
    FailsAfter(w.Trace());
    hide Blamed, MayFail;
  }

  /** One pass through the loop of `Run`: the decision with its next attempt, or the end. */
  method Cycle(w: Env, setup: Setup, decision: Decision) returns (next: Option<Decision>, r: Option<string>)
    requires At(w, Chosen(setup, decision)) && setup.key == w.key && Ranged(setup)
    requires CreateSafe(decision.kind) && w.record.Some?
    modifies w
    ensures w.tick > old(w.tick) && w.record.Some? && w.refusals >= old(w.refusals)
    ensures next.Some? ==> At(w, Chosen(setup, next.value)) && CreateSafe(next.value.kind) && old(w.tick) < w.horizon
    ensures next.None? ==> Ends(w, r) && (r.None? ==> HasReason(w))
  {
    hide At, Ends, Next, Blamed;
    next, r := None, None;
    var placed, watch := WatchCapacity(w, setup, decision);
    if placed.None? || placed.value.WatchError? {
      if placed.Some? {
        StopsHere(w, Watching(setup, decision, watch, Watched(placed.value)));
        Erred(w, Watching(setup, decision, watch, Watched(placed.value)));
      }
      DoomedEnds(w);
      return;
    }
    if setup.once && placed.value.kind == Unavailable {
      NothingAvailable(w, setup, decision, watch, placed.value);
      r := Some(decision.instanceID);
      return;
    }
    PlacedLaunches(setup, decision, watch, placed.value);
    var launched, launch := LaunchInstance(w, setup, decision, Watching(setup, decision, watch, Watched(placed.value)));
    if launched == LaunchError(Some(OutOfCapacity)) {
      if setup.once {
        CapacityLostOnce(w, setup, decision, launch);
        r := Some(decision.instanceID);
        return;
      }
      var attempt := NewAttemptAndPersist(w, setup, decision, launch);
      if attempt.Some? {
        next := Some(decision.(attempt := attempt));
      } else {
        DoomedEnds(w);
      }
    } else {
      ReportedEnds(w, setup, decision, launch, launched);
      r := Reported(launched, decision);
    }
  }

  /** The part of `Run` after the decision. */
  method Provision(w: Env, setup: Setup, decided: Decision, keyReadable: bool) returns (r: Option<string>)
    requires At(w, Chosen(setup, decided)) && setup.key == w.key && Ranged(setup) && w.record.Some?
    modifies w
    ensures w.tick >= old(w.tick) && Ends(w, r)
    ensures r.None? && keyReadable ==> HasReason(w)
    ensures !keyReadable ==> Harmless(old(w.Trace()), w.Trace())
  {
    hide At, Ends, Next;
    var createSafe := CreateSafe(decided.kind);
    if createSafe && !keyReadable {
      StopsHere(w, Chosen(setup, decided));
      DoomedEnds(w);
      return None;
    }
    if !createSafe {
      if decided.instanceID == "" {
        NothingToDo(w, setup, decided);
        return Some("");
      }
      ResumesInstance(setup, decided);
      var launched, launch := LaunchInstance(w, setup, decided, Chosen(setup, decided));
      ReportedEnds(w, setup, decided, launch, launched);
      return Reported(launched, decided);
    }
    var decision := Some(decided);
    r := None;
    while decision.Some?
      invariant w.tick >= old(w.tick) && w.record.Some? && w.refusals >= old(w.refusals)
      invariant decision.Some? ==> At(w, Chosen(setup, decision.value)) && CreateSafe(decision.value.kind)
      invariant decision.None? ==> Ends(w, r) && (r.None? ==> HasReason(w))
      decreases decision.Some?, w.horizon - w.tick
    {
      decision, r := Cycle(w, setup, decision.value);
    }
  }

  function Reported(launched: LaunchResult, d: Decision): Option<string> {
    if launched.LaunchError? then None else Some(if launched.vm.id != "" then launched.vm.id else d.instanceID)
  }

  lemma Starts(setup: Setup, seen: seq<Instance>)
    ensures Next(Idle, Event.Discovered(setup, seen)) == Some(Observed(setup, seen))
    ensures forall ok :: Next(Observed(setup, seen), Guarded(ok)) == Some(if ok then Holding(setup, seen) else Barred)
  {
  }

  lemma OneMore(es: seq<Event>, e: Event)
    requires !e.Probed? && !e.Launched?
    ensures Harmless(es, es + [e])
  {
  }

  /** The part of `Run` under the run lock, if it can be had. */
  method Guard(w: Env, setup: Setup, seen: seq<Instance>, keyReadable: bool) returns (r: Option<string>)
    requires At(w, Observed(setup, seen)) && setup.key == w.key && Ranged(setup)
    modifies w
    ensures Ends(w, r) && (!keyReadable ==> Harmless(old(w.Trace()), w.Trace()))
    ensures r.None? && keyReadable ==> HasReason(w)
  {
    hide Ends, Next, Harmless;
    r := None;
    Starts(setup, seen);
    var guard := w.TryLock();
    Step(w, Guarded(guard));
    OneMore(old(w.Trace()), Guarded(guard));
    ghost var guarded := w.Trace();
    if !guard {
      StopsHere(w, Barred);
      DoomedEnds(w);
      return;
    }
    var decision := ReconcileAndPersist(w, setup, seen);
    HarmlessTogether(old(w.Trace()), guarded, w.Trace());
    ghost var decided := w.Trace();
    if decision.None? {
      DoomedEnds(w);
      return;
    }
    r := Provision(w, setup, decision.value, keyReadable);
    if !keyReadable {
      HarmlessTogether(old(w.Trace()), decided, w.Trace());
    }
  }

  function ExitOf(r: Option<string>): Event {
    if r.Some? then Exited(true, r.value) else Exited(false, "")
  }

  /** An instance is returned when, and only when, the last event stored it as running; the record then names it. */
  predicate Returns(before: seq<Event>, r: Option<string>, record: Option<Record>) {
    var vm := StoredVm(before);
    && (vm.Some? ==> r.Some? && (vm.value.id != "" ==> r.value == vm.value.id))
    && (vm.Some? ==> record.Some? && record.value.phase == Running && record.value.instanceID == vm.value.id)
    && (r.Some? && r.value != "" ==> vm.Some? && (vm.value.id == r.value || vm.value.id == ""))
  }

  /** The first and the last event of a run are neither probe nor launch. */
  lemma NothingCalled(es: seq<Event>, e: Event, more: seq<Event>, exit: Event)
    requires e.Discovered? && exit.Exited?
    ensures Harmless(es + [e], more) ==> Harmless(es, more + [exit])
  {
    if Harmless(es + [e], more) {
      assert (more + [exit])[..|es|] == more[..|es + [e]|][..|es|];
      assert more[|es|] == more[..|es + [e]|][|es|];
    }
  }

  lemma StoredIsRecorded(key: Key, initial: Option<Record>, es: seq<Event>)
    requires Faithful(key, initial, es) && StoredVm(es).Some?
    ensures var r := Replay(key, initial, es);
      r.Some? && r.value.phase == Running && r.value.instanceID == StoredVm(es).value.id
  {
    var e := es[|es| - 1];
    WrittenIsFound(key, e.write, e.before, e.now, e.out);
    hide After, Feasible;
  }

  /** The last event of a run that began with `first`: the lock is given up. */
  ghost method Exit(w: Env, es: seq<Event>, first: Event, r: Option<string>)
    requires Ends(w, r) && first.Discovered?
    modifies w`log
    ensures w.Honest() && RunAfter(w.Trace()) == Some(Idle) && w.Trace() == old(w.Trace()) + [ExitOf(r)]
    ensures |w.Trace()| > 0 && w.Trace()[|w.Trace()| - 1] == ExitOf(r)
    ensures w.Trace()[..|w.Trace()| - 1] == old(w.Trace()) && Returns(old(w.Trace()), r, w.record)
    ensures Harmless(es + [first], old(w.Trace())) || es + [first] == old(w.Trace()) ==> Harmless(es, w.Trace())
  {
    var before := w.Trace();
    Step(w, ExitOf(r));
    ReturnsStored(before, ExitOf(r));
    if StoredVm(before).Some? {
      StoredIsRecorded(w.key, w.initial, before);
    }
    hide Returns, Faithful, Replay, Timed, Latest, RunAfter;
    NothingCalled(es, first, before, ExitOf(r));
  }

  /** `Runner.Run` after configuration and authentication: `prepared` is the discovery result, `allowed` the policy's
      verdict. Whatever the environment answers, the run is a complete behaviour of the automaton that the protocol
      composes, it tells the truth about the record, and it gives the run lock up. A policy that says no, or a key file
      that cannot be read, keeps it from capacity and launch calls. */
  method Run(w: Env, prepared: Option<(Setup, seq<Instance>)>, allowed: bool, keyReadable: bool)
    returns (r: Option<string>)
    requires w.Honest() && RunAfter(w.Trace()) == Some(Idle)
    requires prepared.Some? ==> prepared.value.0.key == w.key && Ranged(prepared.value.0)
    modifies w
    ensures w.Honest() && RunAfter(w.Trace()) == Some(Idle)
    ensures prepared.None? ==> r.None? && w.Trace() == old(w.Trace())
    ensures prepared.Some? ==>
      && |w.Trace()| > 0 && w.Trace()[|w.Trace()| - 1] == ExitOf(r)
      && Returns(w.Trace()[..|w.Trace()| - 1], r, w.record)
    ensures prepared.Some? && allowed && keyReadable && r.None? ==>
      w.refusals > old(w.refusals) || Blamed(w.Trace()[..|w.Trace()| - 1])
    ensures prepared.Some? && !allowed ==>
      w.Trace() == old(w.Trace()) + [Event.Discovered(prepared.value.0, prepared.value.1), Exited(false, "")]
    ensures !keyReadable ==> Harmless(old(w.Trace()), w.Trace())
  {
    r := None;
    if prepared.None? {
      return;
    }
    hide Ends, Next, Returns, Harmless, Faithful, Replay, Timed, Latest, Blamed, MayFail;
    var setup, seen := prepared.value.0, prepared.value.1;
    Starts(setup, seen);
    Step(w, Event.Discovered(setup, seen));
    if allowed {
      r := Guard(w, setup, seen, keyReadable);
    } else {
      StopsHere(w, Observed(setup, seen));
      DoomedEnds(w);
    }
    Exit(w, old(w.Trace()), Event.Discovered(setup, seen), r);
  }
}
